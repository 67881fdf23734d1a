/**
 * What one connection holds: a bounded number of channel slots, and the listeners of its remote forwards. Session
 * handlers, accept loops, forwarded and agent connections run at the same time, each with one slot. The lock on
 * the table is held from the lookup to the end of Listen, so that step is two here.
 */
module Forward {
  import opened Prelude

  const MAX_CHANNELS := 50

  type Listener = nat

  // The key of a forward.

  /** net.JoinHostPort with a number for the port. */
  function Join(host: string, port: nat): string {
    (if ':' in host then "[" + host + "]" else host) + ":" + Decimal(port)
  }

  /** Loopback unless gateway ports are on. */
  function Host(bind: string, gateway: bool): string {
    if !gateway then "127.0.0.1" else if bind == "" then "0.0.0.0" else bind
  }

  function Key(bind: string, port: nat, gateway: bool): string { Join(Host(bind, gateway), port) }

  lemma LastColon(a: string, d: string, b: string, e: string)
    requires a + ":" + d == b + ":" + e && ':' !in d && ':' !in e
    ensures a == b && d == e
  {
    var s := a + ":" + d;
    assert s[|a|] == ':' && s[|b|] == ':';
    assert forall k :: |a| < k < |s| ==> s[k] in d;
    assert forall k :: |b| < k < |s| ==> s[k] in e;
    assert s[..|a|] == a && s[..|b|] == b;
    assert s[|a| + 1..] == d && s[|b| + 1..] == e;
  }

  /** The key tells host and port apart, whatever string a client sends as its bind address. */
  lemma JoinInjective(h1: string, p1: nat, h2: string, p2: nat)
    ensures Join(h1, p1) == Join(h2, p2) <==> h1 == h2 && p1 == p2
  {
    if Join(h1, p1) == Join(h2, p2) {
      var a := if ':' in h1 then "[" + h1 + "]" else h1;
      var b := if ':' in h2 then "[" + h2 + "]" else h2;
      assert ':' !in Decimal(p1) && ':' !in Decimal(p2);
      LastColon(a, Decimal(p1), b, Decimal(p2));
      Brackets(h1);
      Brackets(h2);
      DecimalRoundTrip(p1);
      DecimalRoundTrip(p2);
      assert ':' in h1 <==> ':' in a;
      assert ':' in h2 <==> ':' in b;
    }
  }

  lemma Brackets(h: string)
    ensures ("[" + h + "]")[1..|h| + 1] == h
    ensures ':' in h ==> ':' in "[" + h + "]"
  {
    var s := "[" + h + "]";
    if ':' in h {
      var i :| 0 <= i < |h| && h[i] == ':';
      assert s[i + 1] == ':';
    }
  }

  /** How net.SplitHostPort reads an address: a host without colons or brackets, or one in brackets. */
  predicate IsSplit(addr: string, host: string, port: string) {
    && ':' !in port && '[' !in host && ']' !in host
    && ((':' !in host && addr == host + ":" + port) || (':' in host && addr == "[" + host + "]:" + port))
  }

  /** The key reads back as exactly that host and port. */
  lemma JoinSplits(host: string, port: nat)
    requires '[' !in host && ']' !in host
    ensures IsSplit(Join(host, port), host, Decimal(port)) && ReadDecimal(Decimal(port)) == port
  {
    DecimalRoundTrip(port);
    assert ':' !in Decimal(port);
    assert "[" + host + "]" + ":" + Decimal(port) == "[" + host + "]:" + Decimal(port);
  }

  // The connection.

  /** A tcpip-forward between taking its slot and the end of Listen, with the policy it read. */
  datatype Binding = Binding(bind: string, port: nat, gateway: bool)

  /**
   * `forwards` is None after teardown. `bound` are the listeners that are open, `loops` those with a running accept
   * loop and `used` all there ever were.
   */
  datatype State = State(
    slots: int, forwards: Option<map<string, Listener>>, bound: set<Listener>, binding: Option<Binding>,
    loops: set<Listener>, used: set<Listener>,
    handlers: nat, forwarded: nat, agents: nat, gateway: bool)

  function Init(): State { State(0, Some(map[]), {}, None, {}, {}, 0, 0, 0, false) }

  /** What the checks before the lock decide: the policy, the size of the port and who may bind a low one. */
  predicate MayBind(allowed: bool, port: nat, root: bool) {
    allowed && port <= 65535 && !(port != 0 && port < 1024 && !root)
  }

  datatype Act =
    | SetGateway(on: bool)
    | OpenHandler | EndHandler
    | OpenAgent | EndAgent
    | BeginForward(bind: string, port: nat, allowed: bool, root: bool)
    | ListenFails
    | ListenOk(ln: Listener, port: nat)
    | Cancel(bind: string, port: nat)
    | OpenForwarded(ln: Listener) | EndForwarded
    | LoopEnds(ln: Listener)
    | Close

  predicate HasSlot(s: State) { s.slots < MAX_CHANNELS }

  /**
   * Listen keeps a port that was asked for, and does not hand out an ephemeral one that is in use. A connection that
   * Accept returned takes its slot whether or not the listener was closed meanwhile.
   */
  predicate Can(s: State, a: Act) {
    match a
    case SetGateway(_) => true
    case OpenHandler => HasSlot(s)
    case EndHandler => s.handlers > 0 && s.slots > 0
    case OpenAgent => HasSlot(s)
    case EndAgent => s.agents > 0 && s.slots > 0
    case BeginForward(bind, port, allowed, root) =>
      && MayBind(allowed, port, root) && s.binding.None?
      && s.forwards.Some? && Key(bind, port, s.gateway) !in s.forwards.value && HasSlot(s)
    case ListenFails => s.binding.Some? && s.slots > 0
    case ListenOk(ln, port) =>
      && s.binding.Some? && s.forwards.Some? && ln !in s.used
      && (s.binding.value.port != 0 ==> port == s.binding.value.port)
      && Key(s.binding.value.bind, port, s.binding.value.gateway) !in s.forwards.value
    case Cancel(_, _) => s.binding.None?
    case OpenForwarded(ln) => ln in s.loops && HasSlot(s)
    case EndForwarded => s.forwarded > 0 && s.slots > 0
    case LoopEnds(ln) => ln in s.loops && s.slots > 0
    case Close => s.binding.None?
  }

  function AfterCancel(s: State, key: string): State {
    if s.forwards.Some? && key in s.forwards.value
    then s.(forwards := Some(s.forwards.value - {key}), bound := s.bound - {s.forwards.value[key]})
    else s
  }

  function Do(s: State, a: Act): State
    requires Can(s, a)
  {
    match a
    case SetGateway(on) => s.(gateway := on)
    case OpenHandler => s.(slots := s.slots + 1, handlers := s.handlers + 1)
    case EndHandler => s.(slots := s.slots - 1, handlers := s.handlers - 1)
    case OpenAgent => s.(slots := s.slots + 1, agents := s.agents + 1)
    case EndAgent => s.(slots := s.slots - 1, agents := s.agents - 1)
    case BeginForward(bind, port, _, _) => s.(slots := s.slots + 1, binding := Some(Binding(bind, port, s.gateway)))
    case ListenFails => s.(slots := s.slots - 1, binding := None)
    case ListenOk(ln, port) =>
      var b := s.binding.value;
      s.(forwards := Some(s.forwards.value[Key(b.bind, port, b.gateway) := ln]), bound := s.bound + {ln},
         loops := s.loops + {ln}, used := s.used + {ln}, binding := None)
    case Cancel(bind, port) => AfterCancel(s, Key(bind, port, s.gateway))
    case OpenForwarded(_) => s.(slots := s.slots + 1, forwarded := s.forwarded + 1)
    case EndForwarded => s.(slots := s.slots - 1, forwarded := s.forwarded - 1)
    case LoopEnds(ln) => s.(slots := s.slots - 1, loops := s.loops - {ln})
    case Close =>
      s.(forwards := None, bound := if s.forwards.Some? then s.bound - s.forwards.value.Values else s.bound)
  }

  function Exec(s: State, run: seq<Act>): Option<State>
    decreases |run|
  {
    if run == [] then Some(s)
    else if Can(s, run[0]) then Exec(Do(s, run[0]), run[1..])
    else None
  }

  // What every run keeps.

  ghost predicate SlotsOk(s: State) {
    && s.slots == s.handlers + s.agents + s.forwarded + |s.loops| + (if s.binding.Some? then 1 else 0)
    && s.slots <= MAX_CHANNELS
    && (s.binding.Some? ==> s.forwards.Some?)
  }

  predicate OneKeyEach(m: map<string, Listener>) { forall k, j :: k in m && j in m && m[k] == m[j] ==> k == j }

  /** The open listeners are exactly those in the table, each under one key. */
  ghost predicate TableOk(s: State) {
    && s.loops <= s.used && s.bound <= s.used
    && (s.forwards.None? ==> s.bound == {})
    && (s.forwards.Some? ==>
          s.bound == s.forwards.value.Values && OneKeyEach(s.forwards.value))
  }

  ghost predicate Inv(s: State) { SlotsOk(s) && TableOk(s) }

  lemma ValuesWith(m: map<string, Listener>, key: string, ln: Listener)
    requires key !in m
    ensures m[key := ln].Values == m.Values + {ln}
  {
    var n := m[key := ln];
    assert n[key] == ln;
    forall x | x in m.Values ensures x in n.Values {
      var k :| k in m && m[k] == x;
      assert n[k] == x;
    }
  }

  lemma ValuesWithout(m: map<string, Listener>, key: string)
    requires key in m && OneKeyEach(m)
    ensures (m - {key}).Values == m.Values - {m[key]}
  {
    var n := m - {key};
    forall x | x in m.Values && x != m[key] ensures x in n.Values {
      var k :| k in m && m[k] == x;
      assert k in n && n[k] == x;
    }
    forall x | x in n.Values ensures x in m.Values && x != m[key] {
      var k :| k in n && n[k] == x;
      assert k in m && m[k] == x;
    }
  }

  lemma ListenKeepsTable(s: State, a: Act)
    requires TableOk(s) && Can(s, a) && a.ListenOk?
    ensures TableOk(Do(s, a))
  {
    var m, b := s.forwards.value, s.binding.value;
    ValuesWith(m, Key(b.bind, a.port, b.gateway), a.ln);
    assert forall k :: k in m ==> m[k] in m.Values && m[k] != a.ln;
  }

  lemma ListenKeepsInv(s: State, a: Act)
    requires Inv(s) && Can(s, a) && a.ListenOk?
    ensures Inv(Do(s, a))
  {
    ListenKeepsTable(s, a);
    assert a.ln !in s.loops;
    assert |s.loops + {a.ln}| == |s.loops| + 1;
  }

  lemma CancelKeepsInv(s: State, key: string)
    requires Inv(s)
    ensures Inv(AfterCancel(s, key))
  {
    if s.forwards.Some? && key in s.forwards.value { ValuesWithout(s.forwards.value, key); }
  }

  lemma StepKeepsInv(s: State, a: Act)
    requires Inv(s) && Can(s, a)
    ensures Inv(Do(s, a))
  {
    match a
    case ListenOk(_, _) => ListenKeepsInv(s, a);
    case Cancel(bind, port) => CancelKeepsInv(s, Key(bind, port, s.gateway));
    case _ =>
  }

  lemma {:induction false} RunKeepsInv(s: State, run: seq<Act>)
    requires Inv(s) && Exec(s, run).Some?
    ensures Inv(Exec(s, run).value)
    decreases |run|
  {
    if run != [] {
      StepKeepsInv(s, run[0]);
      RunKeepsInv(Do(s, run[0]), run[1..]);
    }
  }

  /**
   * In every interleaving the slots in use are exactly the running handlers, accept loops, forwarded and agent
   * connections, and a forward being bound. They never exceed the limit, and everything that holds one can give
   * it back without blocking.
   */
  lemma ChannelSlotsConserved(run: seq<Act>)
    requires Exec(Init(), run).Some?
    ensures var s := Exec(Init(), run).value;
            && s.slots == s.handlers + s.agents + s.forwarded + |s.loops| + (if s.binding.Some? then 1 else 0)
            && s.slots <= 50
            && (s.slots < 50 <==> Can(s, OpenHandler)) && (s.slots < 50 <==> Can(s, OpenAgent))
            && (s.handlers > 0 ==> Can(s, EndHandler))
            && (s.agents > 0 ==> Can(s, EndAgent))
            && (s.forwarded > 0 ==> Can(s, EndForwarded))
            && (s.binding.Some? ==> Can(s, ListenFails))
            && (forall ln :: ln in s.loops ==> Can(s, LoopEnds(ln)) && (s.slots < 50 <==> Can(s, OpenForwarded(ln))))
            && (s.binding.None? ==> Can(s, Close) && forall bind, port :: Can(s, Cancel(bind, port)))
  {
    RunKeepsInv(Init(), run);
  }

  lemma {:induction false} ClosedStays(s: State, more: seq<Act>)
    requires Inv(s) && s.forwards.None? && Exec(s, more).Some?
    ensures var t := Exec(s, more).value; t.forwards.None? && t.bound == {} && t.used == s.used
    decreases |more|
  {
    if more != [] {
      StepKeepsInv(s, more[0]);
      ClosedStays(Do(s, more[0]), more[1..]);
    }
  }

  /** After teardown no listener of the connection is open, and none is ever bound again. */
  lemma NoListenerAfterClose(run: seq<Act>, more: seq<Act>)
    requires Exec(Init(), run).Some? && Can(Exec(Init(), run).value, Close)
    requires Exec(Do(Exec(Init(), run).value, Close), more).Some?
    ensures var s := Exec(Init(), run).value;
            var t := Exec(Do(s, Close), more).value;
            t.bound == {} && t.used == s.used
  {
    RunKeepsInv(Init(), run);
    var s := Exec(Init(), run).value;
    StepKeepsInv(s, Close);
    ClosedStays(Do(s, Close), more);
  }

  /** In this run the accept loop of a listener ended, on an error of Accept, while the listener was open. */
  predicate AcceptFailed(s: State, run: seq<Act>, ln: Listener)
    decreases |run|
  {
    && run != [] && Can(s, run[0])
    && ((run[0] == LoopEnds(ln) && ln in s.bound) || AcceptFailed(Do(s, run[0]), run[1..], ln))
  }

  /** Of an open listener, `lost` says exactly whether its loop is gone. A listener that is gone does not come back. */
  ghost predicate LoopOk(s: State, ln: Listener, lost: bool) {
    (ln in s.bound ==> (ln in s.loops <==> !lost)) && (lost ==> ln in s.used)
  }

  lemma {:induction false} RunLoop(s: State, run: seq<Act>, ln: Listener, lost: bool)
    requires Inv(s) && LoopOk(s, ln, lost) && Exec(s, run).Some?
    ensures LoopOk(Exec(s, run).value, ln, lost || AcceptFailed(s, run, ln))
    decreases |run|
  {
    if run != [] {
      StepKeepsInv(s, run[0]);
      var now := run[0] == LoopEnds(ln) && ln in s.bound;
      StepLoop(s, run[0], ln, lost);
      RunLoop(Do(s, run[0]), run[1..], ln, lost || now);
    }
  }

  lemma StepLoop(s: State, a: Act, ln: Listener, lost: bool)
    requires Inv(s) && LoopOk(s, ln, lost) && Can(s, a)
    ensures LoopOk(Do(s, a), ln, lost || (a == LoopEnds(ln) && ln in s.bound))
  {
  }

  /** An open listener holds a slot through its accept loop, exactly if no Accept on it has failed while it was open. */
  lemma OpenListenerHoldsSlot(run: seq<Act>, ln: Listener)
    requires Exec(Init(), run).Some?
    ensures var s := Exec(Init(), run).value;
            ln in s.bound ==> (ln in s.loops <==> !AcceptFailed(Init(), run, ln))
  {
    RunLoop(Init(), run, ln, false);
  }

  /** It happens: after an error of Accept the listener stays open and in the table, and its slot is free. */
  lemma ListenerWithoutSlot()
    ensures var run := [BeginForward("", 8080, true, false), ListenOk(0, 8080), LoopEnds(0)];
            Exec(Init(), run).Some? &&
            var s := Exec(Init(), run).value;
            s.bound == {0} && s.slots == 0 && s.forwards == Some(map[Key("", 8080, false) := 0])
  {
    var run := [BeginForward("", 8080, true, false), ListenOk(0, 8080), LoopEnds(0)];
    var s1 := Do(Init(), run[0]);
    var s2 := Do(s1, run[1]);
    var s3 := Do(s2, run[2]);
    assert run[2..][1..] == [];
    assert Exec(s2, run[2..]) == Some(s3);
    assert run[1..][1..] == run[2..];
    assert Exec(s1, run[1..]) == Some(s3);
  }

  // Forward and cancel.

  /** No step of this run tears the connection down or cancels what is kept under `key`. */
  predicate Spares(s: State, more: seq<Act>, key: string)
    decreases |more|
  {
    more == [] ||
    (&& Can(s, more[0]) && !more[0].Close?
     && (more[0].Cancel? ==> Key(more[0].bind, more[0].port, s.gateway) != key)
     && Spares(Do(s, more[0]), more[1..], key))
  }

  lemma {:induction false} ForwardStays(s: State, more: seq<Act>, key: string, ln: Listener)
    requires s.forwards.Some? && key in s.forwards.value && s.forwards.value[key] == ln && Spares(s, more, key)
    ensures Exec(s, more).Some?
    ensures var t := Exec(s, more).value;
            t.forwards.Some? && key in t.forwards.value && t.forwards.value[key] == ln
    decreases |more|
  {
    if more != [] { ForwardStays(Do(s, more[0]), more[1..], key, ln); }
  }

  /** A request that is granted: the slot was free, Listen worked and the client is told `reply`. */
  datatype Request = Request(bind: string, port: nat, allowed: bool, root: bool, ln: Listener, reply: nat)

  predicate IsGranted(s: State, r: Request) {
    var begin := BeginForward(r.bind, r.port, r.allowed, r.root);
    Can(s, begin) && Can(Do(s, begin), ListenOk(r.ln, r.reply))
  }

  function Granted(s: State, r: Request): State
    requires IsGranted(s, r)
  {
    Do(Do(s, BeginForward(r.bind, r.port, r.allowed, r.root)), ListenOk(r.ln, r.reply))
  }

  lemma GrantedState(s: State, r: Request)
    requires Inv(s) && IsGranted(s, r)
    ensures var t := Granted(s, r);
            Inv(t) && t.forwards == Some(s.forwards.value[Key(r.bind, r.reply, s.gateway) := r.ln])
  {
    var begin := BeginForward(r.bind, r.port, r.allowed, r.root);
    StepKeepsInv(s, begin);
    StepKeepsInv(Do(s, begin), ListenOk(r.ln, r.reply));
  }

  /** A granted forward is bound to 127.0.0.1 unless gateway ports are on, and then where the client asked for. */
  lemma GrantedAddress(s: State, r: Request)
    requires IsGranted(s, r)
    ensures var at := if !s.gateway then Join("127.0.0.1", r.reply)
                      else if r.bind == "" then Join("0.0.0.0", r.reply) else Join(r.bind, r.reply);
            && at !in s.forwards.value
            && Granted(s, r).forwards == Some(s.forwards.value[at := r.ln])
            && Granted(s, r).bound == s.bound + {r.ln}
            && (r.port != 0 ==> r.reply == r.port)
  {
  }

  ghost predicate IsLoopbackKey(k: string) { exists port: nat :: k == Join("127.0.0.1", port) }

  /** Every forward so far is on the loopback address, and so is the one being bound. */
  ghost predicate LoopbackOnly(s: State) {
    && !s.gateway && (s.binding.Some? ==> !s.binding.value.gateway)
    && (s.forwards.Some? ==> forall k :: k in s.forwards.value ==> IsLoopbackKey(k))
  }

  lemma {:induction false} LoopbackRun(s: State, run: seq<Act>)
    requires LoopbackOnly(s) && SetGateway(true) !in run && Exec(s, run).Some?
    ensures LoopbackOnly(Exec(s, run).value)
    decreases |run|
  {
    if run != [] {
      assert run[0] in run && run[0] != SetGateway(true);
      LoopbackStep(s, run[0]);
      LoopbackRun(Do(s, run[0]), run[1..]);
    }
  }

  lemma LoopbackStep(s: State, a: Act)
    requires LoopbackOnly(s) && a != SetGateway(true) && Can(s, a)
    ensures LoopbackOnly(Do(s, a))
  {
    if a.ListenOk? { assert IsLoopbackKey(Join("127.0.0.1", a.port)); }
  }

  /** While gateway ports were never on, no forward of the connection is on any address but 127.0.0.1. */
  lemma ForwardsAreLocal(run: seq<Act>)
    requires Exec(Init(), run).Some? && SetGateway(true) !in run
    ensures var s := Exec(Init(), run).value;
            s.forwards.Some? ==> forall k :: k in s.forwards.value ==> exists port: nat :: k == Join("127.0.0.1", port)
  {
    LoopbackRun(Init(), run);
  }

  /** Cancelling takes out one key and closes one listener, the one that was under it. */
  lemma CancelTakesOne(t: State, key: string, ln: Listener)
    requires Inv(t) && t.forwards.Some? && key in t.forwards.value && t.forwards.value[key] == ln
    ensures var u := AfterCancel(t, key);
            ln in t.bound && u.bound == t.bound - {ln} && u.forwards == Some(t.forwards.value - {key})
            && ln !in u.forwards.value.Values
  {
    ValuesWithout(t.forwards.value, key);
  }

  /**
   * In `t`, a cancel takes back exactly what was granted to `r` under the policy `gateway`, provided the policy
   * now means the same host. If it does not, the cancel leaves that listener alone.
   */
  ghost predicate CancelWorks(t: State, r: Request, gateway: bool) {
    t.binding.None? ==>
      var u, key := Do(t, Cancel(r.bind, r.reply)), Key(r.bind, r.reply, gateway);
      && t.forwards.Some? && r.ln in t.bound
      && if Host(r.bind, t.gateway) == Host(r.bind, gateway)
         then && u.bound == t.bound - {r.ln}
              && u.forwards == Some(t.forwards.value - {key})
              && r.ln !in u.forwards.value.Values
         else r.ln in u.bound && u.forwards.Some? && key in u.forwards.value && u.forwards.value[key] == r.ln
  }

  lemma CancelElsewhere(t: State, key: string, ln: Listener, other: string)
    requires Inv(t) && t.forwards.Some? && key in t.forwards.value && t.forwards.value[key] == ln && other != key
    ensures var u := AfterCancel(t, other);
            ln in t.bound && ln in u.bound && u.forwards.Some? && key in u.forwards.value && u.forwards.value[key] == ln
  {
    assert ln in t.forwards.value.Values;
  }

  lemma CancelWorksIn(t: State, r: Request, gateway: bool)
    requires Inv(t) && t.forwards.Some? && Key(r.bind, r.reply, gateway) in t.forwards.value
    requires t.forwards.value[Key(r.bind, r.reply, gateway)] == r.ln
    ensures CancelWorks(t, r, gateway)
  {
    var key, now := Key(r.bind, r.reply, gateway), Key(r.bind, r.reply, t.gateway);
    JoinInjective(Host(r.bind, gateway), r.reply, Host(r.bind, t.gateway), r.reply);
    if now == key { CancelTakesOne(t, key, r.ln); } else { CancelElsewhere(t, key, r.ln, now); }
  }

  lemma CancelWorksAfter(s: State, r: Request, more: seq<Act>)
    requires Inv(s) && IsGranted(s, r) && Spares(Granted(s, r), more, Key(r.bind, r.reply, s.gateway))
    ensures Exec(Granted(s, r), more).Some? && CancelWorks(Exec(Granted(s, r), more).value, r, s.gateway)
  {
    GrantedState(s, r);
    ForwardStays(Granted(s, r), more, Key(r.bind, r.reply, s.gateway), r.ln);
    RunKeepsInv(Granted(s, r), more);
    CancelWorksIn(Exec(Granted(s, r), more).value, r, s.gateway);
  }

  /**
   * A forward that was granted, of port 0 too, is taken back by a cancel with the same address and the port that
   * was replied: whatever happened between, exactly its listener is closed and exactly its key removed, as long
   * as the gateway policy still means the same host. If it does not, that listener stays.
   */
  lemma CancelUndoesForward(run: seq<Act>, r: Request, more: seq<Act>)
    requires Exec(Init(), run).Some? && IsGranted(Exec(Init(), run).value, r)
    requires var s := Exec(Init(), run).value; Spares(Granted(s, r), more, Key(r.bind, r.reply, s.gateway))
    ensures var s := Exec(Init(), run).value;
            Exec(Granted(s, r), more).Some? && CancelWorks(Exec(Granted(s, r), more).value, r, s.gateway)
  {
    RunKeepsInv(Init(), run);
    CancelWorksAfter(Exec(Init(), run).value, r, more);
  }

  /** It happens: gateway ports are turned on after the grant, and the cancel of the client finds nothing. */
  lemma CancelMissesForward()
    ensures var run := [BeginForward("", 8080, true, false), ListenOk(0, 8080), SetGateway(true), Cancel("", 8080)];
            Exec(Init(), run).Some? &&
            var s := Exec(Init(), run).value;
            s.bound == {0} && s.slots == 1 && s.forwards == Some(map[Key("", 8080, false) := 0])
  {
    var run := [BeginForward("", 8080, true, false), ListenOk(0, 8080), SetGateway(true), Cancel("", 8080)];
    JoinInjective(Host("", false), 8080, Host("", true), 8080);
    var s1 := Do(Init(), run[0]);
    var s2 := Do(s1, run[1]);
    var s3 := Do(s2, run[2]);
    assert run[3..][1..] == [] && run[2..][1..] == run[3..] && run[1..][1..] == run[2..];
    assert Exec(s3, run[3..]) == Some(s3);
    assert Exec(s2, run[2..]) == Some(s3);
    assert Exec(s1, run[1..]) == Some(s3);
  }

  /** The address of a forward, spelled out. */
  function Address(bind: string, port: nat, gateway: bool): string {
    Join(match (gateway, bind == "") case (false, _) => "127.0.0.1" case (_, true) => "0.0.0.0" case _ => bind, port)
  }

  /** The state of a connection behind its lock. Listen is a parameter: it fails or yields a listener and a port. */
  class ConnState {
    var channels: int
    var forwards: Option<map<string, Listener>>
    var bound: set<Listener>

    method AcquireChannel() returns (ok: bool)
      modifies this`channels
      ensures ok == (old(channels) < MAX_CHANNELS)
      ensures channels == if ok then old(channels) + 1 else old(channels)
    {
      ok := channels < MAX_CHANNELS;
      if ok { channels := channels + 1; }
    }

    /** The whole critical section of tcpipForward, as the two steps it is in the model. */
    method TcpipForward(ghost s: State, bind: string, port: nat, allowed: bool, root: bool, gateway: bool,
                        listen: Option<(Listener, nat)>)
      returns (reply: Option<nat>)
      requires channels == s.slots && forwards == s.forwards && bound == s.bound && gateway == s.gateway
      requires s.binding.None? && s.slots >= 0
      requires Can(s, BeginForward(bind, port, allowed, root)) ==>
                 var s1 := Do(s, BeginForward(bind, port, allowed, root));
                 listen.Some? ==> Can(s1, ListenOk(listen.value.0, listen.value.1))
      modifies this
      ensures reply.Some? <==> Can(s, BeginForward(bind, port, allowed, root)) && listen.Some?
      ensures reply.Some? <==>
              && allowed && port <= 65535 && (port == 0 || 1024 <= port || root)
              && old(forwards).Some? && Address(bind, port, gateway) !in old(forwards).value && old(channels) < 50
              && listen.Some?
      ensures reply.Some? ==>
                forwards == Some(old(forwards).value[Address(bind, reply.value, gateway) := listen.value.0])
      ensures reply.Some? ==>
                var t := Do(Do(s, BeginForward(bind, port, allowed, root)), ListenOk(listen.value.0, listen.value.1));
                reply.value == listen.value.1 && channels == t.slots && forwards == t.forwards && bound == t.bound
      ensures reply.None? ==> channels == old(channels) && forwards == old(forwards) && bound == old(bound)
    {
      if !allowed || port > 65535 { return None; }
      if port != 0 && port < 1024 && !root { return None; }
      var addr := Key(bind, port, gateway);
      if forwards.None? || addr in forwards.value { return None; }
      var ok := AcquireChannel();
      if !ok { return None; }
      if listen.None? {
        channels := channels - 1;
        return None;
      }
      var (ln, actual) := listen.value;
      forwards := Some(forwards.value[Key(bind, actual, gateway) := ln]);
      bound := bound + {ln};
      return Some(actual);
    }

    method CancelTCPIPForward(ghost s: State, bind: string, port: nat, gateway: bool) returns (ok: bool)
      requires forwards == s.forwards && bound == s.bound && gateway == s.gateway && s.binding.None?
      modifies this
      ensures channels == old(channels)
      ensures forwards == Do(s, Cancel(bind, port)).forwards && bound == Do(s, Cancel(bind, port)).bound
      ensures ok <==> s.forwards.Some? && Key(bind, port, gateway) in s.forwards.value
    {
      var addr := Key(bind, port, gateway);
      ok := forwards.Some? && addr in forwards.value;
      if ok {
        var ln := forwards.value[addr];
        forwards := Some(forwards.value - {addr});
        bound := bound - {ln};
      }
    }

    /** Closes every listener of the table, then gives the table up. */
    method CloseAll()
      modifies this
      ensures forwards.None? && channels == old(channels)
      ensures bound == if old(forwards).Some? then old(bound) - old(forwards).value.Values else old(bound)
    {
      if forwards.Some? {
        var m := forwards.value;
        var todo := m.Keys;
        while todo != {}
          invariant todo <= m.Keys && channels == old(channels)
          invariant bound == old(bound) - (set k | k in m && k !in todo :: m[k])
          decreases |todo|
        {
          var k :| k in todo;
          todo := todo - {k};
          bound := bound - {m[k]};
        }
        assert m.Values == set k | k in m && k !in todo :: m[k];
      }
      forwards := None;
    }
  }
}
