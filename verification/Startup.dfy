/**
 * The slots a connection holds before it has authenticated. A remote peer takes one of ten slots and one of three
 * for its source, a loopback peer one of ten others. Giving them back takes two steps for a remote peer: the
 * slot comes back before the lock on the counters is taken, so other peers see the state in between.
 */
module Startup {
  import opened Prelude

  const MAX_CONNS := 100
  const MAX_STARTUPS := 10
  const MAX_SOURCE := 3

  /** An IP address. IPv6 is split into its /64 network and the rest. `Unknown` is one that does not parse. */
  datatype Addr = Unknown | V4(bits: nat) | V6(net: nat, host: nat)

  /** An IPv4 address mapped into IPv6 counts as the former. */
  function Unmap(a: Addr): Addr {
    if a.V6? && a.net == 0 && 0xFFFF_0000_0000 <= a.host < 0x1_0000_0000_0000 then V4(a.host - 0xFFFF_0000_0000) else a
  }

  predicate IsLoopback(a: Addr) { (a.V4? && a.bits / 0x100_0000 == 127) || a == V6(0, 1) }

  /** The key a remote address is counted under: an IPv6 peer counts per /64. */
  function Source(a: Addr): Addr {
    var u := Unmap(a);
    if u.V6? then V6(u.net, 0) else u
  }

  /** The same host: the IPv4 address mapped into IPv6, that is ::ffff:0:0/96, is the address itself. */
  predicate MapsTo(a: Addr, b: Addr) {
    a.V6? && b.V4? && b.bits < 0x1_0000_0000 && a.net == 0 && a.host == 0xFFFF * 0x1_0000_0000 + b.bits
  }

  predicate Mapped(a: Addr) { a.V6? && a.net == 0 && a.host / 0x1_0000_0000 == 0xFFFF }

  /**
   * Two addresses share a counter exactly when they are the same, one is the IPv4 address mapped into the other, or
   * both are IPv6 of the same /64 and neither is mapped.
   */
  lemma SharedSource(a: Addr, b: Addr)
    ensures Source(a) == Source(b) <==>
            || a == b || MapsTo(a, b) || MapsTo(b, a)
            || (a.V6? && b.V6? && !Mapped(a) && !Mapped(b) && a.net == b.net)
  {
  }

  /** 127.0.0.0/8, the same mapped into IPv6, and ::1. */
  predicate OnLoopback(a: Addr) {
    || (a.V4? && 127 * 0x100_0000 <= a.bits < 128 * 0x100_0000)
    || (a.V6? && a.net == 0 && 0xFFFF_7F00_0000 <= a.host <= 0xFFFF_7FFF_FFFF)
    || (a.V6? && a.net == 0 && a.host == 1)
  }

  lemma LoopbackAddresses(a: Addr)
    ensures IsLoopback(Unmap(a)) <==> OnLoopback(a)
  {
  }

  datatype Slots = Slots(startups: int, local: int, counters: map<Addr, int>)

  datatype Grant = Refused | Local | Remote(source: Addr)

  /** A counter that is not in the map reads as zero. */
  function Count(c: map<Addr, int>, a: Addr): int { if a in c then c[a] else 0 }

  function Acquire(s: Slots, a: Addr): (Slots, Grant) {
    if IsLoopback(Unmap(a)) then
      if s.local < MAX_STARTUPS then (s.(local := s.local + 1), Local) else (s, Refused)
    else
      var src := Source(a);
      if Count(s.counters, src) >= MAX_SOURCE || s.startups >= MAX_STARTUPS then (s, Refused)
      else (s.(startups := s.startups + 1, counters := s.counters[src := Count(s.counters, src) + 1]), Remote(src))
  }

  function Uncount(s: Slots, src: Addr): Slots {
    var n := Count(s.counters, src) - 1;
    s.(counters := if n == 0 then s.counters - {src} else s.counters[src := n])
  }

  /** Where a peer stands. `Half` has given its slot back and waits for the lock on the counters. */
  datatype Peer = Accepted(addr: Addr) | Held(source: Addr) | Half(source: Addr) | HeldLocal | Free

  datatype State = State(conns: int, slots: Slots, peers: map<nat, Peer>)

  function Init(): State { State(0, Slots(0, 0, map[]), map[]) }

  datatype Act =
    | Accept(id: nat, addr: Addr, relayed: bool)
    | Begin(id: nat)
    | GiveSlot(id: nat)
    | GiveCount(id: nat)
    | GiveLocal(id: nat)
    | End(id: nat)

  predicate At(s: State, id: nat) { id in s.peers }

  /** Taking from a semaphore channel needs something in it. */
  predicate Can(s: State, a: Act) {
    match a
    case Accept(id, _, _) => id !in s.peers && s.conns < MAX_CONNS
    case Begin(id) => At(s, id) && s.peers[id].Accepted?
    case GiveSlot(id) => At(s, id) && s.peers[id].Held? && s.slots.startups > 0
    case GiveCount(id) => At(s, id) && s.peers[id].Half?
    case GiveLocal(id) => At(s, id) && s.peers[id].HeldLocal? && s.slots.local > 0
    case End(id) => At(s, id) && s.peers[id].Free? && s.conns > 0
  }

  function Do(s: State, a: Act): State
    requires Can(s, a)
  {
    match a
    case Accept(id, addr, relayed) =>
      s.(conns := s.conns + 1, peers := s.peers[id := if relayed then Free else Accepted(addr)])
    case Begin(id) =>
      var (slots, grant) := Acquire(s.slots, s.peers[id].addr);
      var peer := match grant case Refused => Free case Local => HeldLocal case Remote(src) => Held(src);
      s.(slots := slots, peers := s.peers[id := peer])
    case GiveSlot(id) =>
      s.(slots := s.slots.(startups := s.slots.startups - 1), peers := s.peers[id := Half(s.peers[id].source)])
    case GiveCount(id) => s.(slots := Uncount(s.slots, s.peers[id].source), peers := s.peers[id := Free])
    case GiveLocal(id) => s.(slots := s.slots.(local := s.slots.local - 1), peers := s.peers[id := Free])
    case End(id) => s.(conns := s.conns - 1, peers := s.peers - {id})
  }

  function Exec(s: State, run: seq<Act>): Option<State>
    decreases |run|
  {
    if run == [] then Some(s)
    else if Can(s, run[0]) then Exec(Do(s, run[0]), run[1..])
    else None
  }

  // Sums of counters.

  ghost function Sum(c: map<Addr, int>): int
    decreases |c|
  {
    if c == map[] then 0 else
      var k :| k in c;
      c[k] + Sum(c - {k})
  }

  lemma {:induction false} SumRemove(c: map<Addr, int>, k: Addr)
    requires k in c
    ensures Sum(c) == c[k] + Sum(c - {k})
    decreases |c|
  {
    var j :| j in c && Sum(c) == c[j] + Sum(c - {j});
    if j != k {
      SumRemove(c - {j}, k);
      SumRemove(c - {k}, j);
      assert (c - {j}) - {k} == (c - {k}) - {j};
    }
  }

  lemma SumSet(c: map<Addr, int>, k: Addr, v: int)
    ensures Sum(c[k := v]) == Sum(c) - Count(c, k) + v
  {
    SumRemove(c[k := v], k);
    assert c[k := v] - {k} == c - {k};
    if k in c { SumRemove(c, k); } else { assert c - {k} == c; }
  }

  // The invariant.

  function HeldIds(s: State): set<nat> { set id | id in s.peers && s.peers[id].Held? }
  function HalfIds(s: State): set<nat> { set id | id in s.peers && s.peers[id].Half? }
  function LocalIds(s: State): set<nat> { set id | id in s.peers && s.peers[id].HeldLocal? }

  /** The peers that count for a source. */
  function SourceIds(s: State, a: Addr): set<nat> {
    set id | id in s.peers && CountsFor(s.peers[id], a)
  }

  predicate CountsFor(p: Peer, a: Addr) { (p.Held? || p.Half?) && p.source == a }

  ghost predicate SlotsOk(s: State) {
    && s.conns == |s.peers| <= MAX_CONNS
    && s.slots.startups == |HeldIds(s)| <= MAX_STARTUPS
    && s.slots.local == |LocalIds(s)| <= MAX_STARTUPS
  }

  ghost predicate CountersOk(s: State) {
    && (forall a :: Count(s.slots.counters, a) == |SourceIds(s, a)|)
    && (forall a :: a in s.slots.counters ==> 0 < s.slots.counters[a] <= MAX_SOURCE)
  }

  ghost predicate SumOk(s: State) { Sum(s.slots.counters) == s.slots.startups + |HalfIds(s)| }

  ghost predicate Inv(s: State) { SlotsOk(s) && CountersOk(s) && SumOk(s) }

  function Bit(b: bool): int { if b then 1 else 0 }

  lemma SizeAfter(before: set<nat>, after: set<nat>, id: nat)
    requires before - {id} == after - {id}
    ensures |after| == |before| - Bit(id in before) + Bit(id in after)
  {
    assert id in before ==> before == (before - {id}) + {id};
    assert id in after ==> after == (after - {id}) + {id};
    assert id !in before ==> before == before - {id};
    assert id !in after ==> after == after - {id};
  }

  /** How the groups change when one peer moves on. */
  lemma GroupSizes(s: State, t: State, id: nat, p: Peer)
    requires id in s.peers && t.peers == s.peers[id := p]
    ensures |HeldIds(t)| == |HeldIds(s)| - Bit(s.peers[id].Held?) + Bit(p.Held?)
    ensures |HalfIds(t)| == |HalfIds(s)| - Bit(s.peers[id].Half?) + Bit(p.Half?)
    ensures |LocalIds(t)| == |LocalIds(s)| - Bit(s.peers[id].HeldLocal?) + Bit(p.HeldLocal?)
    ensures |t.peers| == |s.peers|
  {
    SizeAfter(HeldIds(s), HeldIds(t), id);
    SizeAfter(HalfIds(s), HalfIds(t), id);
    SizeAfter(LocalIds(s), LocalIds(t), id);
    assert t.peers.Keys == s.peers.Keys;
    assert |t.peers| == |t.peers.Keys| && |s.peers| == |s.peers.Keys|;
  }

  lemma SourceSize(s: State, t: State, id: nat, p: Peer, a: Addr)
    requires id in s.peers && t.peers == s.peers[id := p]
    ensures |SourceIds(t, a)| == |SourceIds(s, a)| - Bit(CountsFor(s.peers[id], a)) + Bit(CountsFor(p, a))
  {
    SizeAfter(SourceIds(s, a), SourceIds(t, a), id);
  }

  /** A peer that holds nothing comes or goes. */
  lemma SameGroups(s: State, t: State, id: nat)
    requires t.peers - {id} == s.peers - {id}
    requires id in s.peers ==> s.peers[id].Accepted? || s.peers[id].Free?
    requires id in t.peers ==> t.peers[id].Accepted? || t.peers[id].Free?
    requires t.slots == s.slots && CountersOk(s)
    ensures HeldIds(t) == HeldIds(s) && HalfIds(t) == HalfIds(s) && LocalIds(t) == LocalIds(s)
    ensures CountersOk(t)
  {
    assert forall x :: x != id ==> (x in t.peers <==> x in t.peers - {id}) && (x in s.peers <==> x in s.peers - {id});
    assert forall x :: x in s.peers && x != id ==> x in t.peers && t.peers[x] == (t.peers - {id})[x] == s.peers[x];
    assert forall x :: x in t.peers && x != id ==> x in s.peers;
    forall a ensures SourceIds(t, a) == SourceIds(s, a) { }
  }

  lemma AcceptKeepsInv(s: State, a: Act)
    requires Inv(s) && Can(s, a) && a.Accept?
    ensures Inv(Do(s, a))
  {
    var t := Do(s, a);
    assert t.peers - {a.id} == s.peers - {a.id};
    SameGroups(s, t, a.id);
    assert t.peers.Keys == s.peers.Keys + {a.id};
    assert |t.peers| == |t.peers.Keys| && |s.peers| == |s.peers.Keys|;
  }

  lemma EndKeepsInv(s: State, a: Act)
    requires Inv(s) && Can(s, a) && a.End?
    ensures Inv(Do(s, a))
  {
    var t := Do(s, a);
    assert t.peers - {a.id} == s.peers - {a.id};
    SameGroups(s, t, a.id);
    assert t.peers.Keys == s.peers.Keys - {a.id};
    assert |t.peers| == |t.peers.Keys| && |s.peers| == |s.peers.Keys|;
  }

  /** The counters of a step that adds `n` to the count of one source at most. */
  lemma CountersAfter(s: State, t: State, id: nat, src: Addr, n: int)
    requires CountersOk(s) && id in s.peers && id in t.peers && t.peers == s.peers[id := t.peers[id]]
    requires forall a :: Bit(CountsFor(t.peers[id], a)) - Bit(CountsFor(s.peers[id], a)) == if a == src then n else 0
    requires forall a :: Count(t.slots.counters, a) == Count(s.slots.counters, a) + if a == src then n else 0
    requires forall a :: a in t.slots.counters ==> 0 < t.slots.counters[a] <= MAX_SOURCE
    ensures CountersOk(t)
  {
    forall a ensures Count(t.slots.counters, a) == |SourceIds(t, a)| {
      SourceSize(s, t, id, t.peers[id], a);
      assert Count(s.slots.counters, a) == |SourceIds(s, a)|;
    }
  }

  lemma BeginKeepsInv(s: State, a: Act)
    requires Inv(s) && Can(s, a) && a.Begin?
    ensures Inv(Do(s, a))
  {
    var t := Do(s, a);
    var p := t.peers[a.id];
    GroupSizes(s, t, a.id, p);
    if p.Held? {
      SumSet(s.slots.counters, p.source, Count(s.slots.counters, p.source) + 1);
      CountersAfter(s, t, a.id, p.source, 1);
    } else {
      CountersAfter(s, t, a.id, Unknown, 0);
    }
  }

  lemma GiveSlotKeepsInv(s: State, a: Act)
    requires Inv(s) && Can(s, a) && a.GiveSlot?
    ensures Inv(Do(s, a))
  {
    var t := Do(s, a);
    GroupSizes(s, t, a.id, t.peers[a.id]);
    CountersAfter(s, t, a.id, Unknown, 0);
  }

  lemma GiveLocalKeepsInv(s: State, a: Act)
    requires Inv(s) && Can(s, a) && a.GiveLocal?
    ensures Inv(Do(s, a))
  {
    var t := Do(s, a);
    GroupSizes(s, t, a.id, Free);
    CountersAfter(s, t, a.id, Unknown, 0);
  }

  lemma GiveCountKeepsInv(s: State, a: Act)
    requires Inv(s) && Can(s, a) && a.GiveCount?
    ensures Inv(Do(s, a))
  {
    var t := Do(s, a);
    var src := s.peers[a.id].source;
    var c := s.slots.counters;
    GroupSizes(s, t, a.id, Free);
    assert Count(c, src) == |SourceIds(s, src)| >= 1 by { assert a.id in SourceIds(s, src); }
    SumRemove(c, src);
    SumSet(c, src, Count(c, src) - 1);
    CountersAfter(s, t, a.id, src, -1);
  }

  lemma StepKeepsInv(s: State, a: Act)
    requires Inv(s) && Can(s, a)
    ensures Inv(Do(s, a))
  {
    match a
    case Accept(_, _, _) => AcceptKeepsInv(s, a);
    case Begin(_) => BeginKeepsInv(s, a);
    case GiveSlot(_) => GiveSlotKeepsInv(s, a);
    case GiveCount(_) => GiveCountKeepsInv(s, a);
    case GiveLocal(_) => GiveLocalKeepsInv(s, a);
    case End(_) => EndKeepsInv(s, a);
  }

  lemma {:induction false} RunKeepsInv(s: State, run: seq<Act>)
    requires Inv(s) && Exec(s, run).Some?
    ensures Inv(Exec(s, run).value)
    decreases |run|
  {
    if run != [] {
      StepKeepsInv(s, run[0]);
      RunKeepsInv(Do(s, run[0]), run[1..]);
    }
  }

  lemma InitInv()
    ensures Inv(Init())
  {
    var s := Init();
    assert HeldIds(s) == {} && HalfIds(s) == {} && LocalIds(s) == {};
    forall a ensures SourceIds(s, a) == {} { }
  }

  /**
   * In every interleaving the counters add up to the occupied slots and the releases between their two steps, no
   * limit is exceeded, and no counter stays behind at zero or below.
   */
  lemma SlotsAreConserved(run: seq<Act>)
    requires Exec(Init(), run).Some?
    ensures var s := Exec(Init(), run).value;
            && Sum(s.slots.counters) == s.slots.startups + |HalfIds(s)|
            && s.slots.startups == |HeldIds(s)| <= 10
            && s.slots.local == |LocalIds(s)| <= 10
            && s.conns == |s.peers| <= 100
            && (forall id, addr, relayed :: id !in s.peers ==> (Can(s, Accept(id, addr, relayed)) <==> s.conns < 100))
            && forall a :: a in s.slots.counters ==> 0 < s.slots.counters[a] == |SourceIds(s, a)| <= 3
  {
    InitInv();
    RunKeepsInv(Init(), run);
    var s := Exec(Init(), run).value;
    forall a | a in s.slots.counters ensures s.slots.counters[a] == |SourceIds(s, a)| <= MAX_SOURCE {
      assert Count(s.slots.counters, a) == |SourceIds(s, a)|;
    }
  }

  /** A peer that holds something can always give it back: no release blocks and no counter goes below zero. */
  lemma ReleaseNeverBlocks(run: seq<Act>, id: nat)
    requires Exec(Init(), run).Some?
    ensures var s := Exec(Init(), run).value;
            id in s.peers ==>
              match s.peers[id]
              case Held(_) => Can(s, GiveSlot(id))
              case Half(src) => Can(s, GiveCount(id)) && Count(s.slots.counters, src) >= 1
              case HeldLocal => Can(s, GiveLocal(id))
              case Free => Can(s, End(id))
              case Accepted(_) => Can(s, Begin(id))
  {
    InitInv();
    RunKeepsInv(Init(), run);
    var s := Exec(Init(), run).value;
    if id in s.peers {
      assert s.peers[id].Held? ==> id in HeldIds(s);
      assert s.peers[id].HeldLocal? ==> id in LocalIds(s);
      assert s.peers[id].Half? ==> id in SourceIds(s, s.peers[id].source);
      assert |s.peers| == |s.peers.Keys| > 0;
    }
  }

  /**
   * In every reachable state a peer that begins gets its slots exactly if there are any: from loopback one of ten,
   * otherwise one of ten others and one of three for its source. Nobody else's slots change.
   */
  lemma BeginTakesFreeSlots(run: seq<Act>, id: nat)
    requires Exec(Init(), run).Some? && id in Exec(Init(), run).value.peers
    requires Exec(Init(), run).value.peers[id].Accepted?
    ensures var s := Exec(Init(), run).value;
            var a := s.peers[id].addr;
            var t := Do(s, Begin(id));
            && t.peers == s.peers[id := t.peers[id]]
            && t.peers[id] ==
               if OnLoopback(a) then (if |LocalIds(s)| < 10 then HeldLocal else Free)
               else (if |SourceIds(s, Source(a))| < 3 && |HeldIds(s)| < 10 then Held(Source(a)) else Free)
  {
    InitInv();
    RunKeepsInv(Init(), run);
    var s := Exec(Init(), run).value;
    var a := s.peers[id].addr;
    LoopbackAddresses(a);
    assert Count(s.slots.counters, Source(a)) == |SourceIds(s, Source(a))|;
  }

  /** A relayed connection counts among the connections and takes no slot. */
  lemma RelayedTakesNone(s: State, id: nat, addr: Addr)
    requires Can(s, Accept(id, addr, true))
    ensures var t := Do(s, Accept(id, addr, true)); t.slots == s.slots && t.peers == s.peers[id := Free]
    ensures Do(s, Accept(id, addr, false)).peers == s.peers[id := Accepted(addr)]
  {
  }

  /** The semaphores and the counters. */
  class StartupSlots {
    var startups: int
    var localStartups: int
    var sourceStartups: map<Addr, int>

    ghost function View(): Slots
      reads this
    {
      Slots(startups, localStartups, sourceStartups)
    }

    method AcquireStartup(addr: Addr) returns (grant: Grant)
      modifies this
      ensures (View(), grant) == Acquire(old(View()), addr)
      ensures OnLoopback(addr) ==> grant == if old(localStartups) < 10 then Local else Refused
      ensures !OnLoopback(addr) ==>
                grant == if Count(old(sourceStartups), Source(addr)) < 3 && old(startups) < 10 then Remote(Source(addr))
                         else Refused
    {
      LoopbackAddresses(addr);
      var source := Unmap(addr);
      if IsLoopback(source) {
        if localStartups >= MAX_STARTUPS { return Refused; }
        localStartups := localStartups + 1;
        return Local;
      }
      if source.V6? { source := V6(source.net, 0); }
      var held := if source in sourceStartups then sourceStartups[source] else 0;
      if held >= MAX_SOURCE || startups >= MAX_STARTUPS { return Refused; }
      startups := startups + 1;
      sourceStartups := sourceStartups[source := held + 1];
      return Remote(source);
    }

    /** The second half of a release, under the lock. */
    method Uncounted(source: Addr)
      modifies this`sourceStartups
      ensures View() == Uncount(old(View()), source)
    {
      var held := if source in sourceStartups then sourceStartups[source] else 0;
      sourceStartups := sourceStartups[source := held - 1];
      if sourceStartups[source] == 0 { sourceStartups := sourceStartups - {source}; }
    }
  }
}
