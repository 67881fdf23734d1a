/**
 * A sync that brings a new CA wakes the certificate watcher through a channel that holds one token. The send does
 * not block, so a token that is already there stands for several changes. A pass renews for the CA it read when it
 * began. It reads the CA once more for the delay until the next one, which may end at any time here.
 */
module Watcher {
  import opened Prelude

  type CA = string

  /** Where syncDaemon stands: it read the previous CA, it replaced the cache, it is done. */
  datatype Sync = Idle | Read(previous: CA) | Replaced(previous: CA, next: CA)

  /** Where the watcher stands. `Pass` and `Waiting` remember the CA the pass read at its beginning. */
  datatype Watch = Starting | Pass(seen: CA) | Waiting(seen: CA)

  datatype State = State(ca: CA, token: bool, sync: Sync, watch: Watch)

  predicate Init(s: State) { !s.token && s.sync.Idle? && s.watch.Starting? }

  datatype Act = ReadCA | Replace(next: CA) | Send | BeginPass | Wait | WakeByToken | WakeByTimer

  predicate Can(s: State, a: Act) {
    match a
    case ReadCA => s.sync.Idle?
    case Replace(_) => s.sync.Read?
    case Send => s.sync.Replaced?
    case BeginPass => s.watch.Starting?
    case Wait => s.watch.Pass?
    case WakeByToken => s.watch.Waiting? && s.token
    case WakeByTimer => s.watch.Waiting?
  }

  function Do(s: State, a: Act): State
    requires Can(s, a)
  {
    match a
    case ReadCA => s.(sync := Read(s.ca))
    case Replace(next) => s.(sync := Replaced(s.sync.previous, next), ca := next)
    case Send => s.(sync := Idle, token := s.token || s.sync.next != s.sync.previous)
    case BeginPass => s.(watch := Pass(s.ca))
    case Wait => s.(watch := Waiting(s.watch.seen))
    case WakeByToken => s.(watch := Starting, token := false)
    case WakeByTimer => s.(watch := Starting)
  }

  function Exec(s: State, run: seq<Act>): Option<State>
    decreases |run|
  {
    if run == [] then Some(s)
    else if Can(s, run[0]) then Exec(Do(s, run[0]), run[1..])
    else None
  }

  /** A wakeup is on its way. */
  predicate Coming(s: State) { s.token || (s.sync.Replaced? && s.sync.next != s.sync.previous) }

  ghost predicate Inv(s: State) {
    && (s.sync.Read? ==> s.sync.previous == s.ca)
    && (s.sync.Replaced? ==> s.sync.next == s.ca)
    && (!s.watch.Starting? && s.watch.seen != s.ca ==> Coming(s))
  }

  lemma {:induction false} RunKeepsInv(s: State, run: seq<Act>)
    requires Inv(s) && Exec(s, run).Some?
    ensures Inv(Exec(s, run).value)
    decreases |run|
  {
    if run != [] { RunKeepsInv(Do(s, run[0]), run[1..]); }
  }

  /**
   * No wakeup is lost: whenever the watcher waits and its last pass read another CA than the one in force, the
   * channel holds a token or a sync is about to send one. Between syncs the watcher can go on at once.
   */
  lemma NoLostWakeup(s0: State, run: seq<Act>)
    requires Init(s0) && Exec(s0, run).Some?
    ensures var s := Exec(s0, run).value;
            s.watch.Waiting? && s.watch.seen != s.ca ==>
              && (s.token || s.sync.Replaced?)
              && (s.sync.Idle? ==> Can(s, WakeByToken))
              && (s.sync.Replaced? ==> Can(Do(s, Send), WakeByToken))
    ensures var s := Exec(s0, run).value;
            match s.watch
            case Starting => Can(s, BeginPass)
            case Pass(_) => Can(s, Wait)
            case Waiting(_) => Can(s, WakeByTimer)
  {
    RunKeepsInv(s0, run);
  }

  /** How many syncs of the run brought another CA than the one in force. */
  function Changes(s: State, run: seq<Act>): nat
    requires Exec(s, run).Some?
    decreases |run|
  {
    if run == [] then 0
    else (if run[0].Replace? && run[0].next != s.ca then 1 else 0) + Changes(Do(s, run[0]), run[1..])
  }

  /** How often the run was woken by a token. */
  function Wakeups(run: seq<Act>): nat {
    if run == [] then 0 else (if run[0].WakeByToken? then 1 else 0) + Wakeups(run[1..])
  }

  /** The wakeups that are still to come. */
  function Due(s: State): nat {
    (if s.token then 1 else 0) + (if s.sync.Replaced? && s.sync.next != s.sync.previous then 1 else 0)
  }

  lemma {:induction false} WakeupsFrom(s: State, run: seq<Act>)
    requires Inv(s) && Exec(s, run).Some?
    ensures Wakeups(run) + Due(Exec(s, run).value) <= Due(s) + Changes(s, run)
    decreases |run|
  {
    if run != [] { WakeupsFrom(Do(s, run[0]), run[1..]); }
  }

  /** And none is made up: the watcher is woken by a token at most once for every change of the CA. */
  lemma NoSpuriousWakeup(s0: State, run: seq<Act>)
    requires Init(s0) && Exec(s0, run).Some?
    ensures Wakeups(run) <= Changes(s0, run)
  {
    WakeupsFrom(s0, run);
  }

  /** The certificate file follows: a pass that begins after the last change sees the CA in force. */
  lemma {:induction false} PassSeesLatest(s: State, run: seq<Act>)
    requires s.watch.Starting? && s.sync.Idle? && Exec(s, run).Some?
    requires forall i :: 0 <= i < |run| ==> !run[i].Replace?
    ensures var t := Exec(s, run).value; t.ca == s.ca && (!t.watch.Starting? ==> t.watch.seen == t.ca)
  {
    PassKeepsLatest(s, run);
  }

  lemma {:induction false} PassKeepsLatest(s: State, run: seq<Act>)
    requires (!s.watch.Starting? ==> s.watch.seen == s.ca) && Exec(s, run).Some?
    requires forall i :: 0 <= i < |run| ==> !run[i].Replace?
    ensures var t := Exec(s, run).value; t.ca == s.ca && (!t.watch.Starting? ==> t.watch.seen == t.ca)
    decreases |run|
  {
    if run != [] { PassKeepsLatest(Do(s, run[0]), run[1..]); }
  }

  /** The cached CA and the channel, and a whole sync as the run of its three steps. */
  class Client {
    var ca: CA
    var renew: bool

    ghost function View(watch: Watch): State
      reads this
    {
      State(ca, renew, Idle, watch)
    }

    method SyncCA(next: CA)
      modifies this
      ensures ca == next && renew == (old(renew) || next != old(ca))
      ensures forall watch :: Exec(old(View(watch)), [ReadCA, Replace(next), Send]) == Some(View(watch))
    {
      ghost var ca0, renew0 := ca, renew;
      var previous := ca;
      ca := next;
      if next != previous { renew := true; }
      forall watch ensures Exec(State(ca0, renew0, Idle, watch), [ReadCA, Replace(next), Send]) == Some(View(watch)) {
        ThreeSteps(State(ca0, renew0, Idle, watch), next);
      }
    }
  }

  lemma ThreeSteps(s: State, next: CA)
    requires s.sync.Idle?
    ensures Exec(s, [ReadCA, Replace(next), Send]) == Some(s.(ca := next, token := s.token || next != s.ca))
  {
    var run := [ReadCA, Replace(next), Send];
    var s1 := Do(s, ReadCA);
    var s2 := Do(s1, Replace(next));
    assert run[1..] == [Replace(next), Send] && run[1..][1..] == [Send] && [Send][1..] == [];
    assert Exec(s2, [Send]) == Some(Do(s2, Send));
    assert Exec(s1, run[1..]) == Exec(s2, [Send]);
  }
}
