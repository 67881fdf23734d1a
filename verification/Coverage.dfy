/**
 * What a scan of the recordings directory gets done. Whatever happens at the same time, it leaves out no file of its
 * snapshot: the retry loop ends well only after it has looked at each, and the limits are applied only then.
 */
module Coverage {
  import opened Prelude
  import opened Records
  import P = Pending
  import R = Retention

  /** What the scan has not looked at yet. */
  function Todo(scan: Scan): set<Path> { if scan.Drain? then {} else scan.todo }

  /** The recordings the limits keep count of. */
  function Counted(scan: Scan): multiset<R.Entry> {
    match scan
    case Retry(_, _) => multiset{}
    case Limits(_, _, _, _, kept, _) => multiset(kept)
    case Drain(_, _, gone, rest) => multiset(gone + rest)
  }

  predicate Looks(a: Act, id: nat, p: Path) { (a.LookPending? || a.LookLimits?) && a.id == id && a.p == p }

  /** A step of the run looks at this path on behalf of the scan. */
  ghost predicate Looked(run: seq<Act>, id: nat, p: Path) { exists i :: 0 <= i < |run| && Looks(run[i], id, p) }

  /** One step of anybody, as one scan sees it. */
  lemma ScanAfter(s: State, a: Act, id: nat)
    requires Can(s, a) && id in s.scans && a != EndScan(id)
    ensures id in Do(s, a).scans
    ensures ScanOf(a) != Some(id) ==> Do(s, a).scans[id] == s.scans[id]
    ensures ScanOf(a) == Some(id) ==> AfterScan(s, a) == Some(Do(s, a).scans[id])
  {
  }

  lemma OwnStepTodo(s: State, a: Act, id: nat)
    requires Can(s, a) && id in s.scans && a != EndScan(id) && ScanOf(a) == Some(id)
    ensures forall p :: p in Todo(s.scans[id]) ==> p in Todo(AfterScan(s, a).value) || Looks(a, id, p)
    ensures s.scans[id].Retry? <==> AfterScan(s, a).value.Retry?
  {
  }

  lemma CountedMoves(gone: seq<R.Entry>, rest: seq<R.Entry>)
    requires rest != []
    ensures gone + [rest[0]] + rest[1..] == gone + rest
  {
  }

  lemma OwnStepCounts(s: State, a: Act, id: nat)
    requires Can(s, a) && id in s.scans && a != EndScan(id) && ScanOf(a) == Some(id)
    ensures Counted(s.scans[id]) <= Counted(AfterScan(s, a).value)
  {
    if a.DropNext? {
      CountedMoves(s.scans[id].gone, s.scans[id].rest);
    } else if a.Sort? {
      assert [] + a.sorted == a.sorted;
    }
  }

  lemma OwnStepHolds(s: State, a: Act, id: nat)
    requires Can(s, a) && id in s.scans && a != EndScan(id) && ScanOf(a) == Some(id)
    ensures var scan, next := s.scans[id], AfterScan(s, a).value;
            && (scan.Retry? && scan.current.Some? ==>
                  || (next.Retry? && next.current.Some? && next.current.value.path == scan.current.value.path)
                  || a.RemoveUploaded?)
            && (scan.Limits? && scan.drop.Some? ==> (next.Limits? && next.drop == scan.drop) || a.DropExpired?)
  {
  }

  /** A step of the scan itself: it leaves out nothing it has to do and forgets nothing it counts. */
  lemma OwnStep(s: State, a: Act, id: nat)
    requires Can(s, a) && id in s.scans && a != EndScan(id) && ScanOf(a) == Some(id)
    ensures var scan, next := s.scans[id], AfterScan(s, a).value;
            && (forall p :: p in Todo(scan) ==> p in Todo(next) || Looks(a, id, p))
            && Counted(scan) <= Counted(next)
            && (scan.Retry? <==> next.Retry?)
            && (scan.Retry? && scan.current.Some? ==>
                  || (next.current.Some? && next.current.value.path == scan.current.value.path)
                  || a.RemoveUploaded?)
            && (scan.Limits? && scan.drop.Some? ==> (next.Limits? && next.drop == scan.drop) || a.DropExpired?)
  {
    OwnStepTodo(s, a, id);
    OwnStepCounts(s, a, id);
    OwnStepHolds(s, a, id);
  }

  lemma LookedStep(run: seq<Act>, id: nat, p: Path)
    requires run != []
    ensures Looked(run, id, p) <== Looks(run[0], id, p) || Looked(run[1..], id, p)
  {
    if Looked(run[1..], id, p) {
      var i :| 0 <= i < |run[1..]| && Looks(run[1..][i], id, p);
      assert Looks(run[i + 1], id, p);
    }
  }

  lemma {:induction false} ScanLooks(s: State, run: seq<Act>, id: nat, p: Path)
    requires id in s.scans && p in Todo(s.scans[id]) && Exec(s, run).Some? && EndScan(id) !in run
    ensures var t := Exec(s, run).value; id in t.scans && (p in Todo(t.scans[id]) || Looked(run, id, p))
    decreases |run|
  {
    if run != [] {
      var a, next := run[0], Do(s, run[0]);
      assert a in run;
      ScanAfter(s, a, id);
      if ScanOf(a) == Some(id) { OwnStep(s, a, id); }
      LookedStep(run, id, p);
      if p in Todo(next.scans[id]) {
        ScanLooks(next, run[1..], id, p);
      } else {
        ScanStays(next, run[1..], id);
      }
    }
  }

  lemma {:induction false} ScanStays(s: State, run: seq<Act>, id: nat)
    requires id in s.scans && Exec(s, run).Some? && EndScan(id) !in run
    ensures var t := Exec(s, run).value;
            && id in t.scans && Counted(s.scans[id]) <= Counted(t.scans[id])
            && (s.scans[id].Retry? <==> t.scans[id].Retry?)
    decreases |run|
  {
    if run != [] {
      var a := run[0];
      assert a in run;
      ScanAfter(s, a, id);
      if ScanOf(a) == Some(id) { OwnStep(s, a, id); }
      ScanStays(Do(s, a), run[1..], id);
    }
  }

  predicate IsRecording(p: Path) { |p| >= 8 && p[|p| - 8..] == ".cast.gz" }

  /**
   * The retry loop stops early only at a file whose upload failed. Otherwise it is at the end when it has looked at
   * every recording that was there when it listed the directory.
   */
  lemma RetryCoversAll(s: State, id: nat, run: seq<Act>)
    requires Can(s, ListPending(id)) && Exec(Do(s, ListPending(id)), run).Some? && EndScan(id) !in run
    ensures var t := Exec(Do(s, ListPending(id)), run).value;
            && IsRetry(t, id)
            && (t.scans[id].current.None? && Can(t, EndScan(id)) ==>
                  forall p :: p in s.files && IsRecording(p) ==> Looked(run, id, p))
            && (t.scans[id].current.Some? && Can(t, EndScan(id)) ==>
                  t.scans[id].current.value.up.stage == P.Answered(P.Failed))
  {
    var s1 := Do(s, ListPending(id));
    ScanStays(s1, run, id);
    var t := Exec(s1, run).value;
    forall p | p in s.files && IsRecording(p)
      ensures p in Todo(t.scans[id]) || Looked(run, id, p)
    {
      ScanLooks(s1, run, id, p);
    }
    if t.scans[id].current.Some? && Can(t, EndScan(id)) { StopsAtFailure(t, id); }
  }

  lemma StopsAtFailure(t: State, id: nat)
    requires IsRetry(t, id) && t.scans[id].current.Some? && Can(t, EndScan(id))
    ensures t.scans[id].current.value.up.stage == P.Answered(P.Failed)
  {
    var up := t.scans[id].current.value.up;
    assert up.stage.Answered? && !P.Settled(up.stage.answer);
    assert up.stage.answer == P.Failed;
  }

  /** The limits on the total size are applied when every recording that was listed has been looked at. */
  lemma LimitsCoverAll(s: State, id: nat, owner: Path, now: int, run: seq<Act>)
    requires Can(s, ListLimits(id, owner, now)) && EndScan(id) !in run
    requires Exec(Do(s, ListLimits(id, owner, now)), run).Some?
    ensures var t := Exec(Do(s, ListLimits(id, owner, now)), run).value;
            id in t.scans && (t.scans[id].Drain? ==> forall p :: p in s.files && IsRecording(p) ==> Looked(run, id, p))
  {
    var s1 := Do(s, ListLimits(id, owner, now));
    ScanStays(s1, run, id);
    var t := Exec(s1, run).value;
    forall p | p in s.files && IsRecording(p)
      ensures p in Todo(t.scans[id]) || Looked(run, id, p)
    {
      ScanLooks(s1, run, id, p);
    }
  }

  /** What the retry loop looked at and found inactive stays its business until it is delivered or refused. */
  lemma {:induction false} TryIsSettled(s: State, run: seq<Act>, id: nat)
    requires IsRetry(s, id) && s.scans[id].current.Some? && Exec(s, run).Some? && EndScan(id) !in run
    ensures var t := Exec(s, run).value;
            && IsRetry(t, id)
            && ((t.scans[id].current.Some? && t.scans[id].current.value.path == s.scans[id].current.value.path)
                || exists ok :: RemoveUploaded(id, ok) in run)
    decreases |run|
  {
    if run != [] {
      var a := run[0];
      assert a in run;
      ScanAfter(s, a, id);
      if ScanOf(a) == Some(id) { OwnStep(s, a, id); }
      if a.RemoveUploaded? && a.id == id {
        ScanStays(s, run, id);
        assert RemoveUploaded(id, a.ok) in run;
      } else {
        TryIsSettled(Do(s, a), run[1..], id);
      }
    }
  }

  /**
   * A recording that is young when it is looked at counts against the limit to the end, with the size and time it had
   * then. One that is more than thirty days old is dropped before the limits on the total are applied.
   */
  lemma LookCounts(s: State, id: nat, p: Path, modTime: int, run: seq<Act>)
    requires Can(s, LookLimits(id, p, true, modTime)) && IsRecording(p) && !Active(s, p)
    requires Exec(Do(s, LookLimits(id, p, true, modTime)), run).Some? && EndScan(id) !in run
    ensures var t := Exec(Do(s, LookLimits(id, p, true, modTime)), run).value;
            && id in t.scans
            && if s.scans[id].now - modTime <= 30 * 24 * 3600 * 1_000_000_000
               then R.Entry(p, false, true, |Content(s, p)|, modTime) in Counted(t.scans[id])
               else t.scans[id].Drain? ==> exists ok :: DropExpired(id, ok) in run
  {
    var s1 := Do(s, LookLimits(id, p, true, modTime));
    LookExactly(s, id, p, true, modTime);
    ScanStays(s1, run, id);
    if s.scans[id].now - modTime > 30 * 24 * 3600 * 1_000_000_000 {
      AgedIsDropped(s1, run, id);
    } else {
      assert R.Entry(p, false, true, |Content(s, p)|, modTime) in Counted(s1.scans[id]);
    }
  }

  lemma {:induction false} AgedIsDropped(s: State, run: seq<Act>, id: nat)
    requires IsLimits(s, id) && s.scans[id].drop.Some? && Exec(s, run).Some? && EndScan(id) !in run
    ensures var t := Exec(s, run).value;
            id in t.scans && (t.scans[id].Drain? ==> exists ok :: DropExpired(id, ok) in run)
    decreases |run|
  {
    if run != [] {
      var a := run[0];
      assert a in run;
      ScanAfter(s, a, id);
      if ScanOf(a) == Some(id) { OwnStep(s, a, id); }
      if a.DropExpired? && a.id == id {
        ScanStays(s, run, id);
        assert DropExpired(id, a.ok) in run;
      } else {
        AgedIsDropped(Do(s, a), run[1..], id);
      }
    }
  }
}
