/**
 * Active recordings. Between the creation of a recording and its mark as active New leaves a window in which a scan
 * takes it for a file at rest.
 */
module Window {
  import opened Prelude
  import opened Records
  import D = Delivery
  import P = Pending
  import R = Retention

  /** What the scan looked up between its creation and its mark, and may still remove. */
  function EarlyPaths(scan: Scan): set<Path> {
    match scan
    case Retry(_, current) => if current.Some? && current.value.early then {current.value.path} else {}
    case Limits(_, _, _, early, _, _) => early
    case Drain(_, early, _, _) => early
  }

  predicate Early(scan: Scan, p: Path) { p in EarlyPaths(scan) }

  /** The step is not an early look, or it is New's own. */
  predicate QuietStep(s: State, a: Act) {
    && Can(s, a)
    && (a.LookPending? ==> !Opening(s, a.p))
    && (a.LookLimits? && Opening(s, a.p) ==> s.scans[a.id].owner == a.p)
  }

  /** No scan of this run but New's own looks a path up between its creation and its mark. */
  predicate Quiet(s: State, run: seq<Act>)
    decreases |run|
  {
    run == [] || (QuietStep(s, run[0]) && Quiet(Do(s, run[0]), run[1..]))
  }

  /** The only early looks are those of a scan that must end before the mark. */
  predicate OwnEarly(s: State, scan: Scan) {
    if scan.Retry? then EarlyPaths(scan) == {}
    else EarlyPaths(scan) <= {scan.owner} && (EarlyPaths(scan) != {} ==> Opening(s, scan.owner))
  }

  predicate OnlyOwnEarly(s: State) { forall id :: id in s.scans ==> OwnEarly(s, s.scans[id]) }

  ghost predicate ActiveSafe(removed: seq<Removal>) {
    forall r :: r in removed && r.wasActive ==> r.cause.Confirmed?
  }

  /** The scan after its own step, still seen from the state before it. */
  lemma ScanStepEarly(s: State, a: Act)
    requires OnlyOwnEarly(s) && QuietStep(s, a) && ScanOf(a).Some? && AfterScan(s, a).Some?
    ensures OwnEarly(s, AfterScan(s, a).value)
    ensures var next := AfterScan(s, a).value;
            EarlyPaths(next) != {} ==>
              ScanOf(a).value in s.scans && !s.scans[ScanOf(a).value].Retry?
              && s.scans[ScanOf(a).value].owner == next.owner
  {
    if ScanOf(a).value in s.scans { assert OwnEarly(s, s.scans[ScanOf(a).value]); }
  }

  lemma QuietEarly(s: State, a: Act)
    requires OnlyOwnEarly(s) && QuietStep(s, a)
    ensures OnlyOwnEarly(Do(s, a))
  {
    if ScanOf(a).Some? && AfterScan(s, a).Some? { ScanStepEarly(s, a); }
    forall id | id in NextScans(s, a) ensures OwnEarly(Do(s, a), NextScans(s, a)[id]) {
      var next := NextScans(s, a)[id];
      assert OwnEarly(s, next);
      if EarlyPaths(next) != {} {
        assert id in s.scans && !s.scans[id].Retry? && s.scans[id].owner == next.owner;
        OwnScanKeeps(s, a, next.owner);
      }
    }
  }

  /** New's recording stays where it is while New enforces the limits. */
  lemma OwnScanKeeps(s: State, a: Act, p: Path)
    requires Can(s, a) && OwnScan(s, p) && Opening(s, p)
    ensures Opening(Do(s, a), p)
  {
    if a.Live? && a.p == p { assert a.a.Sender?; }
  }

  /** What the scan that removes a file knew of it. */
  lemma RemovedEarly(s: State, a: Act)
    requires Can(s, a) && Removed(s, a).Some?
    ensures var r := Removed(s, a).value;
            && r.wasActive == Active(s, r.path)
            && (r.early ==> ScanOf(a).Some? && ScanOf(a).value in s.scans && Early(s.scans[ScanOf(a).value], r.path))
  {
  }

  lemma QuietSafe(s: State, a: Act)
    requires Inv(s) && OnlyOwnEarly(s) && ActiveSafe(s.removed) && Can(s, a)
    ensures ActiveSafe(Do(s, a).removed)
  {
    if Removed(s, a).Some? {
      var r := Removed(s, a).value;
      StepGrows(s, a);
      RemovedJustified(s, a);
      RemovedEarly(s, a);
      EarlyIsNotActive(s, r.path);
      ActiveSafeMore(s.removed, r);
    }
  }

  lemma EarlyIsNotActive(s: State, p: Path)
    requires Inv(s) && OnlyOwnEarly(s)
    ensures forall id :: id in s.scans && Early(s.scans[id], p) ==> !Active(s, p)
  {
    forall id | id in s.scans && Early(s.scans[id], p) ensures !Active(s, p) {
      assert OwnEarly(s, s.scans[id]);
      assert Opening(s, p) && D.Inv(s.recs[p]);
    }
  }

  lemma ActiveSafeMore(removed: seq<Removal>, r: Removal)
    requires ActiveSafe(removed) && (r.wasActive ==> r.cause.Confirmed?)
    ensures ActiveSafe(removed + [r])
  {
    assert forall x :: x in removed + [r] <==> x in removed || x == r;
  }

  lemma {:induction false} QuietRun(s: State, run: seq<Act>)
    requires Inv(s) && OnlyOwnEarly(s) && ActiveSafe(s.removed) && Quiet(s, run)
    ensures Exec(s, run).Some? && ActiveSafe(Exec(s, run).value.removed)
    decreases |run|
  {
    if run != [] {
      StepKeepsInv(s, run[0]);
      QuietEarly(s, run[0]);
      QuietSafe(s, run[0]);
      QuietRun(Do(s, run[0]), run[1..]);
    }
  }

  /** While a path is active only its own confirmed upload removes it, if no other scan looks into New's window. */
  lemma ActiveRecordingsSurvive(left: map<Path, Data>, run: seq<Act>)
    requires Quiet(Init(left), run)
    ensures Exec(Init(left), run).Some?
    ensures forall r :: r in Exec(Init(left), run).value.removed && r.wasActive ==> r.cause.Confirmed?
  {
    QuietRun(Init(left), run);
  }

  /** The file a scan removes next. */
  function Next(scan: Scan): Option<Path> {
    match scan
    case Retry(_, current) =>
      if current.Some? && current.value.up.stage.Answered? && P.Settled(current.value.up.stage.answer)
      then Some(current.value.path) else None
    case Limits(_, _, _, _, _, drop) => if drop.Some? then Some(drop.value.name) else None
    case Drain(_, _, _, rest) =>
      if rest != [] && R.Total(rest) > R.MAX_TOTAL then Some(rest[0].name) else None
  }

  function RemovalOf(scan: Scan, id: nat): Act {
    match scan
    case Retry(_, _) => RemoveUploaded(id, true)
    case Limits(_, _, _, _, _, _) => DropExpired(id, true)
    case Drain(_, _, _, _) => DropNext(id, true)
  }

  /** A step of this scan takes the file away. */
  predicate Takes(s: State, a: Act, id: nat, p: Path) {
    ScanOf(a) == Some(id) && Can(s, a) && Removed(s, a).Some? && Removed(s, a).value.path == p
  }

  /** A scan takes away what it has next, and nothing else. */
  lemma TakesNext(s: State, id: nat, p: Path)
    ensures forall a :: Takes(s, a, id, p) ==> p in s.files && id in s.scans && Next(s.scans[id]) == Some(p)
    ensures p in s.files && Used(s, p) && id in s.scans && Next(s.scans[id]) == Some(p) ==>
              Takes(s, RemovalOf(s.scans[id], id), id, p)
  {
  }

  /**
   * In general, whatever has happened, a scan can remove an active recording exactly when it has it next and had
   * looked it up in the window.
   */
  lemma OnlyTheWindowIsUnsafe(left: map<Path, Data>, run: seq<Act>, id: nat, p: Path)
    requires Exec(Init(left), run).Some?
    ensures var s := Exec(Init(left), run).value;
            Active(s, p) ==>
              ((exists a :: Takes(s, a, id, p))
               <==> p in s.files && id in s.scans && Next(s.scans[id]) == Some(p) && Early(s.scans[id], p))
  {
    RunKeepsInv(Init(left), run);
    var s := Exec(Init(left), run).value;
    TakesNext(s, id, p);
    if Active(s, p) && id in s.scans && Next(s.scans[id]) == Some(p) { NextIsEarly(s, id, p); }
  }

  lemma NextIsEarly(s: State, id: nat, p: Path)
    requires Inv(s) && Active(s, p) && id in s.scans && Next(s.scans[id]) == Some(p)
    ensures Early(s.scans[id], p)
  {
    var scan := s.scans[id];
    assert ScanOk(s, scan);
    match scan
    case Retry(_, current) => assert TryOk(s, current.value);
    case Limits(_, _, _, early, _, drop) => assert EntryOk(s, drop.value, early);
    case Drain(_, early, _, rest) => assert EntryOk(s, rest[0], early);
  }

  lemma Exec1(s: State, a: Act)
    requires Can(s, a)
    ensures Exec(s, [a]) == Some(Do(s, a))
  {
    assert [a][1..] == [];
  }

  lemma Exec2(s: State, a: Act, b: Act)
    requires Can(s, a) && Can(Do(s, a), b)
    ensures Exec(s, [a, b]) == Some(Do(Do(s, a), b))
  {
    assert [a, b][1..] == [b];
    Exec1(Do(s, a), b);
  }

  /** A refusal that may come at this stage. */
  function Refusal(stage: P.Stage): P.Step {
    match stage
    case Header => P.ReadHeader(false)
    case Opening => P.OpenFails(P.InvalidArgument)
    case Sending => P.Break(P.InvalidArgument)
    case _ => P.Finish(P.InvalidArgument)
  }

  /**
   * Every early look of the retry loop stays dangerous until its upload has failed: whatever became of the
   * recording, its next two steps may take the file away. After a failed upload none of its steps does.
   */
  lemma EarlyLookMayRemove(s: State, id: nat) returns (more: seq<Act>)
    requires Trying(s, id) && s.scans[id].current.value.path in s.files
    ensures var t := s.scans[id].current.value;
            if t.up.stage == P.Answered(P.Failed) then forall a :: !Takes(s, a, id, t.path)
            else && Exec(s, more).Some?
                 && t.path !in Exec(s, more).value.files
                 && Exec(s, more).value.recs == s.recs
  {
    var t := s.scans[id].current.value;
    more := [];
    if t.up.stage.Answered? {
      if t.up.stage.answer != P.Failed {
        more := [RemoveUploaded(id, true)];
        Exec1(s, more[0]);
      }
    } else {
      more := [Attempt(id, Refusal(t.up.stage)), RemoveUploaded(id, true)];
      Exec2(s, more[0], more[1]);
    }
  }

  lemma {:induction false} ExecAppend(s: State, run: seq<Act>, more: seq<Act>)
    requires Exec(s, run).Some?
    ensures Exec(s, run + more) == Exec(Exec(s, run).value, more)
    decreases |run|
  {
    if run == [] {
      assert run + more == more;
    } else {
      assert (run + more)[0] == run[0] && (run + more)[1..] == run[1..] + more;
      ExecAppend(Do(s, run[0]), run[1..], more);
    }
  }

  /** The retry loop lists and looks up a file that New has just created. */
  lemma WindowEntered(p: Path)
    requires R.HasSuffix(p)
    ensures var run := [Create(p, true), ListPending(0)] + [LookPending(0, p), Attempt(0, P.ReadHeader(false))];
            var up := P.Attempt(P.Answered(P.InvalidArgument), [], [], None);
            Exec(Init(map[]), run)
            == Some(State(map[], map[p := D.Init(true)], {p}, map[0 := Retry({}, Some(Try(p, true, up)))], []))
  {
    var s0 := Init(map[]);
    Exec2(s0, Create(p, true), ListPending(0));
    var s2 := Do(Do(s0, Create(p, true)), ListPending(0));
    assert s2.scans[0].todo == {p};
    assert s2.scans == map[0 := Retry({p}, None)] && {p} - {p} == {};
    var s3 := Do(s2, LookPending(0, p));
    assert s3.scans == map[0 := Retry({}, Some(Try(p, true, P.Fresh())))];
    Exec2(s2, LookPending(0, p), Attempt(0, P.ReadHeader(false)));
    ExecAppend(s0, [Create(p, true), ListPending(0)], [LookPending(0, p), Attempt(0, P.ReadHeader(false))]);
    var s4 := Do(s3, Attempt(0, P.ReadHeader(false)));
    var up := P.Attempt(P.Answered(P.InvalidArgument), [], [], None);
    assert s4.scans == map[0 := Retry({}, Some(Try(p, true, up)))];
    assert s4.recs == map[p := D.Init(true)] && s4.files == {p};
    assert s4 == State(map[], map[p := D.Init(true)], {p}, map[0 := Retry({}, Some(Try(p, true, up)))], []);
  }

  /** It happens: the retry loop reads a header that is not there yet and removes a recording that is live by then. */
  lemma WindowLosesRecording(p: Path, header: Data) returns (run: seq<Act>)
    requires R.HasSuffix(p) && header != []
    ensures Exec(Init(map[]), run).Some?
    ensures var s := Exec(Init(map[]), run).value;
            && Active(s, p) && s.recs[p].phase.Writing? && p !in s.files
            && |s.removed| == 1 && s.removed[0].wasActive && s.removed[0].cause.Retried?
            && s.removed[0].cause.up.acked.None?
  {
    var begin := [Create(p, true), ListPending(0)] + [LookPending(0, p), Attempt(0, P.ReadHeader(false))];
    WindowEntered(p);
    var s1 := Exec(Init(map[]), begin).value;
    var tee, mark := Live(p, D.Tee(header, |header|)), Live(p, D.Opened);
    var s2 := Do(s1, tee);
    assert s2.recs[p].out == [header] by { assert [] + [header] == [header]; }
    D.OneChunk(header);
    Exec2(s1, tee, mark);
    var s3 := Do(s2, mark);
    Exec1(s3, RemoveUploaded(0, true));
    ExecAppend(s1, [tee, mark], [RemoveUploaded(0, true)]);
    ExecAppend(Init(map[]), begin, [tee, mark] + [RemoveUploaded(0, true)]);
    run := begin + ([tee, mark] + [RemoveUploaded(0, true)]);
  }
}
