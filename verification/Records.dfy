/**
 * The recordings directory, with everything that happens to it at once. Recorders create files, write them and
 * upload them live. The retry loop uploads what is left, and New enforces the limits. A scan lists the directory
 * once and then looks each path up in the active set, one atomic load at a time, so everything may change between
 * two of its steps. A file is removed only by the step of the source that does it, after what that step tests.
 */
module Records {
  import opened Prelude
  import U = Uploader
  import D = Delivery
  import P = Pending
  import R = Retention

  type Path = string
  type Data = seq<Byte>

  /** What led to a removal, with what was known at that moment. `Abandoned` is a recording New itself gave up. */
  datatype Cause =
    | Confirmed(acked: seq<U.Msg>)
    | Retried(up: P.Attempt)
    | Expired(entry: R.Entry, now: int)
    | OverSpace(rest: seq<R.Entry>, early: set<Path>)
    | Abandoned

  /**
   * A removal: what the file held and what gzip had written for it, whether the path was marked active, and
   * whether the scan that removed it had looked it up early, between its creation and its mark.
   */
  datatype Removal = Removal(path: Path, content: Data, written: Data, wasActive: bool, early: bool, cause: Cause)

  /** The file the retry loop is at. */
  datatype Try = Try(path: Path, early: bool, up: P.Attempt)

  /**
   * A scan in progress: UploadPending, or enforceRetention on behalf of the recording `owner` that New is
   * creating, first over the directory and then over what it kept, in order of time.
   */
  datatype Scan =
    | Retry(todo: set<Path>, current: Option<Try>)
    | Limits(owner: Path, now: int, todo: set<Path>, early: set<Path>, kept: seq<R.Entry>, drop: Option<R.Entry>)
    | Drain(owner: Path, early: set<Path>, gone: seq<R.Entry>, rest: seq<R.Entry>)

  /** `left` are the files of earlier processes, with what they hold, and `recs` the recordings of this one. */
  datatype State = State(left: map<Path, Data>, recs: map<Path, D.State>, files: set<Path>, scans: map<nat, Scan>,
                         removed: seq<Removal>)

  function Init(left: map<Path, Data>): State { State(left, map[], left.Keys, map[], []) }

  predicate Used(s: State, p: Path) { p in s.left || p in s.recs }

  predicate Active(s: State, p: Path) { p in s.recs && s.recs[p].active }

  function ActivePaths(s: State): set<Path> { set p | p in s.recs && s.recs[p].active }

  /** Created and not yet marked active. */
  predicate Opening(s: State, p: Path) { p in s.recs && s.recs[p].phase.Opening? }

  function Content(s: State, p: Path): Data
    requires Used(s, p)
  {
    if p in s.recs then s.recs[p].file else s.left[p]
  }

  function Written(s: State, p: Path): Data
    requires Used(s, p)
  {
    if p in s.recs then Concat(s.recs[p].out) else s.left[p]
  }

  /** New is still enforcing the limits on behalf of this recording. */
  predicate OwnScan(s: State, p: Path) {
    exists id :: id in s.scans && !s.scans[id].Retry? && s.scans[id].owner == p
  }

  function Snapshot(s: State): set<Path> { set p | p in s.files && R.HasSuffix(p) }

  /** `ok` and the like say whether os.Remove worked, the rest is decided by the file system and the backend. */
  datatype Act =
    | Create(p: Path, sink: bool)
    | Live(p: Path, a: D.Act)
    | ListPending(id: nat)
    | LookPending(id: nat, p: Path)
    | Attempt(id: nat, step: P.Step)
    | RemoveUploaded(id: nat, ok: bool)
    | ListLimits(id: nat, owner: Path, now: int)
    | LookLimits(id: nat, p: Path, known: bool, modTime: int)
    | DropExpired(id: nat, ok: bool)
    | Sort(id: nat, sorted: seq<R.Entry>)
    | DropNext(id: nat, ok: bool)
    | EndScan(id: nat)

  predicate Removes(a: D.Act) { (a.Unlink? && a.ok) || (a.Abandon? && a.removed) }

  predicate IsRetry(s: State, id: nat) { id in s.scans && s.scans[id].Retry? }

  /** The upload the retry loop is at. */
  predicate Trying(s: State, id: nat) {
    IsRetry(s, id) && s.scans[id].current.Some? && Used(s, s.scans[id].current.value.path)
  }

  predicate IsLimits(s: State, id: nat) { id in s.scans && s.scans[id].Limits? }

  predicate IsDrain(s: State, id: nat) { id in s.scans && s.scans[id].Drain? }

  /** CreateTemp never returns a name it returned before. New writes the header after its own scan is over. */
  predicate Can(s: State, a: Act) {
    match a
    case Create(p, _) => !Used(s, p) && R.HasSuffix(p)
    case Live(p, d) =>
      && p in s.recs && D.Can(s.recs[p], d)
      && (Opening(s, p) && !d.Sender? ==> !OwnScan(s, p))
      && (Removes(d) ==> p in s.files)
    case ListPending(id) => id !in s.scans
    case LookPending(id, p) => IsRetry(s, id) && s.scans[id].current.None? && p in s.scans[id].todo
    case Attempt(id, step) =>
      Trying(s, id) && var t := s.scans[id].current.value; P.CanStep(t.up, Content(s, t.path), step)
    case RemoveUploaded(id, ok) =>
      && Trying(s, id)
      && var t := s.scans[id].current.value;
      && t.up.stage.Answered? && P.Settled(t.up.stage.answer)
      && (ok ==> t.path in s.files)
    case ListLimits(id, owner, _) => id !in s.scans && Opening(s, owner) && !OwnScan(s, owner)
    case LookLimits(id, p, known, _) =>
      && IsLimits(s, id) && s.scans[id].drop.None? && p in s.scans[id].todo && Used(s, p)
      && (known ==> p in s.files)
    case DropExpired(id, ok) =>
      && IsLimits(s, id) && s.scans[id].drop.Some? && Used(s, s.scans[id].drop.value.name)
      && (ok ==> s.scans[id].drop.value.name in s.files)
    case Sort(id, sorted) =>
      && IsLimits(s, id) && s.scans[id].drop.None? && s.scans[id].todo == {}
      && R.ByTime(sorted) && multiset(sorted) == multiset(s.scans[id].kept)
    case DropNext(id, ok) =>
      && IsDrain(s, id) && s.scans[id].rest != [] && R.Total(s.scans[id].rest) > R.MAX_TOTAL
      && Used(s, s.scans[id].rest[0].name)
      && (ok ==> s.scans[id].rest[0].name in s.files)
    case EndScan(id) =>
      && id in s.scans
      && match s.scans[id]
         case Retry(todo, None) => todo == {}
         case Retry(_, Some(t)) => t.up.stage.Answered? && !P.Settled(t.up.stage.answer)
         case Limits(_, _, _, _, _, _) => false
         case Drain(_, _, _, rest) => R.Total(rest) <= R.MAX_TOTAL
  }

  /** One entry of the directory: skipped, about to be dropped for its age, or kept for now. */
  function AfterLook(s: State, scan: Scan, p: Path, known: bool, modTime: int): Scan
    requires scan.Limits? && Used(s, p)
  {
    var e := R.Entry(p, false, known, |Content(s, p)|, modTime);
    var todo := scan.todo - {p};
    var early := if Opening(s, p) then scan.early + {p} else scan.early;
    if !R.Waiting(e, ActivePaths(s)) then Limits(scan.owner, scan.now, todo, scan.early, scan.kept, scan.drop)
    else if R.Old(e, scan.now) then Limits(scan.owner, scan.now, todo, early, scan.kept, Some(e))
    else Limits(scan.owner, scan.now, todo, early, scan.kept + [e], scan.drop)
  }

  /** The scan a step belongs to. */
  function ScanOf(a: Act): Option<nat> {
    match a
    case Create(_, _) => None
    case Live(_, _) => None
    case ListPending(id) => Some(id)
    case LookPending(id, _) => Some(id)
    case Attempt(id, _) => Some(id)
    case RemoveUploaded(id, _) => Some(id)
    case ListLimits(id, _, _) => Some(id)
    case LookLimits(id, _, _, _) => Some(id)
    case DropExpired(id, _) => Some(id)
    case Sort(id, _) => Some(id)
    case DropNext(id, _) => Some(id)
    case EndScan(id) => Some(id)
  }

  /** The scan after its own step, None once it is over. */
  function AfterScan(s: State, a: Act): Option<Scan>
    requires Can(s, a) && ScanOf(a).Some?
  {
    match a
    case ListPending(_) => Some(Retry(Snapshot(s), None))
    case LookPending(id, p) =>
      var try := if Active(s, p) then None else Some(Try(p, Opening(s, p), P.Fresh()));
      Some(Retry(s.scans[id].todo - {p}, try))
    case Attempt(id, step) =>
      var t := s.scans[id].current.value;
      Some(Retry(s.scans[id].todo, Some(t.(up := P.DoStep(t.up, Content(s, t.path), step)))))
    case RemoveUploaded(id, _) => Some(Retry(s.scans[id].todo, None))
    case ListLimits(_, owner, now) => Some(Limits(owner, now, Snapshot(s), {}, [], None))
    case LookLimits(id, p, known, modTime) => Some(AfterLook(s, s.scans[id], p, known, modTime))
    case DropExpired(id, _) => Some(s.scans[id].(drop := None))
    case Sort(id, sorted) => Some(Drain(s.scans[id].owner, s.scans[id].early, [], sorted))
    case DropNext(id, _) =>
      Some(s.scans[id].(gone := s.scans[id].gone + [s.scans[id].rest[0]], rest := s.scans[id].rest[1..]))
    case EndScan(_) => None
  }

  function NextScans(s: State, a: Act): map<nat, Scan>
    requires Can(s, a)
  {
    if ScanOf(a).None? then s.scans
    else
      var after := AfterScan(s, a);
      if after.Some? then s.scans[ScanOf(a).value := after.value] else s.scans - {ScanOf(a).value}
  }

  function NextRecs(s: State, a: Act): map<Path, D.State>
    requires Can(s, a)
  {
    match a
    case Create(p, sink) => s.recs[p := D.Init(sink)]
    case Live(p, d) => s.recs[p := D.Do(s.recs[p], d)]
    case _ => s.recs
  }

  function Taken(s: State, p: Path, early: bool, cause: Cause): Option<Removal>
    requires Used(s, p)
  {
    Some(Removal(p, Content(s, p), Written(s, p), Active(s, p), early, cause))
  }

  /** The removal a step makes, if it makes one. */
  function Removed(s: State, a: Act): Option<Removal>
    requires Can(s, a)
  {
    match a
    case Live(p, d) =>
      if !Removes(d) then None
      else if d.Abandon? then Taken(s, p, false, Abandoned)
      else Taken(s, p, false, Confirmed(if s.recs[p].up.acked.Some? then s.recs[p].up.acked.value else []))
    case RemoveUploaded(id, ok) =>
      var t := s.scans[id].current.value;
      if ok then Taken(s, t.path, t.early, Retried(t.up)) else None
    case DropExpired(id, ok) =>
      var scan := s.scans[id];
      var e := scan.drop.value;
      if ok then Taken(s, e.name, e.name in scan.early, Expired(e, scan.now)) else None
    case DropNext(id, ok) =>
      var scan := s.scans[id];
      var p := scan.rest[0].name;
      if ok then Taken(s, p, p in scan.early, OverSpace(scan.rest, scan.early)) else None
    case _ => None
  }

  function NextFiles(s: State, a: Act): set<Path>
    requires Can(s, a)
  {
    if a.Create? then s.files + {a.p}
    else if Removed(s, a).Some? then s.files - {Removed(s, a).value.path}
    else s.files
  }

  function Do(s: State, a: Act): State
    requires Can(s, a)
  {
    var r := Removed(s, a);
    State(s.left, NextRecs(s, a), NextFiles(s, a), NextScans(s, a),
          if r.Some? then s.removed + [r.value] else s.removed)
  }

  function Exec(s: State, run: seq<Act>): Option<State>
    decreases |run|
  {
    if run == [] then Some(s)
    else if Can(s, run[0]) then Exec(Do(s, run[0]), run[1..])
    else None
  }

  // Files only grow, and those that are closed stay as they are.

  /** Neither being created nor active: a leftover, or a recording that is over. */
  predicate AtRest(s: State, p: Path) { Used(s, p) && !Active(s, p) && !Opening(s, p) }

  ghost predicate RecsOk(s: State) { forall p :: p in s.recs ==> D.Inv(s.recs[p]) && p !in s.left }

  /** A recording that is neither being created nor active is over. */
  predicate Tidy(s: State) {
    forall p :: p in s.recs ==>
      p !in s.left && (s.recs[p].active || s.recs[p].phase in {D.Opening, D.FileClosed, D.Abandoned})
  }

  ghost predicate Grows(s: State, t: State) {
    && t.left == s.left && Tidy(s) && Tidy(t)
    && forall p :: p in s.recs ==> p in t.recs && D.Grows(s.recs[p], t.recs[p])
  }

  lemma RecStep(s: State, a: Act, p: Path)
    requires RecsOk(s) && Can(s, a) && p in NextRecs(s, a)
    ensures D.Inv(NextRecs(s, a)[p]) && p !in s.left
    ensures p in s.recs ==> D.Grows(s.recs[p], NextRecs(s, a)[p])
  {
    if a.Live? && a.p == p {
      D.StepKeepsInv(s.recs[p], a.a);
      D.StepGrows(s.recs[p], a.a);
    } else if a.Create? && a.p == p {
      D.InitInv(a.sink);
    } else {
      assert NextRecs(s, a)[p] == s.recs[p];
    }
  }

  lemma StepKeepsRecs(s: State, a: Act)
    requires RecsOk(s) && Can(s, a)
    ensures RecsOk(Do(s, a))
    ensures forall p :: p in s.recs ==> p in NextRecs(s, a) && D.Grows(s.recs[p], NextRecs(s, a)[p])
  {
    forall p | p in NextRecs(s, a)
      ensures D.Inv(NextRecs(s, a)[p]) && p !in s.left
      ensures p in s.recs ==> D.Grows(s.recs[p], NextRecs(s, a)[p])
    {
      RecStep(s, a, p);
    }
  }

  lemma RecsAreTidy(s: State)
    requires RecsOk(s)
    ensures Tidy(s)
  {
    forall p | p in s.recs
      ensures p !in s.left && (s.recs[p].active || s.recs[p].phase in {D.Opening, D.FileClosed, D.Abandoned})
    {
      assert D.Inv(s.recs[p]);
    }
  }

  lemma StepGrows(s: State, a: Act)
    requires RecsOk(s) && Can(s, a)
    ensures RecsOk(Do(s, a)) && Grows(s, Do(s, a))
  {
    StepKeepsRecs(s, a);
    RecsAreTidy(s);
    RecsAreTidy(Do(s, a));
  }

  lemma PathGrows(s: State, t: State, p: Path)
    requires Grows(s, t) && Used(s, p)
    ensures Used(t, p) && Content(s, p) <= Content(t, p)
    ensures AtRest(s, p) ==> AtRest(t, p) && Content(t, p) == Content(s, p)
  {
  }

  // Every file is accounted for.

  function Paths(removed: seq<Removal>): set<Path> { set r | r in removed :: r.path }

  predicate Distinct(removed: seq<Removal>) {
    forall i, j :: 0 <= i < j < |removed| ==> removed[i].path != removed[j].path
  }

  ghost predicate Accounted(s: State) {
    && s.files + Paths(s.removed) == s.left.Keys + s.recs.Keys
    && s.files !! Paths(s.removed)
    && Distinct(s.removed)
  }

  lemma PathsMore(removed: seq<Removal>, r: Removal)
    ensures Paths(removed + [r]) == Paths(removed) + {r.path}
    ensures Distinct(removed) && r.path !in Paths(removed) ==> Distinct(removed + [r])
  {
    assert forall x :: x in removed + [r] <==> x in removed || x == r;
    assert forall i :: 0 <= i < |removed| ==> removed[i] in removed && removed[i].path in Paths(removed);
  }

  lemma RemovedListed(s: State, a: Act)
    requires Can(s, a) && Removed(s, a).Some?
    ensures Removed(s, a).value.path in s.files && !a.Create? && NextRecs(s, a).Keys == s.recs.Keys
  {
  }

  lemma StepAccounted(s: State, a: Act)
    requires Accounted(s) && Can(s, a)
    ensures Accounted(Do(s, a))
  {
    var r := Removed(s, a);
    if r.Some? {
      RemovedListed(s, a);
      PathsMore(s.removed, r.value);
    } else {
      assert NextRecs(s, a).Keys == if a.Create? then s.recs.Keys + {a.p} else s.recs.Keys;
    }
  }

  // What a scan knows.

  /** What was read so far is the beginning of the file, and all of it if the file was at rest and its end reached. */
  ghost predicate TryOk(s: State, t: Try) {
    && Used(s, t.path) && P.Inv(t.up, Content(s, t.path))
    && (!t.early ==> AtRest(s, t.path) && (P.Whole(t.up) ==> t.up.read == Content(s, t.path)))
  }

  /** An entry is of a file at rest and has its size, unless it was looked up early. */
  ghost predicate EntryOk(s: State, e: R.Entry, early: set<Path>) {
    && Used(s, e.name)
    && (e.name !in early ==> AtRest(s, e.name) && e.size == |Content(s, e.name)|)
  }

  ghost predicate EntriesOk(s: State, es: seq<R.Entry>, early: set<Path>) {
    forall i :: 0 <= i < |es| ==> EntryOk(s, es[i], early)
  }

  /** What was dropped is, so far, needed to come within the limit. */
  ghost predicate Needed(gone: seq<R.Entry>, rest: seq<R.Entry>) {
    forall k :: 0 <= k < |gone| ==> R.Total((gone + rest)[k..]) > R.MAX_TOTAL
  }

  ghost predicate ScanOk(s: State, scan: Scan) {
    match scan
    case Retry(todo, current) =>
      (forall p :: p in todo ==> Used(s, p)) && (current.Some? ==> TryOk(s, current.value))
    case Limits(_, now, todo, early, kept, drop) =>
      && (forall p :: p in todo ==> Used(s, p))
      && EntriesOk(s, kept, early)
      && (drop.Some? ==> EntryOk(s, drop.value, early) && R.Old(drop.value, now))
    case Drain(_, early, gone, rest) =>
      EntriesOk(s, gone, early) && EntriesOk(s, rest, early) && R.ByTime(gone + rest) && Needed(gone, rest)
  }

  /**
   * Why a removal was right. Confirmed: the backend has acknowledged exactly what gzip wrote for the recording,
   * which is over, and the file held the beginning of it. Retried: the backend refused the file for good or its
   * header could not be read, or it has acknowledged exactly what the file held, if the file was at rest, and the
   * beginning of it otherwise. The limits: the file was past its age, or the oldest of files that are over the
   * limit together. Only a confirmed upload or an early look removes an active recording.
   */
  ghost predicate Justified(s: State, r: Removal) {
    && Used(s, r.path)
    && (r.wasActive ==> r.cause.Confirmed? || r.early)
    && match r.cause
       case Confirmed(acked) =>
         && r.path in s.recs && s.recs[r.path].phase.FileClosed?
         && acked == U.Complete(D.NonEmpty(s.recs[r.path].out))
         && D.Payload(acked) == r.written == Written(s, r.path)
         && r.content == Content(s, r.path) <= r.written
       case Retried(up) =>
         && (up.stage == P.Answered(P.InvalidArgument) || up.stage == P.Answered(P.Ok))
         && (up.stage == P.Answered(P.Ok) ==>
               && up.acked.Some? && P.Delivers(up.acked.value, up.read) && up.read <= r.content
               && (!r.early ==> AtRest(s, r.path) && up.read == r.content == Content(s, r.path)))
       case Expired(e, now) => e.name == r.path && now - e.modTime > 30 * 24 * 3600 * 1_000_000_000
       case OverSpace(rest, early) =>
         && rest != [] && rest[0].name == r.path && R.ByTime(rest) && R.Total(rest) > 0x4000_0000
         && EntriesOk(s, rest, early)
       case Abandoned => r.path in s.recs && s.recs[r.path].phase.Abandoned?
  }

  ghost predicate ScansOk(s: State) { forall id :: id in s.scans ==> ScanOk(s, s.scans[id]) }

  ghost predicate AllJustified(s: State) { forall r :: r in s.removed ==> Justified(s, r) }

  ghost predicate Inv(s: State) { RecsOk(s) && Accounted(s) && ScansOk(s) && AllJustified(s) }

  // Knowledge that outlives the steps of others.

  lemma EntriesCarry(s: State, t: State, es: seq<R.Entry>, early: set<Path>)
    requires Grows(s, t) && EntriesOk(s, es, early)
    ensures EntriesOk(t, es, early)
  {
    forall i | 0 <= i < |es| ensures EntryOk(t, es[i], early) { PathGrows(s, t, es[i].name); }
  }

  lemma TryCarries(s: State, t: State, y: Try)
    requires Grows(s, t) && TryOk(s, y)
    ensures TryOk(t, y)
  {
    PathGrows(s, t, y.path);
    PrefixTrans(y.up.read, Content(s, y.path), Content(t, y.path));
  }

  lemma ScanCarries(s: State, t: State, scan: Scan)
    requires Grows(s, t) && ScanOk(s, scan)
    ensures ScanOk(t, scan)
  {
    match scan
    case Retry(_, current) => if current.Some? { TryCarries(s, t, current.value); }
    case Limits(_, _, _, early, kept, drop) =>
      EntriesCarry(s, t, kept, early);
      if drop.Some? { PathGrows(s, t, drop.value.name); }
    case Drain(_, early, gone, rest) =>
      EntriesCarry(s, t, gone, early);
      EntriesCarry(s, t, rest, early);
  }

  lemma JustifiedCarries(s: State, t: State, r: Removal)
    requires Grows(s, t) && Justified(s, r)
    ensures Justified(t, r)
  {
    PathGrows(s, t, r.path);
    match r.cause
    case OverSpace(rest, early) => EntriesCarry(s, t, rest, early);
    case _ =>
  }

  // What each step of a scan learns.

  lemma LookOk(s: State, scan: Scan, p: Path, known: bool, modTime: int)
    requires ScanOk(s, scan) && scan.Limits? && scan.drop.None? && Used(s, p)
    ensures ScanOk(s, AfterLook(s, scan, p, known, modTime))
  {
    var e := R.Entry(p, false, known, |Content(s, p)|, modTime);
    var early := if Opening(s, p) then scan.early + {p} else scan.early;
    if R.Waiting(e, ActivePaths(s)) {
      assert p !in ActivePaths(s);
      assert EntryOk(s, e, early);
      forall i | 0 <= i < |scan.kept| ensures EntryOk(s, scan.kept[i], early) {
        assert EntryOk(s, scan.kept[i], scan.early);
      }
    }
  }

  lemma SortOk(s: State, kept: seq<R.Entry>, sorted: seq<R.Entry>, early: set<Path>)
    requires EntriesOk(s, kept, early) && multiset(sorted) == multiset(kept)
    ensures EntriesOk(s, sorted, early)
  {
    forall i | 0 <= i < |sorted| ensures EntryOk(s, sorted[i], early) {
      assert sorted[i] in multiset(sorted);
      assert sorted[i] in kept;
    }
  }

  /** One more entry goes while the rest is still over the limit. */
  lemma NeededMore(gone: seq<R.Entry>, rest: seq<R.Entry>)
    requires Needed(gone, rest) && rest != [] && R.Total(rest) > R.MAX_TOTAL
    ensures gone + [rest[0]] + rest[1..] == gone + rest
    ensures Needed(gone + [rest[0]], rest[1..])
  {
    MoveHead(gone, rest);
    assert (gone + rest)[|gone|..] == rest;
  }

  lemma DrainOk(s: State, scan: Scan)
    requires ScanOk(s, scan) && scan.Drain? && scan.rest != [] && R.Total(scan.rest) > R.MAX_TOTAL
    ensures ScanOk(s, scan.(gone := scan.gone + [scan.rest[0]], rest := scan.rest[1..]))
  {
    NeededMore(scan.gone, scan.rest);
  }

  lemma AttemptOk(s: State, t: Try, step: P.Step)
    requires TryOk(s, t) && P.CanStep(t.up, Content(s, t.path), step)
    ensures TryOk(s, t.(up := P.DoStep(t.up, Content(s, t.path), step)))
  {
    P.StepKeepsInv(t.up, Content(s, t.path), step);
  }

  /** The scan after its own step, still seen from the state before it. */
  lemma OwnStepOk(s: State, a: Act)
    requires Accounted(s) && ScansOk(s) && Can(s, a) && ScanOf(a).Some? && AfterScan(s, a).Some?
    ensures ScanOk(s, AfterScan(s, a).value)
  {
    match a
    case LookLimits(id, p, known, modTime) => LookOk(s, s.scans[id], p, known, modTime);
    case Sort(id, sorted) =>
      SortOk(s, s.scans[id].kept, sorted, s.scans[id].early);
      assert [] + sorted == sorted;
    case DropNext(id, _) => DrainOk(s, s.scans[id]);
    case Attempt(id, step) => AttemptOk(s, s.scans[id].current.value, step);
    case ListPending(_) => SnapshotUsed(s);
    case ListLimits(_, _, _) => SnapshotUsed(s);
    case LookPending(id, p) => assert ScanOk(s, s.scans[id]);
    case RemoveUploaded(id, _) => assert ScanOk(s, s.scans[id]);
    case DropExpired(id, _) => assert ScanOk(s, s.scans[id]);
  }

  lemma SnapshotUsed(s: State)
    requires Accounted(s)
    ensures forall p :: p in Snapshot(s) ==> Used(s, p)
  {
    assert s.files <= s.left.Keys + s.recs.Keys;
  }

  lemma StepScans(s: State, a: Act)
    requires RecsOk(s) && Accounted(s) && ScansOk(s) && Can(s, a)
    ensures ScansOk(Do(s, a))
  {
    var t := Do(s, a);
    StepGrows(s, a);
    if ScanOf(a).Some? && AfterScan(s, a).Some? { OwnStepOk(s, a); }
    forall id | id in NextScans(s, a) ensures ScanOk(t, NextScans(s, a)[id]) {
      assert ScanOk(s, NextScans(s, a)[id]);
      ScanCarries(s, t, NextScans(s, a)[id]);
    }
  }

  // What each removal is justified by.

  lemma ConfirmedJustified(s: State, p: Path)
    requires RecsOk(s) && Can(s, Live(p, D.Unlink(true)))
    ensures Justified(s, Removed(s, Live(p, D.Unlink(true))).value)
  {
    D.ConfirmedMeansDelivered(s.recs[p]);
  }

  lemma RetryJustified(s: State, id: nat)
    requires ScansOk(s) && Can(s, RemoveUploaded(id, true))
    ensures Justified(s, Removed(s, RemoveUploaded(id, true)).value)
  {
    assert ScanOk(s, s.scans[id]);
  }

  lemma ExpiredJustified(s: State, id: nat)
    requires ScansOk(s) && Can(s, DropExpired(id, true))
    ensures Justified(s, Removed(s, DropExpired(id, true)).value)
  {
    assert ScanOk(s, s.scans[id]);
  }

  lemma DropJustified(s: State, id: nat)
    requires ScansOk(s) && Can(s, DropNext(id, true))
    ensures Justified(s, Removed(s, DropNext(id, true)).value)
  {
    var scan := s.scans[id];
    assert ScanOk(s, scan);
    assert EntryOk(s, scan.rest[0], scan.early);
    SuffixByTime(scan.gone, scan.rest);
  }

  lemma SuffixByTime(gone: seq<R.Entry>, rest: seq<R.Entry>)
    requires R.ByTime(gone + rest)
    ensures R.ByTime(rest)
  {
    var all := gone + rest;
    forall i, j | 0 <= i < j < |rest| ensures rest[i].modTime <= rest[j].modTime {
      assert all[|gone| + i] == rest[i] && all[|gone| + j] == rest[j];
    }
  }

  /** A recording that New gives up was never marked. */
  lemma AbandonJustified(s: State, p: Path)
    requires RecsOk(s) && Can(s, Live(p, D.Abandon(true)))
    ensures Justified(Do(s, Live(p, D.Abandon(true))), Removed(s, Live(p, D.Abandon(true))).value)
  {
    assert D.Inv(s.recs[p]);
  }

  lemma TakenJustified(s: State, a: Act)
    requires RecsOk(s) && ScansOk(s) && Can(s, a) && Removed(s, a).Some? && !(a.Live? && a.a.Abandon?)
    ensures Justified(s, Removed(s, a).value)
  {
    match a
    case Live(p, _) => ConfirmedJustified(s, p);
    case RemoveUploaded(id, _) => RetryJustified(s, id);
    case DropExpired(id, _) => ExpiredJustified(s, id);
    case DropNext(id, _) => DropJustified(s, id);
  }

  lemma RemovedJustified(s: State, a: Act)
    requires RecsOk(s) && ScansOk(s) && Can(s, a) && Removed(s, a).Some? && Grows(s, Do(s, a))
    ensures Justified(Do(s, a), Removed(s, a).value)
  {
    if a.Live? && a.a.Abandon? {
      AbandonJustified(s, a.p);
    } else {
      TakenJustified(s, a);
      JustifiedCarries(s, Do(s, a), Removed(s, a).value);
    }
  }

  lemma AllCarry(s: State, t: State)
    requires Grows(s, t) && AllJustified(s)
    ensures forall r :: r in s.removed ==> Justified(t, r)
  {
    forall r | r in s.removed ensures Justified(t, r) { JustifiedCarries(s, t, r); }
  }

  lemma StepJustified(s: State, a: Act)
    requires Inv(s) && Can(s, a) && Grows(s, Do(s, a))
    ensures AllJustified(Do(s, a))
  {
    var r := Removed(s, a);
    AllCarry(s, Do(s, a));
    if r.Some? {
      RemovedJustified(s, a);
      assert forall x :: x in s.removed + [r.value] <==> x in s.removed || x == r.value;
    }
  }

  lemma StepKeepsInv(s: State, a: Act)
    requires Inv(s) && Can(s, a)
    ensures Inv(Do(s, a))
  {
    StepGrows(s, a);
    StepAccounted(s, a);
    StepScans(s, a);
    StepJustified(s, a);
  }

  lemma {:induction false} RunKeepsInv(s: State, run: seq<Act>)
    requires Inv(s) && Exec(s, run).Some?
    ensures Inv(Exec(s, run).value)
    decreases |run|
  {
    if run != [] {
      StepKeepsInv(s, run[0]);
      RunKeepsInv(Do(s, run[0]), run[1..]);
    }
  }

  /**
   * What the scan for the limits does with one file of its snapshot: nothing if it is active or cannot be read,
   * otherwise it is dropped next if it is more than thirty days old, and kept for now with its size if not.
   */
  lemma LookExactly(s: State, id: nat, p: Path, known: bool, modTime: int)
    requires Can(s, LookLimits(id, p, known, modTime)) && R.HasSuffix(p)
    ensures var scan := s.scans[id];
            var e := R.Entry(p, false, true, |Content(s, p)|, modTime);
            var aged := scan.now - modTime > 30 * 24 * 3600 * 1_000_000_000;
            var early := if Opening(s, p) && known && !Active(s, p) then scan.early + {p} else scan.early;
            Do(s, LookLimits(id, p, known, modTime)).scans[id] ==
            if Active(s, p) || !known then Limits(scan.owner, scan.now, scan.todo - {p}, scan.early, scan.kept, None)
            else if aged then Limits(scan.owner, scan.now, scan.todo - {p}, early, scan.kept, Some(e))
            else Limits(scan.owner, scan.now, scan.todo - {p}, early, scan.kept + [e], None)
  {
  }

  /**
   * Whatever runs at the same time, and whatever files were left before: a recording is there or was removed once,
   * and every removal is justified by what the backend acknowledged or refused, or by the limits.
   */
  lemma EveryRemovalJustified(left: map<Path, Data>, run: seq<Act>)
    requires Exec(Init(left), run).Some?
    ensures var s := Exec(Init(left), run).value;
            && s.files + Paths(s.removed) == s.left.Keys + s.recs.Keys
            && s.files !! Paths(s.removed)
            && Distinct(s.removed)
            && forall r :: r in s.removed ==> Justified(s, r)
  {
    RunKeepsInv(Init(left), run);
  }

  /** A scan for the limits that is over dropped exactly the shortest prefix, by time, of what it had kept. */
  lemma LimitsDropShortest(left: map<Path, Data>, run: seq<Act>, id: nat)
    requires Exec(Init(left), run).Some?
    ensures var s := Exec(Init(left), run).value;
            IsDrain(s, id) && Can(s, EndScan(id)) ==>
              R.ByTime(s.scans[id].gone + s.scans[id].rest) && R.ShortestPrefix(s.scans[id].gone, s.scans[id].rest)
  {
    RunKeepsInv(Init(left), run);
    var s := Exec(Init(left), run).value;
    if IsDrain(s, id) { assert ScanOk(s, s.scans[id]); }
  }
}
