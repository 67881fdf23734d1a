/**
 * One recording from its first byte to the removal of its local file. gzip writes through a tee, first to the
 * uploader and then to the file. Closing writes the footer, closes the file and then waits for the uploader.
 * Only a confirmed upload removes the file.
 */
module Delivery {
  import opened Prelude
  import U = Uploader

  type Data = seq<Byte>

  /**
   * Where the recording stands. In `Opening` New writes the header and has not marked the path active yet, in
   * `Writing` the recorder takes events and flushes. The rest is closeLocked, or New giving up.
   */
  datatype Phase = Opening | Writing | Closing | GzipClosed | FileClosed | Abandoned

  /**
   * `out` is every slice gzip wrote through the tee and `file` what reached the disk. A failed file write makes
   * gzip refuse all further writes, `stuck`. `footer` says that gzip got to write its footer. `tried` and
   * `unlinked` say whether the confirmed upload led to os.Remove, and whether that worked.
   */
  datatype State = State(sink: bool, up: U.State, phase: Phase, out: seq<Data>, file: Data, stuck: bool, footer: bool,
                         tried: bool, unlinked: bool, active: bool)

  function Init(sink: bool): State {
    State(sink, U.Init(), Opening, [], [], false, false, false, false, false)
  }

  datatype Act =
    | Tee(p: Data, n: nat)
    | Opened
    | Abandon(removed: bool)
    | BeginClose
    | Footer(p: Data, n: nat)
    | GiveUp
    | CloseFile
    | Sender(a: U.Act)
    | SinkClose(a: U.Act)
    | Unlink(ok: bool)
    | Forget

  predicate IsClosing(a: U.Act) { a.Mark? || a.CloseChannel? || a.SenderDone? || a.Timeout? || a.Return? }

  /** The flush of the header writes something. Without a sink the path is only taken off the active ones. */
  predicate Can(s: State, a: Act) {
    match a
    case Tee(p, n) => s.phase in {Opening, Writing, Closing} && !s.stuck && n <= |p|
    case Opened => s.phase.Opening? && !s.stuck && NonEmpty(s.out) != []
    case Abandon(_) => s.phase.Opening?
    case BeginClose => s.phase.Writing?
    case Footer(p, n) => s.phase.Closing? && !s.stuck && n <= |p|
    case GiveUp => s.phase.Closing? && s.stuck
    case CloseFile => s.phase.GzipClosed?
    case Sender(u) => s.sink && !u.Write? && !IsClosing(u) && U.Can(s.up, u)
    case SinkClose(u) => s.sink && s.phase.FileClosed? && IsClosing(u) && U.Can(s.up, u)
    case Unlink(_) => s.up.closing == U.Returned(true) && s.active && !s.tried
    case Forget =>
      && s.active
      && if s.sink then s.up.closing.Returned? && (s.up.closing.ok ==> s.tried) else s.phase.FileClosed?
  }

  /** One write through the tee: the sink, if any, gets all of `p`, the disk the first `n` bytes. */
  function AfterTee(s: State, p: Data, n: nat): State
    requires n <= |p|
  {
    s.(up := if s.sink then U.AfterWrite(s.up, p) else s.up, out := s.out + [p], file := s.file + p[..n],
       stuck := n < |p|)
  }

  function Do(s: State, a: Act): State
    requires Can(s, a)
  {
    match a
    case Tee(p, n) => AfterTee(s, p, n)
    case Opened => s.(phase := Writing, active := true)
    case Abandon(_) => s.(phase := Abandoned)
    case BeginClose => s.(phase := Closing)
    case Footer(p, n) => AfterTee(s, p, n).(phase := GzipClosed, footer := true)
    case GiveUp => s.(phase := GzipClosed)
    case CloseFile => s.(phase := FileClosed)
    case Sender(u) => s.(up := U.Do(s.up, u))
    case SinkClose(u) => s.(up := U.Do(s.up, u))
    case Unlink(ok) => s.(tried := true, unlinked := ok)
    case Forget => s.(active := false)
  }

  function Exec(s: State, run: seq<Act>): Option<State>
    decreases |run|
  {
    if run == [] then Some(s)
    else if Can(s, run[0]) then Exec(Do(s, run[0]), run[1..])
    else None
  }

  /** The uploader ignores empty slices. */
  function NonEmpty(out: seq<Data>): seq<Data> {
    if out == [] then [] else
      var last := out[|out| - 1];
      NonEmpty(out[..|out| - 1]) + if last == [] then [] else [last]
  }

  lemma {:induction false} NonEmptyMore(out: seq<Data>, p: Data)
    ensures NonEmpty(out + [p]) == if p == [] then NonEmpty(out) else NonEmpty(out) + [p]
  {
    assert (out + [p])[..|out|] == out;
    Empty(NonEmpty(out));
  }

  lemma {:induction false} NonEmptySameBytes(out: seq<Data>)
    ensures Concat(NonEmpty(out)) == Concat(out)
    decreases |out|
  {
    if out != [] {
      var init, last := out[..|out| - 1], out[|out| - 1];
      assert out == init + [last];
      NonEmptySameBytes(init);
      NonEmptyMore(init, last);
      ConcatOne(init, last);
      ConcatOne(NonEmpty(init), last);
      Empty(Concat(init));
    }
  }

  /** The bytes of the recording that a stream carries. */
  function Payload(wire: seq<U.Msg>): Data {
    if wire == [] then [] else
      var last := wire[|wire| - 1];
      Payload(wire[..|wire| - 1]) + if last.Chunk? then last.data else []
  }

  lemma {:induction false} PayloadMore(wire: seq<U.Msg>, m: U.Msg)
    ensures Payload(wire + [m]) == if m.Chunk? then Payload(wire) + m.data else Payload(wire)
  {
    assert (wire + [m])[..|wire|] == wire;
    Empty(Payload(wire));
  }

  lemma {:induction false} PayloadStarted(cs: seq<Data>)
    ensures Payload(U.Started(cs)) == Concat(cs)
    decreases |cs|
  {
    if cs == [] {
      assert U.Started(cs) == [] + [U.Meta];
      PayloadMore([], U.Meta);
    } else {
      var init, last := cs[..|cs| - 1], cs[|cs| - 1];
      assert cs == init + [last];
      PayloadStarted(init);
      U.StartedMore(init, last);
      PayloadMore(U.Started(init), U.Chunk(last));
      ConcatOne(init, last);
    }
  }

  lemma {:induction false} PayloadComplete(cs: seq<Data>)
    ensures Payload(U.Complete(cs)) == Concat(cs)
  {
    PayloadStarted(cs);
    PayloadMore(U.Started(cs), U.Final);
  }

  // The invariant.

  ghost predicate SinkOk(s: State) {
    && U.Inv(s.up)
    && (s.sink ==> s.up.written == NonEmpty(s.out))
    && (!s.sink ==> s.up == U.Init())
    && (!s.phase.FileClosed? ==> s.up.closing.Open? && !s.up.closed)
    && (s.tried ==> s.up.closing == U.Returned(true))
    && (s.unlinked ==> s.tried)
    && (!s.active && s.phase.FileClosed? && s.sink ==>
          s.up.closing.Returned? && (s.up.closing.ok ==> s.tried))
  }

  ghost predicate FileOk(s: State) {
    && s.file <= Concat(s.out)
    && (s.stuck <==> s.file != Concat(s.out))
    && (s.phase !in {Opening, Abandoned} ==> NonEmpty(s.out) != [])
    && (s.active ==> s.phase !in {Opening, Abandoned})
    && (!s.active ==> s.phase in {Opening, FileClosed, Abandoned})
  }

  ghost predicate Inv(s: State) { SinkOk(s) && FileOk(s) }

  lemma {:induction false} TeeKeepsSink(s: State, p: Data, n: nat)
    requires SinkOk(s) && !s.phase.FileClosed? && n <= |p|
    ensures SinkOk(AfterTee(s, p, n))
  {
    U.WriteKeepsInv(s.up, p);
    NonEmptyMore(s.out, p);
  }

  lemma {:induction false} TeeKeepsFile(s: State, p: Data, n: nat)
    requires FileOk(s) && !s.stuck && n <= |p|
    ensures FileOk(AfterTee(s, p, n))
  {
    ConcatOne(s.out, p);
    NonEmptyMore(s.out, p);
    var t := AfterTee(s, p, n);
    assert Concat(t.out) == s.file + p;
    assert t.file == Concat(t.out)[..|t.file|];
    assert n == |p| ==> p[..n] == p;
  }

  lemma {:induction false} SinkStepKeeps(s: State, u: U.Act)
    requires SinkOk(s) && s.sink && !u.Write? && U.Can(s.up, u) && (IsClosing(u) ==> s.phase.FileClosed?)
    ensures SinkOk(s.(up := U.Do(s.up, u)))
  {
    U.StepKeepsInv(s.up, u);
    U.StickyStep(s.up, u);
  }

  lemma {:induction false} StepKeepsInv(s: State, a: Act)
    requires Inv(s) && Can(s, a)
    ensures Inv(Do(s, a))
  {
    match a
    case Tee(p, n) => TeeKeepsSink(s, p, n); TeeKeepsFile(s, p, n);
    case Footer(p, n) => TeeKeepsSink(s, p, n); TeeKeepsFile(s, p, n);
    case Sender(u) => SinkStepKeeps(s, u);
    case SinkClose(u) => SinkStepKeeps(s, u);
    case Opened =>
    case Abandon(_) =>
    case BeginClose =>
    case GiveUp =>
    case CloseFile =>
    case Unlink(_) =>
    case Forget =>
  }

  lemma {:induction false} RunKeepsInv(s: State, run: seq<Act>)
    requires Inv(s) && Exec(s, run).Some?
    ensures Inv(Exec(s, run).value)
    decreases |run|
  {
    if run != [] {
      StepKeepsInv(s, run[0]);
      RunKeepsInv(Do(s, run[0]), run[1..]);
    }
  }

  lemma {:induction false} InitInv(sink: bool)
    ensures Inv(Init(sink))
  {
  }

  /** The file only grows, and once it is closed or given up neither it nor what gzip wrote changes. */
  ghost predicate Grows(s: State, t: State) {
    && s.file <= t.file
    && (s.phase in {FileClosed, Abandoned} ==> t.phase == s.phase && t.out == s.out && t.file == s.file)
    && (!s.active && !s.phase.Opening? ==> !t.active)
  }

  lemma {:induction false} StepGrows(s: State, a: Act)
    requires Inv(s) && Can(s, a)
    ensures Grows(s, Do(s, a))
  {
  }

  /** When Close of the sink has returned nil, the backend has acknowledged exactly the bytes gzip wrote. */
  lemma {:induction false} ConfirmedMeansDelivered(s: State)
    requires Inv(s) && s.up.closing == U.Returned(true)
    ensures s.sink && s.phase.FileClosed? && s.up.acked == Some(U.Complete(NonEmpty(s.out)))
    ensures Payload(U.Complete(NonEmpty(s.out))) == Concat(s.out)
  {
    Empty(s.up.taken);
    assert s.up.taken == s.up.written;
    PayloadComplete(NonEmpty(s.out));
    NonEmptySameBytes(s.out);
  }

  lemma {:induction false} UnlinkedState(s: State)
    requires Inv(s) && s.unlinked
    ensures s.sink && s.phase.FileClosed? && s.up.acked == Some(U.Complete(NonEmpty(s.out)))
    ensures Payload(U.Complete(NonEmpty(s.out))) == Concat(s.out) && s.file <= Concat(s.out)
  {
    ConfirmedMeansDelivered(s);
  }

  /** Any write may be cut short by the disk. */
  ghost predicate WriteGoesOn(s: State, p: Data, n: nat) {
    !s.stuck && n <= |p| ==>
      && (s.phase in {Opening, Writing, Closing} ==> Can(s, Tee(p, n)))
      && (s.phase.Closing? ==> Can(s, Footer(p, n)))
  }

  /** What New and closeLocked can do next. */
  ghost predicate CloseGoesOn(s: State) {
    match s.phase
    case Opening =>
      && Can(s, Abandon(true)) && Can(s, Abandon(false))
      && (!s.stuck && NonEmpty(s.out) != [] ==> Can(s, Opened))
    case Writing => Can(s, BeginClose)
    case Closing => s.stuck ==> Can(s, GiveUp)
    case GzipClosed => Can(s, CloseFile)
    case FileClosed => s.active && !s.sink ==> Can(s, Forget)
    case Abandoned => true
  }

  /** What follows the answer of the sink. Any removal may fail. */
  ghost predicate AnswerGoesOn(s: State) {
    s.sink && s.active && s.up.closing.Returned? ==>
      if s.up.closing.ok && !s.tried then Can(s, Unlink(true)) && Can(s, Unlink(false)) else Can(s, Forget)
  }

  /** The sender is never held up by the recorder, and the close of the sink only by that of the file. */
  ghost predicate SinkGoesOn(s: State, u: U.Act) {
    s.sink && U.Can(s.up, u) && !u.Write? ==>
      if IsClosing(u) then s.phase.FileClosed? ==> Can(s, SinkClose(u)) else Can(s, Sender(u))
  }

  lemma {:induction false} NobodyBlocks(sink: bool, run: seq<Act>, p: Data, n: nat, u: U.Act)
    requires Exec(Init(sink), run).Some?
    ensures var s := Exec(Init(sink), run).value;
            WriteGoesOn(s, p, n) && CloseGoesOn(s) && AnswerGoesOn(s) && SinkGoesOn(s, u)
  {
    var s := Exec(Init(sink), run).value;
    CloseGoes(s);
    AnswerGoes(s);
    SinkGoes(s, u);
  }

  lemma {:induction false} CloseGoes(s: State)
    ensures CloseGoesOn(s)
  {
  }

  lemma {:induction false} AnswerGoes(s: State)
    ensures AnswerGoesOn(s)
  {
  }

  lemma {:induction false} SinkGoes(s: State, u: U.Act)
    ensures SinkGoesOn(s, u)
  {
  }

  /**
   * From its mark on a recording is active for as long as anything may still come of it: while it is written, until
   * the file is closed, and with a sink until its Close has returned and, if that was nil, the removal was tried.
   */
  lemma {:induction false} ActiveToTheEnd(sink: bool, run: seq<Act>)
    requires Exec(Init(sink), run).Some?
    ensures var s := Exec(Init(sink), run).value;
            && (s.active ==> s.phase !in {Opening, Abandoned})
            && (!s.active ==> s.phase in {Opening, Abandoned, FileClosed})
            && (!s.active && s.phase.FileClosed? && sink ==>
                  s.up.closing.Returned? && (s.up.closing == U.Returned(true) ==> s.tried))
  {
    RunKeepsInv(Init(sink), run);
    SinkStays(Init(sink), run);
  }

  lemma {:induction false} SinkStays(s: State, run: seq<Act>)
    requires Exec(s, run).Some?
    ensures Exec(s, run).value.sink == s.sink
    decreases |run|
  {
    if run != [] { SinkStays(Do(s, run[0]), run[1..]); }
  }

  /** A write to the file before the footer was cut short. */
  predicate CutShort(run: seq<Act>) { exists i :: 0 <= i < |run| && run[i].Tee? && run[i].n < |run[i].p| }

  /** How the footer depends on whether a write was cut short so far. */
  predicate Flow(s: State, short: bool) {
    if s.phase in {GzipClosed, FileClosed} then s.footer == !short else s.stuck == short && !s.footer
  }

  lemma {:induction false} StepFlow(s: State, a: Act, short: bool)
    requires Flow(s, short) && Can(s, a)
    ensures Flow(Do(s, a), short || (a.Tee? && a.n < |a.p|))
  {
  }

  lemma {:induction false} RunFlow(s: State, run: seq<Act>, short: bool)
    requires Flow(s, short) && Exec(s, run).Some?
    ensures Flow(Exec(s, run).value, short || CutShort(run))
    decreases |run|
  {
    if run != [] {
      var now := run[0].Tee? && run[0].n < |run[0].p|;
      StepFlow(s, run[0], short);
      RunFlow(Do(s, run[0]), run[1..], short || now);
      CutShortStep(run);
    }
  }

  lemma {:induction false} CutShortStep(run: seq<Act>)
    requires run != []
    ensures CutShort(run) <==> (run[0].Tee? && run[0].n < |run[0].p|) || CutShort(run[1..])
  {
    var rest := run[1..];
    assert forall i :: 0 <= i < |rest| ==> rest[i] == run[i + 1];
    if CutShort(run) {
      var i :| 0 <= i < |run| && run[i].Tee? && run[i].n < |run[i].p|;
      assert i > 0 ==> rest[i - 1] == run[i];
    }
  }

  /**
   * When the file is removed, the backend has acknowledged exactly the bytes gzip wrote, everything on the disk
   * among them, and no write can follow. The footer is among those bytes exactly if no earlier write to the file
   * was cut short.
   */
  lemma {:induction false} UnlinkedMeansDelivered(sink: bool, run: seq<Act>)
    requires Exec(Init(sink), run).Some?
    ensures var s := Exec(Init(sink), run).value;
            s.unlinked ==>
              && s.sink
              && s.up.acked == Some(U.Complete(NonEmpty(s.out)))
              && Payload(s.up.acked.value) == Concat(s.out)
              && s.file <= Payload(s.up.acked.value)
              && (s.footer <==> !CutShort(run))
              && s.phase.FileClosed?
              && (forall p, n :: !Can(s, Tee(p, n)) && !Can(s, Footer(p, n)))
  {
    RunKeepsInv(Init(sink), run);
    RunFlow(Init(sink), run, false);
    var s := Exec(Init(sink), run).value;
    if s.unlinked { UnlinkedState(s); }
  }

  lemma {:induction false} OneChunk(c: Data)
    ensures c != [] ==> NonEmpty([c]) == [c]
    ensures Concat([c]) == c
  {
    assert [] + [c] == [c];
    NonEmptyMore([], c);
    ConcatOne([], c);
  }

  // A disk that fails during a session.

  lemma {:induction false} ExecAppend(s: State, run: seq<Act>, more: seq<Act>)
    requires Exec(s, run).Some?
    ensures Exec(s, run + more) == Exec(Exec(s, run).value, more)
    decreases |run|
  {
    if run == [] {
      assert run + more == more;
    } else {
      assert (run + more)[0] == run[0] && (run + more)[1..] == run[1..] + more;
      ExecAppend(Do(s, run[0]), run[1..], more);
    }
  }

  lemma {:induction false} Exec3(s: State, a: Act, b: Act, c: Act)
    requires Can(s, a) && Can(Do(s, a), b) && Can(Do(Do(s, a), b), c)
    ensures Exec(s, [a, b, c]) == Some(Do(Do(Do(s, a), b), c))
  {
    assert [a, b, c][1..] == [b, c] && [b, c][1..] == [c] && [c][1..] == [];
    var s1 := Do(s, a);
    var s2 := Do(s1, b);
    assert Exec(s2, [c]) == Some(Do(s2, c));
    assert Exec(s1, [b, c]) == Exec(s2, [c]);
  }

  function Senders(run: seq<U.Act>): seq<Act> {
    if run == [] then [] else [Sender(run[0])] + Senders(run[1..])
  }

  /** The sender's runs are runs of the whole. */
  lemma {:induction false} LiftSender(s: State, run: seq<U.Act>)
    requires s.sink && U.SenderOnly(run) && U.Exec(s.up, run).Some?
    ensures Exec(s, Senders(run)) == Some(s.(up := U.Exec(s.up, run).value))
    decreases |run|
  {
    if run != [] {
      var t := Do(s, Sender(run[0]));
      LiftSender(t, run[1..]);
      assert Senders(run)[1..] == Senders(run[1..]);
    }
  }

  /** Two chunks in the queue, the disk took none of the second, and Close has begun. */
  function StuckState(header: Data, p: Data): State {
    var up := U.Init().(queue := [header, p], written := [header, p], closed := true, chanClosed := true,
                        closing := U.ChanClosed);
    State(true, up, FileClosed, [header, p], header, true, false, false, false, true)
  }

  /** New has written the header and the first write of an event failed. */
  lemma {:induction false} StuckBegun(header: Data, p: Data)
    requires header != [] && p != []
    ensures var run := [Tee(header, |header|), Opened, Tee(p, 0)];
            var up := U.Init().(queue := [header, p], written := [header, p]);
            Exec(Init(true), run)
            == Some(State(true, up, Writing, [header, p], header, true, false, false, false, true))
  {
    OneChunk(header);
    assert header[..|header|] == header && p[..0] == [] && [] + [header] == [header] && [header] + [p] == [header, p];
    assert [] + header == header;
    Empty(header);
    Exec3(Init(true), Tee(header, |header|), Opened, Tee(p, 0));
  }

  lemma {:induction false} StuckReached(header: Data, p: Data) returns (run: seq<Act>)
    requires header != [] && p != []
    ensures Exec(Init(true), run) == Some(StuckState(header, p))
  {
    StuckBegun(header, p);
    var begin := [Tee(header, |header|), Opened, Tee(p, 0)];
    var s1 := Exec(Init(true), begin).value;
    Exec3(s1, BeginClose, GiveUp, CloseFile);
    var s2 := Do(Do(Do(s1, BeginClose), GiveUp), CloseFile);
    var close := [SinkClose(U.Mark), SinkClose(U.CloseChannel)];
    assert close[1..] == [SinkClose(U.CloseChannel)] && close[1..][1..] == [];
    var s3 := Do(s2, close[0]);
    assert Exec(s3, close[1..]) == Some(Do(s3, close[1]));
    assert Do(s3, close[1]) == StuckState(header, p);
    ExecAppend(s1, [BeginClose, GiveUp, CloseFile], close);
    ExecAppend(Init(true), begin, [BeginClose, GiveUp, CloseFile] + close);
    run := begin + ([BeginClose, GiveUp, CloseFile] + close);
  }

  lemma {:induction false} StuckAcked(header: Data, p: Data) returns (run: seq<Act>)
    ensures Exec(StuckState(header, p), run).Some?
    ensures var s := Exec(StuckState(header, p), run).value;
            && s == StuckState(header, p).(up := s.up)
            && s.up.closing.ChanClosed? && s.up.sender.Done? && !s.up.failed
  {
    var s := StuckState(header, p);
    U.Exec3(s.up, U.Take, U.OpenOk, U.SendOk);
    var begin := [U.Take, U.OpenOk, U.SendOk];
    var rest := U.Drain(U.Exec(s.up, begin).value);
    U.ExecAppend(s.up, begin, rest);
    LiftSender(s, begin + rest);
    run := Senders(begin + rest);
  }

  lemma {:induction false} StuckEnd(s: State)
    requires s.sink && s.phase.FileClosed? && s.up.closing.ChanClosed? && s.up.sender.Done? && !s.up.failed
    requires s.active && !s.tried
    ensures var run := [SinkClose(U.SenderDone), SinkClose(U.Return), Unlink(true)];
            && Exec(s, run).Some?
            && Exec(s, run).value == s.(up := Exec(s, run).value.up, tried := true, unlinked := true)
  {
    Exec3(s, SinkClose(U.SenderDone), SinkClose(U.Return), Unlink(true));
  }

  /** It happens: after a failed file write the footer is never written, and the file goes all the same. */
  lemma {:induction false} StuckLosesFooter(header: Data, p: Data) returns (run: seq<Act>)
    requires header != [] && p != []
    ensures Exec(Init(true), run).Some?
    ensures var s := Exec(Init(true), run).value;
            s.unlinked && !s.footer && s.file == header && s.out == [header, p]
  {
    var begin := StuckReached(header, p);
    var send := StuckAcked(header, p);
    StuckEnd(Exec(StuckState(header, p), send).value);
    var end := [SinkClose(U.SenderDone), SinkClose(U.Return), Unlink(true)];
    ExecAppend(StuckState(header, p), send, end);
    ExecAppend(Init(true), begin, send + end);
    run := begin + (send + end);
  }
}
