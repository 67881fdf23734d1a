/**
 * The session recorder: events of several kinds arrive in arbitrary slices, are encoded one by one, and end up
 * as one log. The gzip stream and the file behind it are in Delivery.
 */
module Recorder {
  import opened Prelude
  import opened Utf8
  import opened Interval

  datatype Kind = Output | Input | Resize | Exit

  /** One line of the cast: the bytes handed to the JSON encoder, when, and the interval printed for it. */
  datatype Event = Event(kind: Kind, data: seq<Byte>, at: real, ms: int)

  /** The recorder's fields. `held` is the head of a character per kind, `carry` the rounding error. */
  datatype Rec = Rec(log: seq<Event>, lastEvent: real, carry: real, held: map<Kind, seq<Byte>>,
                     exitCode: Option<int>, closed: bool)

  /** The clock readings of the up to three events that closing writes. */
  datatype Times = Times(output: real, input: real, exit: real)

  datatype Op =
    | Record(kind: Kind, data: seq<Byte>, now: real)
    | RecordResize(width: nat, height: nat, now: real)
    | RecordOverLimit(times: Times)
    | RecordExit(status: int)
    | Close(times: Times)

  function New(start: real): Rec { Rec([], start, 0.0, map[], None, false) }

  function Held(r: Rec, k: Kind): seq<Byte> { if k in r.held then r.held[k] else [] }

  function Text(s: string): (b: seq<Byte>)
    ensures |b| == |s|
  {
    seq(|s|, i requires 0 <= i < |s| => s[i] as int % 256)
  }

  function StatusText(code: int): seq<Byte> {
    Text(if code < 0 then "-" + Decimal(-code) else Decimal(code))
  }

  function ResizeText(width: nat, height: nat): seq<Byte> {
    Text(Decimal(width) + "x" + Decimal(height))
  }

  /** The text that ASCII bytes stand for. */
  function Chars(b: seq<Byte>): string { seq(|b|, i requires 0 <= i < |b| => (b[i] % 128) as char) }

  function ReadInt(s: string): int {
    if s != [] && s[0] == '-' then 0 - ReadDecimal(s[1..]) as int else ReadDecimal(s)
  }

  lemma TextReads(s: string)
    requires forall i :: 0 <= i < |s| ==> s[i] < 128 as char
    ensures Chars(Text(s)) == s
  {
  }

  /** The status of an exit event reads back. */
  lemma StatusReads(code: int)
    ensures ReadInt(Chars(StatusText(code))) == code
  {
    var n: nat := if code < 0 then -code else code;
    var d := Decimal(n);
    DecimalRoundTrip(n);
    TextReads(d);
    TextReads("-" + d);
    assert ("-" + d)[1..] == d && Digit(d[0]);
  }

  /** The text of a resize is the width, an x and the height. */
  lemma ResizeReads(width: nat, height: nat)
    ensures exists w, h :: Chars(ResizeText(width, height)) == w + "x" + h && ReadDecimal(w) == width
                           && ReadDecimal(h) == height && 'x' !in w && 'x' !in h
  {
    var w, h := Decimal(width), Decimal(height);
    DecimalRoundTrip(width);
    DecimalRoundTrip(height);
    TextReads(w + "x" + h);
    assert 'x' !in w && 'x' !in h;
  }

  // What each call does, as a function of the fields.

  function AfterEmit(r: Rec, k: Kind, data: seq<Byte>, now: real): Rec {
    var i := RoundInterval(r.carry, Clamp(now - r.lastEvent));
    r.(log := r.log + [Event(k, data, now, i.ms)], lastEvent := now, carry := i.carry)
  }

  ghost function AfterEvent(r: Rec, k: Kind, data: seq<Byte>, now: real): Rec {
    if r.closed then r else
      var p := Held(r, k) + data;
      AfterEmit(r.(held := r.held[k := p[Cut(p)..]]), k, p[..Cut(p)], now)
  }

  function AfterTail(r: Rec, k: Kind, now: real): Rec {
    if Held(r, k) == [] then r else AfterEmit(r, k, Held(r, k), now)
  }

  function AfterStatus(r: Rec, now: real): Rec {
    if r.exitCode.None? then r else AfterEmit(r, Exit, StatusText(r.exitCode.value), now)
  }

  function AfterClose(r: Rec, t: Times): Rec {
    if r.closed then r
    else AfterStatus(AfterTail(AfterTail(r.(closed := true), Output, t.output), Input, t.input), t.exit)
  }

  function AfterExit(r: Rec, status: int): Rec {
    if r.closed then r else r.(exitCode := Some(status))
  }

  ghost function After(r: Rec, op: Op): Rec {
    match op
    case Record(k, data, now) => AfterEvent(r, k, data, now)
    case RecordResize(w, h, now) => AfterEvent(r, Resize, ResizeText(w, h), now)
    case RecordOverLimit(times) => AfterClose(r, times)
    case RecordExit(status) => AfterExit(r, status)
    case Close(times) => AfterClose(r, times)
  }

  ghost function Run(r: Rec, ops: seq<Op>): Rec
    decreases |ops|
  {
    if ops == [] then r else Run(After(r, ops[0]), ops[1..])
  }

  /** Output and input events are the callers' own, the other two kinds have their own calls. */
  predicate Legal(ops: seq<Op>) {
    forall i :: 0 <= i < |ops| ==> ops[i].Record? ==> ops[i].kind in {Output, Input}
  }

  // The text of a recording. The proof is about any encoder that splits where the recorder cuts.

  type Encoder = seq<Byte> -> seq<Byte>

  /** What a player shows for one kind: the decoded payloads of its events, one after the other. */
  function Shown(enc: Encoder, log: seq<Event>, k: Kind): seq<Byte> {
    if log == [] then [] else
      var e := log[|log| - 1];
      Shown(enc, log[..|log| - 1], k) + if e.kind == k then enc(e.data) else []
  }

  /** The calls that close the recording. */
  predicate Ends(op: Op) { op.Close? || op.RecordOverLimit? }

  /** The bytes a kind received until the recording ended, whether closed or over its size limit. */
  function Received(ops: seq<Op>, k: Kind): seq<Byte> {
    if ops == [] then [] else
      if Ends(ops[0]) then [] else Added(ops[0], k) + Received(ops[1..], k)
  }

  ghost predicate Continues(enc: Encoder, shown: seq<Byte>, held: seq<Byte>, seen: seq<Byte>, q: seq<Byte>) {
    shown + enc(held + q) == enc(seen + q)
  }

  /** Whatever comes next, what is shown so far and the held head continue to the encoding of the whole stream. */
  ghost predicate Faithful(enc: Encoder, shown: seq<Byte>, held: seq<Byte>, seen: seq<Byte>) {
    && |held| <= 3
    && forall q :: Continues(enc, shown, held, seen, q)
  }

  ghost predicate FaithfulRec(enc: Encoder, r: Rec, k: Kind, seen: seq<Byte>) {
    Faithful(enc, Shown(enc, r.log, k), Held(r, k), seen)
  }

  lemma ChunkFaithful(enc: Encoder, shown: seq<Byte>, held: seq<Byte>, seen: seq<Byte>, data: seq<Byte>, q: seq<Byte>)
    requires Splits(enc) && Continues(enc, shown, held, seen, data + q)
    ensures var p := held + data;
            Continues(enc, shown + enc(p[..Cut(p)]), p[Cut(p)..], seen + data, q)
  {
    var p := held + data;
    assert SplitsAt(enc, p, q);
    assert held + (data + q) == p + q && seen + (data + q) == (seen + data) + q;
    var a, b := enc(p[..Cut(p)]), enc(p[Cut(p)..] + q);
    assert (shown + a) + b == shown + (a + b);
  }

  lemma StreamFaithful(enc: Encoder, shown: seq<Byte>, held: seq<Byte>, seen: seq<Byte>, data: seq<Byte>)
    requires Splits(enc) && Faithful(enc, shown, held, seen)
    ensures var p := held + data;
            Faithful(enc, shown + enc(p[..Cut(p)]), p[Cut(p)..], seen + data)
  {
    var p := held + data;
    HeadLength(p);
    forall q ensures Continues(enc, shown + enc(p[..Cut(p)]), p[Cut(p)..], seen + data, q) {
      assert Continues(enc, shown, held, seen, data + q);
      ChunkFaithful(enc, shown, held, seen, data, q);
    }
  }

  lemma EndFaithful(enc: Encoder, shown: seq<Byte>, held: seq<Byte>, seen: seq<Byte>)
    requires Faithful(enc, shown, held, seen)
    ensures shown + enc(held) == enc(seen)
  {
    assert Continues(enc, shown, held, seen, []);
    assert held + [] == held && seen + [] == seen;
  }

  lemma {:induction false} ShownAfterEmit(enc: Encoder, r: Rec, k: Kind, data: seq<Byte>, now: real, k': Kind)
    ensures Shown(enc, AfterEmit(r, k, data, now).log, k') == Shown(enc, r.log, k') + if k == k' then enc(data) else []
  {
    var log := AfterEmit(r, k, data, now).log;
    assert log[..|log| - 1] == r.log;
  }

  lemma {:induction false} EventFaithful(enc: Encoder, r: Rec, k: Kind, data: seq<Byte>, now: real, k': Kind,
                                         seen: seq<Byte>)
    requires Splits(enc) && !r.closed && FaithfulRec(enc, r, k', seen)
    ensures FaithfulRec(enc, AfterEvent(r, k, data, now), k', if k == k' then seen + data else seen)
  {
    var p := Held(r, k) + data;
    ShownAfterEmit(enc, r.(held := r.held[k := p[Cut(p)..]]), k, p[..Cut(p)], now, k');
    if k == k' {
      StreamFaithful(enc, Shown(enc, r.log, k), Held(r, k), seen, data);
    } else {
      Empty(Shown(enc, r.log, k'));
      assert Held(AfterEvent(r, k, data, now), k') == Held(r, k');
    }
  }

  /** A held head is at most three bytes. */
  lemma HeadLength(p: seq<Byte>)
    ensures |p[Cut(p)..]| <= 3
  {
    if PendingHead(p) > 0 { HeadShape(p[Cut(p)..]); }
  }

  lemma ResizeEndsAscii(w: nat, h: nat)
    ensures var p := ResizeText(w, h); p != [] && p[|p| - 1] < 0x80
  {
    var p, d := ResizeText(w, h), Decimal(h);
    assert p[|p| - 1] == d[|d| - 1] as int;
  }

  /** Resize texts are ASCII, so nothing of them is ever held back. */
  lemma ResizeNeverHeld(r: Rec, w: nat, h: nat, now: real)
    requires Held(r, Resize) == [] && !r.closed
    ensures Held(AfterEvent(r, Resize, ResizeText(w, h), now), Resize) == []
  {
    Empty(ResizeText(w, h));
    ResizeEndsAscii(w, h);
    AsciiEnd(ResizeText(w, h));
  }

  lemma {:induction false} ShownAfterTail(enc: Encoder, r: Rec, k: Kind, now: real, k': Kind)
    requires enc([]) == []
    ensures var r' := AfterTail(r, k, now);
            && r'.held == r.held
            && Shown(enc, r'.log, k')
               == if k == k' then Shown(enc, r.log, k') + enc(Held(r, k)) else Shown(enc, r.log, k')
  {
    ShownAfterEmit(enc, r, k, Held(r, k), now, k');
    Empty(Shown(enc, r.log, k'));
  }

  lemma {:induction false} ShownAfterTails(enc: Encoder, r: Rec, t: Times, k: Kind)
    requires enc([]) == [] && k != Exit && (k == Resize ==> Held(r, k) == [])
    ensures Shown(enc, AfterTail(AfterTail(r, Output, t.output), Input, t.input).log, k)
            == Shown(enc, r.log, k) + enc(Held(r, k))
  {
    ShownAfterTail(enc, r, Output, t.output, k);
    ShownAfterTail(enc, AfterTail(r, Output, t.output), Input, t.input, k);
    Empty(Shown(enc, r.log, k));
  }

  lemma {:induction false} ShownAfterClose(enc: Encoder, r: Rec, t: Times, k: Kind)
    requires enc([]) == [] && !r.closed && k != Exit && (k == Resize ==> Held(r, k) == [])
    ensures Shown(enc, AfterClose(r, t).log, k) == Shown(enc, r.log, k) + enc(Held(r, k))
  {
    var r0 := r.(closed := true);
    ShownAfterTails(enc, r0, t, k);
    ShownAfterStatus(enc, AfterTail(AfterTail(r0, Output, t.output), Input, t.input), t.exit, k);
  }

  lemma {:induction false} ShownAfterStatus(enc: Encoder, r: Rec, now: real, k: Kind)
    requires k != Exit
    ensures Shown(enc, AfterStatus(r, now).log, k) == Shown(enc, r.log, k)
  {
    if r.exitCode.Some? {
      ShownAfterEmit(enc, r, Exit, StatusText(r.exitCode.value), now, k);
      Empty(Shown(enc, r.log, k));
    }
  }

  lemma {:induction false} CloseFaithful(enc: Encoder, r: Rec, t: Times, k: Kind, seen: seq<Byte>)
    requires Splits(enc) && !r.closed && FaithfulRec(enc, r, k, seen) && k != Exit && (k == Resize ==> Held(r, k) == [])
    ensures Shown(enc, AfterClose(r, t).log, k) == enc(seen)
  {
    ShownAfterClose(enc, r, t, k);
    EndFaithful(enc, Shown(enc, r.log, k), Held(r, k), seen);
  }

  lemma {:induction false} RunClosed(r: Rec, ops: seq<Op>)
    requires r.closed
    ensures Run(r, ops) == r
  {
    if ops != [] { RunClosed(r, ops[1..]); }
  }

  /** The bytes one call adds to the stream of a kind. */
  function Added(op: Op, k: Kind): seq<Byte> {
    match op
    case Record(kind, data, _) => if kind == k then data else []
    case RecordResize(w, h, _) => if k == Resize then ResizeText(w, h) else []
    case _ => []
  }

  /** What holds of a kind after any number of calls. */
  ghost predicate Upheld(enc: Encoder, r: Rec, k: Kind, seen: seq<Byte>) {
    if r.closed then Shown(enc, r.log, k) == enc(seen)
    else FaithfulRec(enc, r, k, seen) && Held(r, Resize) == []
  }

  lemma {:induction false} ResizeFaithful(enc: Encoder, r: Rec, w: nat, h: nat, now: real, k: Kind, seen: seq<Byte>)
    requires Splits(enc) && k != Exit && !r.closed && Upheld(enc, r, k, seen)
    ensures var op := RecordResize(w, h, now); Upheld(enc, After(r, op), k, seen + Added(op, k))
  {
    Empty(seen);
    EventFaithful(enc, r, Resize, ResizeText(w, h), now, k, seen);
    ResizeNeverHeld(r, w, h, now);
  }

  lemma {:induction false} RecordFaithful(enc: Encoder, r: Rec, kind: Kind, data: seq<Byte>, now: real, k: Kind,
                                          seen: seq<Byte>)
    requires Splits(enc) && kind in {Output, Input} && !r.closed && Upheld(enc, r, k, seen)
    ensures var op := Record(kind, data, now); Upheld(enc, After(r, op), k, seen + Added(op, k))
  {
    Empty(seen);
    EventFaithful(enc, r, kind, data, now, k, seen);
  }

  lemma {:induction false} EndsFaithful(enc: Encoder, r: Rec, t: Times, k: Kind, seen: seq<Byte>)
    requires Splits(enc) && k != Exit && !r.closed && Upheld(enc, r, k, seen)
    ensures AfterClose(r, t).closed && Upheld(enc, AfterClose(r, t), k, seen)
  {
    CloseFaithful(enc, r, t, k, seen);
  }

  lemma {:induction false} StepFaithful(enc: Encoder, r: Rec, op: Op, k: Kind, seen: seq<Byte>)
    requires Splits(enc) && k != Exit && !r.closed && Upheld(enc, r, k, seen)
    requires op.Record? ==> op.kind in {Output, Input}
    ensures Upheld(enc, After(r, op), k, seen + Added(op, k))
  {
    match op
    case Record(kind, data, now) => RecordFaithful(enc, r, kind, data, now, k, seen);
    case RecordResize(w, h, now) => ResizeFaithful(enc, r, w, h, now, k, seen);
    case RecordExit(status) => Empty(seen);
    case RecordOverLimit(t) => EndsFaithful(enc, r, t, k, seen); Empty(seen);
    case Close(t) => EndsFaithful(enc, r, t, k, seen); Empty(seen);
  }

  /** Only the end of the recording cuts a stream short. */
  lemma {:induction false} ReceivedStep(r: Rec, ops: seq<Op>, k: Kind)
    requires !r.closed && ops != []
    ensures After(r, ops[0]).closed ==> Received(ops, k) == [] == Added(ops[0], k)
    ensures !After(r, ops[0]).closed ==> Received(ops, k) == Added(ops[0], k) + Received(ops[1..], k)
  {
  }

  lemma {:induction false} RunFaithful(enc: Encoder, r: Rec, ops: seq<Op>, k: Kind, seen: seq<Byte>)
    requires Splits(enc) && Legal(ops) && k != Exit && !r.closed && Upheld(enc, r, k, seen)
    ensures Upheld(enc, Run(r, ops), k, seen + Received(ops, k))
    decreases |ops|
  {
    if ops == [] {
      Empty(seen);
    } else {
      var op, r1 := ops[0], After(r, ops[0]);
      StepFaithful(enc, r, op, k, seen);
      ReceivedStep(r, ops, k);
      if r1.closed {
        RunClosed(r1, ops[1..]);
      } else {
        RunFaithful(enc, r1, ops[1..], k, seen + Added(op, k));
        Assoc(seen, Added(op, k), Received(ops[1..], k));
      }
    }
  }

  /**
   * However a stream was cut into events, and whatever other kinds came between them, a closed recording shows
   * exactly what encoding the whole stream at once shows. An open one still holds at most three bytes of it.
   */
  lemma {:induction false} RecordingShowsWholeStream(start: real, ops: seq<Op>, k: Kind)
    requires Legal(ops) && k != Exit
    ensures var r := Run(New(start), ops);
            && (r.closed ==> Shown(Sanitize, r.log, k) == Sanitize(Received(ops, k)))
            && (!r.closed ==> |Held(r, k)| <= 3 &&
                              Shown(Sanitize, r.log, k) + Sanitize(Held(r, k)) == Sanitize(Received(ops, k)))
  {
    var r0 := New(start);
    SanitizeIsSplitting();
    assert FaithfulRec(Sanitize, r0, k, []) by {
      forall q ensures Continues(Sanitize, [], [], [], q) { assert [] + q == q; }
    }
    RunFaithful(Sanitize, r0, ops, k, []);
    Empty(Received(ops, k));
    var r := Run(r0, ops);
    if !r.closed { EndFaithful(Sanitize, Shown(Sanitize, r.log, k), Held(r, k), Received(ops, k)); }
  }

  // The exit event.

  /** No exit event before the close, and after it exactly the last event, if a status was recorded. */
  ghost predicate ExitLast(r: Rec) {
    var n := |r.log|;
    && (forall i :: 0 <= i < n && r.log[i].kind == Exit ==> i == n - 1 && r.closed && r.exitCode.Some?)
    && (r.closed && r.exitCode.Some? ==> n > 0 && r.log[n - 1].kind == Exit
                                         && r.log[n - 1].data == StatusText(r.exitCode.value))
  }

  /** Nothing but the status writes an exit event. */
  ghost predicate NoExit(log: seq<Event>) { forall i :: 0 <= i < |log| ==> log[i].kind != Exit }

  /** Events without their times. */
  function Lines(log: seq<Event>): seq<(Kind, seq<Byte>)> {
    seq(|log|, i requires 0 <= i < |log| => (log[i].kind, log[i].data))
  }

  function LineIf(b: bool, k: Kind, data: seq<Byte>): seq<(Kind, seq<Byte>)> { if b then [(k, data)] else [] }

  lemma TailLines(r: Rec, k: Kind, now: real)
    ensures Lines(AfterTail(r, k, now).log) == Lines(r.log) + LineIf(Held(r, k) != [], k, Held(r, k))
    ensures AfterTail(r, k, now).held == r.held && AfterTail(r, k, now).exitCode == r.exitCode
  {
  }

  /** Closing writes what was held back of the output, then of the input, and the status last. */
  lemma CloseWritesInOrder(r: Rec, t: Times)
    requires !r.closed
    ensures var c := AfterClose(r, t);
            && c.closed
            && Lines(c.log) == Lines(r.log) + LineIf(Held(r, Output) != [], Output, Held(r, Output))
                               + LineIf(Held(r, Input) != [], Input, Held(r, Input))
                               + (if r.exitCode.Some? then [(Exit, StatusText(r.exitCode.value))] else [])
  {
    var r0 := r.(closed := true);
    TailLines(r0, Output, t.output);
    var r1 := AfterTail(r0, Output, t.output);
    TailLines(r1, Input, t.input);
    var r2 := AfterTail(r1, Input, t.input);
    if r.exitCode.Some? {
      assert Lines(AfterStatus(r2, t.exit).log) == Lines(r2.log) + [(Exit, StatusText(r.exitCode.value))];
    } else {
      Empty(Lines(r2.log));
    }
  }

  lemma CloseExitLast(r: Rec, t: Times)
    requires !r.closed && NoExit(r.log)
    ensures ExitLast(AfterClose(r, t))
  {
    var tails := AfterTail(AfterTail(r.(closed := true), Output, t.output), Input, t.input);
    assert NoExit(tails.log) && tails.exitCode == r.exitCode && tails.closed;
    assert ExitLast(AfterStatus(tails, t.exit));
  }

  lemma StepExitLast(r: Rec, op: Op)
    requires ExitLast(r) && (op.Record? ==> op.kind in {Output, Input})
    ensures ExitLast(After(r, op))
  {
    if !r.closed {
      assert NoExit(r.log);
      match op
      case Record(_, _, _) => assert NoExit(After(r, op).log);
      case RecordResize(_, _, _) => assert NoExit(After(r, op).log);
      case RecordOverLimit(t) => CloseExitLast(r, t);
      case RecordExit(_) =>
      case Close(t) => CloseExitLast(r, t);
    }
  }

  lemma {:induction false} RunExitLast(r: Rec, ops: seq<Op>)
    requires Legal(ops) && ExitLast(r)
    ensures ExitLast(Run(r, ops))
    decreases |ops|
  {
    if ops != [] {
      StepExitLast(r, ops[0]);
      RunExitLast(After(r, ops[0]), ops[1..]);
    }
  }

  /** The calls before the one that ended the recording. */
  function BeforeEnd(ops: seq<Op>): seq<Op> {
    if ops == [] || Ends(ops[0]) then [] else [ops[0]] + BeforeEnd(ops[1..])
  }

  /** The last status among these calls, `status` if there is none. */
  function LastStatus(status: Option<int>, ops: seq<Op>): Option<int>
    decreases |ops|
  {
    if ops == [] then status
    else LastStatus(if ops[0].RecordExit? then Some(ops[0].status) else status, ops[1..])
  }

  lemma {:induction false} RunStatus(r: Rec, ops: seq<Op>)
    requires !r.closed
    ensures Run(r, ops).exitCode == LastStatus(r.exitCode, BeforeEnd(ops))
    ensures Run(r, ops).closed <==> exists i :: 0 <= i < |ops| && Ends(ops[i])
    decreases |ops|
  {
    if ops != [] {
      var r1 := After(r, ops[0]);
      if Ends(ops[0]) {
        RunClosed(r1, ops[1..]);
      } else {
        assert BeforeEnd(ops)[1..] == BeforeEnd(ops[1..]);
        RunStatus(r1, ops[1..]);
        var rest := ops[1..];
        assert (exists i :: 0 <= i < |ops| && Ends(ops[i])) <==> exists i :: 0 <= i < |rest| && Ends(rest[i]) by {
          assert forall i :: 0 <= i < |rest| ==> rest[i] == ops[i + 1];
          assert forall i :: 0 < i < |ops| ==> ops[i] == rest[i - 1];
        }
      }
    }
  }

  /**
   * After any calls there is an exit event exactly if the recording ended and a status was recorded before that. It
   * is the last event and carries the last such status.
   */
  lemma ExitIsLastEvent(start: real, ops: seq<Op>)
    requires Legal(ops)
    ensures var log := Run(New(start), ops).log;
            var status := LastStatus(None, BeforeEnd(ops));
            if status.Some? && exists i :: 0 <= i < |ops| && Ends(ops[i])
            then log != [] && NoExit(log[..|log| - 1]) && log[|log| - 1].kind == Exit
                 && ReadInt(Chars(log[|log| - 1].data)) == status.value
            else NoExit(log)
  {
    var status := LastStatus(None, BeforeEnd(ops));
    if status.Some? { StatusReads(status.value); }
    RunExitLast(New(start), ops);
    RunStatus(New(start), ops);
  }

  // The timing of a recording.

  function SumMs(log: seq<Event>): int {
    if log == [] then 0 else SumMs(log[..|log| - 1]) + log[|log| - 1].ms
  }

  /** When the event before the end of `log` happened. */
  function Before(start: real, log: seq<Event>): real { if log == [] then start else log[|log| - 1].at }

  /** The clamped gaps between the events, from the start of the recording on. */
  function SumGaps(start: real, log: seq<Event>): real {
    if log == [] then 0.0 else
      var init := log[..|log| - 1];
      SumGaps(start, init) + Clamp(log[|log| - 1].at - Before(start, init))
  }

  function Drift(start: real, log: seq<Event>): real { SumGaps(start, log) - SumMs(log) as real }

  /** Every interval is its gap rounded together with the drift so far. */
  ghost predicate Timed(start: real, log: seq<Event>) {
    log == [] ||
    (var init, e := log[..|log| - 1], log[|log| - 1];
     Timed(start, init) && e.ms == RoundInterval(Drift(start, init), Clamp(e.at - Before(start, init))).ms)
  }

  ghost predicate TimedRec(start: real, r: Rec) {
    && Timed(start, r.log)
    && r.carry == Drift(start, r.log)
    && r.lastEvent == Before(start, r.log)
    && CarryOk(r.carry)
  }

  lemma {:induction false} EmitTimed(start: real, r: Rec, k: Kind, data: seq<Byte>, now: real)
    requires TimedRec(start, r)
    ensures TimedRec(start, AfterEmit(r, k, data, now))
  {
    var log := AfterEmit(r, k, data, now).log;
    assert log[..|log| - 1] == r.log;
    CarryStaysSmall(r.carry, Clamp(now - r.lastEvent));
  }

  lemma {:induction false} TailTimed(start: real, r: Rec, k: Kind, now: real)
    requires TimedRec(start, r)
    ensures TimedRec(start, AfterTail(r, k, now))
  {
    EmitTimed(start, r, k, Held(r, k), now);
  }

  lemma {:induction false} StatusTimed(start: real, r: Rec, now: real)
    requires TimedRec(start, r)
    ensures TimedRec(start, AfterStatus(r, now))
  {
    if r.exitCode.Some? { EmitTimed(start, r, Exit, StatusText(r.exitCode.value), now); }
  }

  lemma {:induction false} CloseTimed(start: real, r: Rec, t: Times)
    requires TimedRec(start, r)
    ensures TimedRec(start, AfterClose(r, t))
  {
    var r0 := r.(closed := true);
    TailTimed(start, r0, Output, t.output);
    var r1 := AfterTail(r0, Output, t.output);
    TailTimed(start, r1, Input, t.input);
    StatusTimed(start, AfterTail(r1, Input, t.input), t.exit);
  }

  lemma {:induction false} RunTimed(start: real, r: Rec, ops: seq<Op>)
    requires TimedRec(start, r)
    ensures TimedRec(start, Run(r, ops))
    decreases |ops|
  {
    if ops != [] {
      var r1 := After(r, ops[0]);
      assert TimedRec(start, r1) by {
        match ops[0]
        case Record(k, data, now) => EventTimed(start, r, k, data, now);
        case RecordResize(w, h, now) => EventTimed(start, r, Resize, ResizeText(w, h), now);
        case RecordOverLimit(t) => CloseTimed(start, r, t);
        case RecordExit(_) =>
        case Close(t) => CloseTimed(start, r, t);
      }
      RunTimed(start, r1, ops[1..]);
    }
  }

  lemma {:induction false} EventTimed(start: real, r: Rec, k: Kind, data: seq<Byte>, now: real)
    requires TimedRec(start, r)
    ensures TimedRec(start, AfterEvent(r, k, data, now))
  {
    var p := Held(r, k) + data;
    EmitTimed(start, r.(held := r.held[k := p[Cut(p)..]]), k, p[..Cut(p)], now);
  }

  /** The idle time that playback skips: of every gap what is beyond two seconds. */
  function Idle(start: real, log: seq<Event>): real {
    if log == [] then 0.0 else
      var init := log[..|log| - 1];
      var gap := log[|log| - 1].at - Before(start, init);
      Idle(start, init) + if gap > 2000.0 then gap - 2000.0 else 0.0
  }

  lemma {:induction false} GapsAndIdle(start: real, log: seq<Event>)
    ensures SumGaps(start, log) + Idle(start, log) == Before(start, log) - start
    decreases |log|
  {
    if log != [] { GapsAndIdle(start, log[..|log| - 1]); }
  }

  /**
   * However many events: the printed intervals and the idle time beyond two seconds of every gap sum to the time
   * from the start to the last event, within half a millisecond.
   */
  lemma PrintedTimeIsRealTime(start: real, ops: seq<Op>)
    ensures var log := Run(New(start), ops).log;
            && Timed(start, log)
            && -0.5 <= SumMs(log) as real + Idle(start, log) - (Before(start, log) - start) <= 0.5
  {
    RunTimed(start, New(start), ops);
    GapsAndIdle(start, Run(New(start), ops).log);
  }

  lemma {:induction false} TimedPrefix(start: real, log: seq<Event>, n: nat)
    requires Timed(start, log) && n <= |log|
    ensures Timed(start, log[..n]) && CarryOk(Drift(start, log[..n]))
    decreases |log|
  {
    if n < |log| {
      TimedPrefix(start, log[..|log| - 1], n);
      assert log[..|log| - 1][..n] == log[..n];
    } else if log != [] {
      assert log[..n] == log;
      var init, e := log[..|log| - 1], log[|log| - 1];
      CarryStaysSmall(Drift(start, init), Clamp(e.at - Before(start, init)));
    } else {
      assert log[..n] == [];
    }
  }

  /**
   * With a clock that never runs back, the interval printed for event `n` is a readable number unless the event
   * comes at the very instant of the one before it while the printed time is half a millisecond ahead.
   */
  lemma {:induction false} UnreadableInterval(start: real, log: seq<Event>, n: nat)
    requires n < |log| && Timed(start, log) && log[n].at >= Before(start, log[..n])
    ensures IsInterval(Print(log[n].ms)) <==>
            !(log[n].at == Before(start, log[..n]) && Drift(start, log[..n]) == -0.5)
  {
    TimedPrefix(start, log, n);
    TimedPrefix(start, log, n + 1);
    var upto := log[..n + 1];
    assert upto[..|upto| - 1] == log[..n] && upto[|upto| - 1] == log[n];
    NegativeInterval(Drift(start, log[..n]), Clamp(log[n].at - Before(start, log[..n])));
    PrintRoundTrip(log[n].ms);
  }

  /** It happens: a gap of half a millisecond followed by none prints an interval no player can read. */
  lemma UnreadableIntervalHappens()
    ensures var ops := [Record(Output, [65], 0.5), Record(Output, [66], 0.5)];
            var log := Run(New(0.0), ops).log;
            |log| == 2 && log[1].ms == -1 && !IsInterval(Print(log[1].ms))
  {
    var a, b := Record(Output, [65], 0.5), Record(Output, [66], 0.5);
    var ops := [a, b];
    var r0 := New(0.0);
    assert [] + [65] == [65] && [] + [66] == [66];
    AsciiEnd([65]);
    AsciiEnd([66]);
    var r1 := After(r0, a);
    assert Round(0.5) == 1;
    assert r1.carry == -0.5 && r1.lastEvent == 0.5 && Held(r1, Output) == [];
    var r2 := After(r1, b);
    assert Round(-0.5) == -1;
    assert ops[1..] == [b] && [b][1..] == [];
    assert Run(r0, ops) == Run(r1, [b]) == Run(r2, []) == r2;
    PrintRoundTrip(-1);
  }

  /** The recorder object. Its mutex makes every call one step, so each is specified by one of the functions above. */
  class SessionRecorder {
    var log: seq<Event>
    var lastEvent: real
    var msCarry: real
    var partial: map<Kind, seq<Byte>>
    var exitCode: Option<int>
    var closed: bool
    const maxSize: int

    ghost function View(): Rec
      reads this
    {
      Rec(log, lastEvent, msCarry, partial, exitCode, closed)
    }

    constructor (start: real, limit: int)
      ensures View() == New(start) && maxSize == limit
    {
      log, lastEvent, msCarry, partial, exitCode, closed := [], start, 0.0, map[], None, false;
      maxSize := limit;
    }

    method Emit(k: Kind, data: seq<Byte>, now: real)
      modifies this
      ensures View() == AfterEmit(old(View()), k, data, now)
    {
      var gap := now - lastEvent;
      if gap > MAX_IDLE { gap := MAX_IDLE; }
      lastEvent := now;
      msCarry := msCarry + gap;
      var ms := Round(msCarry);
      msCarry := msCarry - ms as real;
      log := log + [Event(k, data, now, ms)];
    }

    /** `written` is the compressed size so far. `limit` tells the caller to end the session. */
    method HandleEvent(k: Kind, data: seq<Byte>, written: int, now: real, t: Times) returns (limit: bool)
      modifies this
      ensures limit == (!old(closed) && written >= maxSize)
      ensures View() == if limit then AfterClose(old(View()), t) else AfterEvent(old(View()), k, data, now)
    {
      if closed { return false; }
      if written < maxSize {
        var p := data;
        if k in partial && |partial[k]| > 0 { p := partial[k] + data; }
        assert p == Held(View(), k) + data by { Empty(data); }
        var tail := IncompleteTail(p);
        var cut := |p| - tail;
        assert cut == Cut(p);
        partial := partial[k := p[cut..]];
        Emit(k, p[..cut], now);
        return false;
      }
      CloseLocked(t);
      return true;
    }

    method RecordExit(status: int)
      modifies this
      ensures View() == AfterExit(old(View()), status)
    {
      if closed { return; }
      exitCode := Some(status);
    }

    method CloseLocked(t: Times)
      modifies this
      ensures View() == AfterClose(old(View()), t)
    {
      if closed { return; }
      closed := true;
      if Output in partial && |partial[Output]| > 0 { Emit(Output, partial[Output], t.output); }
      if Input in partial && |partial[Input]| > 0 { Emit(Input, partial[Input], t.input); }
      if exitCode.Some? { Emit(Exit, StatusText(exitCode.value), t.exit); }
    }
  }
}
