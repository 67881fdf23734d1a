/**
 * The live upload of one recording: writers fill a bounded queue, one sender drains it into a stream, and Close
 * waits for the sender or gives up. Each action is one critical section, one channel operation or one call on
 * the stream, and every interleaving of them is a run. Stream calls succeed or fail as the action says.
 */
module Uploader {
  import opened Prelude

  type Data = seq<Byte>

  const MAX_BUFFERED := 64

  datatype Msg = Meta | Chunk(data: Data) | Final

  /** Where sendLoop stands. `Failing` and `FailingFinal` are about to take the mutex to record the error. */
  datatype Sender =
    Receiving | Have(chunk: Data) | Failing | LoopDone | Finishing(finalSent: bool) | FailingFinal | Done

  /** Where finish stands. `Marked` has set the closed flag, `Waited` is past the select. */
  datatype Closing = Open | Marked | ChanClosed | Waited(timedOut: bool) | Returned(ok: bool)

  /**
   * `failed` is whether an error was recorded, `closed` the flag and `chanClosed` whether the channel was closed.
   * `wire` is what the backend got on the stream, `acked` what it acknowledged.
   * `written` and `taken` record the non-empty chunks written before Close and those the sender received.
   */
  datatype State = State(
    queue: seq<Data>, failed: bool, closed: bool, chanClosed: bool, closing: Closing,
    sender: Sender, stream: bool, broken: bool, opens: nat, wire: seq<Msg>, acked: Option<seq<Msg>>,
    written: seq<Data>, taken: seq<Data>)

  function Init(): State {
    State([], false, false, false, Open, Receiving, false, false, 0, [], None, [], [])
  }

  datatype Act =
    | Write(p: Data)
    | Take | EndOfQueue | Discard
    | OpenOk | OpenFail(metaArrived: bool)
    | SendOk | SendFail(arrived: bool)
    | Fail
    | SkipFinal | SendFinal(sent: bool) | Receive(ok: bool) | FailFinal
    | Mark | CloseChannel | SenderDone | Timeout | Return

  /** A failed send of Final surfaces through the answer, so an acknowledgement implies it was sent. */
  predicate Can(s: State, a: Act) {
    match a
    case Write(p) => true
    case Take => s.sender.Receiving? && s.queue != []
    case EndOfQueue => s.sender.Receiving? && s.queue == [] && s.chanClosed
    case Discard => s.sender.Have? && s.broken
    case OpenOk => s.sender.Have? && !s.broken && !s.stream
    case OpenFail(_) => s.sender.Have? && !s.broken && !s.stream
    case SendOk => s.sender.Have? && !s.broken && s.stream
    case SendFail(_) => s.sender.Have? && !s.broken && s.stream
    case Fail => s.sender.Failing?
    case SkipFinal => s.sender.LoopDone? && (!s.stream || s.broken)
    case SendFinal(_) => s.sender.LoopDone? && s.stream && !s.broken
    case Receive(ok) => s.sender.Finishing? && (ok ==> s.sender.finalSent)
    case FailFinal => s.sender.FailingFinal?
    case Mark => s.closing.Open?
    case CloseChannel => s.closing.Marked?
    case SenderDone => s.closing.ChanClosed? && s.sender.Done?
    case Timeout => s.closing.ChanClosed?
    case Return => s.closing.Waited?
  }

  /** Write drops what is empty, late or after a failure, and fails the upload when the queue is full. */
  function AfterWrite(s: State, p: Data): State {
    if p == [] || s.closed then s
    else if s.failed then s.(written := s.written + [p])
    else if |s.queue| < MAX_BUFFERED then s.(queue := s.queue + [p], written := s.written + [p])
    else s.(failed := true, written := s.written + [p])
  }

  function Do(s: State, a: Act): State
    requires Can(s, a)
  {
    match a
    case Write(p) => AfterWrite(s, p)
    case Take => s.(queue := s.queue[1..], sender := Have(s.queue[0]), taken := s.taken + [s.queue[0]])
    case EndOfQueue => s.(sender := LoopDone)
    case Discard => s.(sender := Receiving)
    case OpenOk => s.(stream := true, opens := s.opens + 1, wire := [Meta])
    case OpenFail(arrived) => s.(sender := Failing, opens := s.opens + 1, wire := if arrived then [Meta] else [])
    case SendOk => s.(sender := Receiving, wire := s.wire + [Chunk(s.sender.chunk)])
    case SendFail(arrived) =>
      s.(sender := Failing, wire := if arrived then s.wire + [Chunk(s.sender.chunk)] else s.wire)
    case Fail => s.(sender := Receiving, failed := true, broken := true)
    case SkipFinal => s.(sender := Done)
    case SendFinal(sent) => s.(sender := Finishing(sent), wire := if sent then s.wire + [Final] else s.wire)
    case Receive(ok) => if ok then s.(sender := Done, acked := Some(s.wire)) else s.(sender := FailingFinal)
    case FailFinal => s.(sender := Done, failed := true)
    case Mark => s.(closing := Marked, closed := true)
    case CloseChannel => s.(closing := ChanClosed, chanClosed := true)
    case SenderDone => s.(closing := Waited(false))
    case Timeout => s.(closing := Waited(true))
    case Return => s.(closing := Returned(!s.failed && !s.closing.timedOut))
  }

  /** The state after a run, None when an action of it was not possible. */
  function Exec(s: State, run: seq<Act>): Option<State>
    decreases |run|
  {
    if run == [] then Some(s)
    else if Can(s, run[0]) then Exec(Do(s, run[0]), run[1..])
    else None
  }

  // What the wire must look like.

  function Chunks(cs: seq<Data>): (ms: seq<Msg>)
    ensures |ms| == |cs|
  {
    if cs == [] then [] else Chunks(cs[..|cs| - 1]) + [Chunk(cs[|cs| - 1])]
  }

  /** The one good beginning of a stream: Meta and then these chunks. */
  function Started(cs: seq<Data>): seq<Msg> { [Meta] + Chunks(cs) }

  function Complete(cs: seq<Data>): seq<Msg> { Started(cs) + [Final] }

  function WithoutFinal(wire: seq<Msg>): seq<Msg> {
    if wire != [] && wire[|wire| - 1] == Final then wire[..|wire| - 1] else wire
  }

  lemma {:induction false} StartedMore(cs: seq<Data>, c: Data)
    ensures Started(cs + [c]) == Started(cs) + [Chunk(c)]
  {
    assert (cs + [c])[..|cs|] == cs;
    Assoc([Meta], Chunks(cs), [Chunk(c)]);
  }

  lemma {:induction false} StartedNotFinal(cs: seq<Data>)
    ensures WithoutFinal(Started(cs)) == Started(cs) && WithoutFinal(Complete(cs)) == Started(cs)
  {
    var w := Started(cs);
    assert cs != [] ==> w[|w| - 1] == Chunk(cs[|cs| - 1]);
    assert Complete(cs)[..|w|] == w;
  }

  lemma {:induction false} StartedPrefix(cs: seq<Data>, ds: seq<Data>)
    requires cs <= ds
    ensures Started(cs) <= Started(ds)
    decreases |ds|
  {
    if |cs| < |ds| {
      var init, last := ds[..|ds| - 1], ds[|ds| - 1];
      StartedPrefix(cs, init);
      assert ds == init + [last];
      StartedMore(init, last);
      PrefixTrans(Started(cs), Started(init), Started(ds));
    } else {
      assert cs == ds;
    }
  }

  // The invariant.

  /** The accepted chunks are the first of those written, all of them until an overflow. */
  ghost predicate QueueOk(s: State) {
    && |s.queue| <= MAX_BUFFERED
    && s.taken + s.queue <= s.written
    && (!s.failed ==> s.taken + s.queue == s.written)
    && (s.failed && !s.broken && !(s.sender.Done? && s.acked.None?) ==> s.taken + s.queue < s.written)
  }

  /** While the stream is healthy the wire holds exactly what the sender took and handled. */
  ghost predicate WireOk(s: State) {
    && WithoutFinal(s.wire) <= Started(s.taken)
    && (!s.stream && !s.broken && !s.sender.Failing? ==> s.wire == [] && s.opens == 0)
    && s.opens <= 1
    && (s.stream ==> s.opens == 1)
    && (s.sender.Have? && !s.broken && !s.stream ==> |s.taken| == 1)
    && (s.stream && !s.broken ==>
          match s.sender
          case Receiving => s.wire == Started(s.taken)
          case LoopDone => s.wire == Started(s.taken)
          case Have(c) => s.taken != [] && s.wire == Started(s.taken[..|s.taken| - 1])
          case Finishing(sent) => s.wire == if sent then Complete(s.taken) else Started(s.taken)
          case _ => true)
    && (s.sender.Have? ==> s.taken != [] && s.taken[|s.taken| - 1] == s.sender.chunk)
  }

  ghost predicate SenderOk(s: State) {
    && (s.broken ==> s.failed)
    && (s.sender in {LoopDone, FailingFinal, Done} || s.sender.Finishing? ==> s.chanClosed && s.queue == [])
    && (s.sender.Finishing? || s.sender.FailingFinal? ==> s.stream && !s.broken)
    && (s.sender.Failing? ==> !s.broken)
    && (s.sender in {Receiving, LoopDone} && !s.broken && !s.stream ==> s.taken == [])
    && (s.acked.Some? ==> s.sender.Done? && !s.broken && s.opens == 1 && s.acked.value == Complete(s.taken))
    && (s.sender.Done? && !s.failed ==> s.acked.Some? || (s.taken == [] && s.opens == 0))
  }

  ghost predicate CloseOk(s: State) {
    && s.closed == (s.closing != Open)
    && (s.closing.ChanClosed? || s.closing.Waited? || s.closing.Returned? ==> s.chanClosed)
    && (s.chanClosed ==> s.closed && s.closing != Marked)
    && (s.closing == Waited(false) ==> s.sender.Done?)
    && (s.closing == Returned(true) ==> s.sender.Done? && !s.failed)
  }

  ghost predicate Inv(s: State) { QueueOk(s) && WireOk(s) && SenderOk(s) && CloseOk(s) }

  lemma WriteKeepsInv(s: State, p: Data)
    requires Inv(s)
    ensures Inv(AfterWrite(s, p))
  {
  }

  lemma TakeKeepsQueue(s: State)
    requires QueueOk(s) && Can(s, Take)
    ensures QueueOk(Do(s, Take))
  {
    MoveHead(s.taken, s.queue);
  }

  /** One more chunk is in hand and not on the wire yet. */
  lemma TakeKeepsWire(s: State)
    requires WireOk(s) && SenderOk(s) && Can(s, Take)
    ensures WireOk(Do(s, Take))
  {
    var taken := s.taken + [s.queue[0]];
    MoveHead(s.taken, s.queue);
    StartedPrefix(s.taken, taken);
    PrefixTrans(WithoutFinal(s.wire), Started(s.taken), Started(taken));
  }

  lemma TakeKeepsInv(s: State)
    requires Inv(s) && Can(s, Take)
    ensures Inv(Do(s, Take))
  {
    TakeKeepsQueue(s);
    TakeKeepsWire(s);
  }

  lemma OpenKeepsInv(s: State, a: Act)
    requires Inv(s) && Can(s, a) && (a.OpenOk? || a.OpenFail?)
    ensures Inv(Do(s, a))
  {
    assert Started([]) == [Meta];
    StartedPrefix([], s.taken);
    assert s.taken[..0] == [];
  }

  lemma SendKeepsInv(s: State, a: Act)
    requires Inv(s) && Can(s, a) && (a.SendOk? || a.SendFail?)
    ensures Inv(Do(s, a))
  {
    var init := s.taken[..|s.taken| - 1];
    assert s.taken == init + [s.sender.chunk];
    StartedMore(init, s.sender.chunk);
    StartedNotFinal(init);
    StartedNotFinal(s.taken);
    StartedPrefix(init, s.taken);
    var t := Do(s, a);
    assert t.wire == Started(s.taken) || t.wire == Started(init);
    assert WireOk(t);
  }

  lemma FailKeepsInv(s: State, a: Act)
    requires Inv(s) && Can(s, a) && (a.Fail? || a.Discard?)
    ensures Inv(Do(s, a))
  {
  }

  lemma FinishKeepsInv(s: State, a: Act)
    requires Inv(s) && Can(s, a)
    requires a.EndOfQueue? || a.SkipFinal? || a.SendFinal? || a.Receive? || a.FailFinal?
    ensures Inv(Do(s, a))
  {
    StartedNotFinal(s.taken);
  }

  lemma StepKeepsInv(s: State, a: Act)
    requires Inv(s) && Can(s, a)
    ensures Inv(Do(s, a))
  {
    match a
    case Write(p) => WriteKeepsInv(s, p);
    case Take => TakeKeepsInv(s);
    case OpenOk => OpenKeepsInv(s, a);
    case OpenFail(_) => OpenKeepsInv(s, a);
    case SendOk => SendKeepsInv(s, a);
    case SendFail(_) => SendKeepsInv(s, a);
    case Fail => FailKeepsInv(s, a);
    case Discard => FailKeepsInv(s, a);
    case EndOfQueue => FinishKeepsInv(s, a);
    case SkipFinal => FinishKeepsInv(s, a);
    case SendFinal(_) => FinishKeepsInv(s, a);
    case Receive(_) => FinishKeepsInv(s, a);
    case FailFinal => FinishKeepsInv(s, a);
    case Mark =>
    case CloseChannel =>
    case SenderDone =>
    case Timeout =>
    case Return =>
  }

  lemma {:induction false} RunKeepsInv(s: State, run: seq<Act>)
    requires Inv(s) && Exec(s, run).Some?
    ensures Inv(Exec(s, run).value)
    decreases |run|
  {
    if run != [] {
      StepKeepsInv(s, run[0]);
      RunKeepsInv(Do(s, run[0]), run[1..]);
    }
  }

  // What every run guarantees.

  /**
   * If Close returns nil, the backend acknowledged one stream with every chunk written before Close, in order,
   * or there was none to send and no stream was opened.
   */
  lemma CloseNilMeansComplete(run: seq<Act>)
    requires Exec(Init(), run).Some?
    ensures var s := Exec(Init(), run).value;
            s.closing == Returned(true) ==>
              || (s.written == [] && s.opens == 0)
              || (s.opens == 1 && s.acked == Some(Complete(s.written)))
  {
    RunKeepsInv(Init(), run);
    var s := Exec(Init(), run).value;
    if s.closing == Returned(true) {
      assert s.taken + [] == s.taken;
      assert s.taken == s.written;
    }
  }

  /** Without a timeout, the wait of finish ended with the sender, and the answer is whether an error was recorded. */
  ghost predicate Waits(s: State) {
    && s.closing != Waited(true)
    && (s.closing.Returned? ==> s.sender.Done? && s.closing.ok == !s.failed)
    && (s.failed || s.stream || s.sender.Failing? ==> s.written != [])
  }

  lemma {:induction false} RunWaits(s: State, run: seq<Act>)
    requires Inv(s) && Waits(s) && Exec(s, run).Some? && Timeout !in run
    ensures Waits(Exec(s, run).value)
    decreases |run|
  {
    if run != [] {
      assert run[0] in run;
      StepKeepsInv(s, run[0]);
      StepWaits(s, run[0]);
      RunWaits(Do(s, run[0]), run[1..]);
    }
  }

  lemma StepWaits(s: State, a: Act)
    requires Inv(s) && Waits(s) && Can(s, a) && a != Timeout
    ensures Waits(Do(s, a))
  {
  }

  /** And unless it gave up waiting, Close returns nil whenever that is so. */
  lemma CloseTellsTheTruth(run: seq<Act>)
    requires Exec(Init(), run).Some? && Timeout !in run
    ensures var s := Exec(Init(), run).value;
            s.closing.Returned? ==>
              (s.closing.ok <==> s.written == [] || s.acked == Some(Complete(s.written)))
  {
    RunKeepsInv(Init(), run);
    RunWaits(Init(), run);
    CloseNilMeansComplete(run);
    AckedCompleteIffNoError(run);
  }

  /** What the sender can do next, whatever the stream answers. */
  ghost predicate SenderGoesOn(s: State) {
    match s.sender
    case Receiving => (s.queue != [] ==> Can(s, Take)) && (s.queue == [] && s.chanClosed ==> Can(s, EndOfQueue))
    case Have(_) =>
      if s.broken then Can(s, Discard)
      else if s.stream then Can(s, SendOk) && Can(s, SendFail(true)) && Can(s, SendFail(false))
      else Can(s, OpenOk) && Can(s, OpenFail(true)) && Can(s, OpenFail(false))
    case Failing => Can(s, Fail)
    case LoopDone =>
      if s.stream && !s.broken then Can(s, SendFinal(true)) && Can(s, SendFinal(false)) else Can(s, SkipFinal)
    case Finishing(sent) => Can(s, Receive(false)) && (sent ==> Can(s, Receive(true)))
    case FailingFinal => Can(s, FailFinal)
    case Done => true
  }

  /** What finish can do next. While it waits for the sender it may give up. */
  ghost predicate CloseGoesOn(s: State) {
    match s.closing
    case Open => Can(s, Mark)
    case Marked => Can(s, CloseChannel)
    case ChanClosed => Can(s, Timeout) && (s.sender.Done? ==> Can(s, SenderDone))
    case Waited(_) => Can(s, Return)
    case Returned(_) => true
  }

  lemma SenderGoes(s: State)
    ensures SenderGoesOn(s)
  {
  }

  lemma CloseGoes(s: State)
    ensures CloseGoesOn(s)
  {
  }

  lemma WriteGoes(s: State, p: Data)
    requires Inv(s) && p != [] && !s.closed && !s.failed
    ensures var t := Do(s, Write(p));
            if |s.queue| < 64 then t.queue == s.queue + [p] && !t.failed else t.queue == s.queue && t.failed
  {
  }

  /**
   * A write never waits, and costs the upload exactly if 64 chunks are waiting already. The sender can always go on
   * unless it waits for a chunk, whatever the stream answers, and so can Close unless it waits for the sender, and
   * then it may give up.
   */
  lemma NobodyBlocks(run: seq<Act>, p: Data)
    requires Exec(Init(), run).Some?
    ensures var s := Exec(Init(), run).value;
            && Can(s, Write(p)) && SenderGoesOn(s) && CloseGoesOn(s)
            && (p != [] && !s.closed && !s.failed ==>
                  var t := Do(s, Write(p));
                  if |s.queue| < 64 then t.queue == s.queue + [p] && !t.failed else t.queue == s.queue && t.failed)
  {
    RunKeepsInv(Init(), run);
    var s := Exec(Init(), run).value;
    SenderGoes(s);
    CloseGoes(s);
    if p != [] && !s.closed && !s.failed { WriteGoes(s, p); }
  }

  /** At every step, after an overflow and a broken stream too, the wire is a gap-free beginning of the chunks. */
  lemma WireIsPrefix(run: seq<Act>)
    requires Exec(Init(), run).Some?
    ensures var s := Exec(Init(), run).value;
            WithoutFinal(s.wire) <= Started(s.written) && |s.queue| <= 64
  {
    RunKeepsInv(Init(), run);
    var s := Exec(Init(), run).value;
    assert s.taken <= s.taken + s.queue;
    StartedPrefix(s.taken, s.written);
  }

  /**
   * Even an acknowledged stream may be a proper prefix: an overflow leaves the sender going. The acknowledged
   * stream is complete exactly when no error was recorded, which is why Close decides and Final does not.
   */
  lemma AckedCompleteIffNoError(run: seq<Act>)
    requires Exec(Init(), run).Some?
    ensures var s := Exec(Init(), run).value;
            s.acked.Some? ==> (s.acked.value == Complete(s.written) <==> !s.failed)
  {
    RunKeepsInv(Init(), run);
    var s := Exec(Init(), run).value;
    if s.acked.Some? {
      assert s.taken + [] == s.taken;
      CompleteInjective(s.taken, s.written);
    }
  }

  lemma CompleteInjective(cs: seq<Data>, ds: seq<Data>)
    ensures Complete(cs) == Complete(ds) ==> cs == ds
  {
    if Complete(cs) == Complete(ds) {
      assert Complete(cs)[1..|cs| + 1] == Chunks(cs) && Complete(ds)[1..|ds| + 1] == Chunks(ds);
      ChunksInjective(cs, ds);
    }
  }

  lemma {:induction false} ChunksInjective(cs: seq<Data>, ds: seq<Data>)
    requires Chunks(cs) == Chunks(ds)
    ensures cs == ds
    decreases |cs|
  {
    if cs != [] {
      var c, d := cs[..|cs| - 1], ds[..|ds| - 1];
      assert Chunks(cs)[..|c|] == Chunks(c) && Chunks(ds)[..|d|] == Chunks(d);
      assert Chunks(cs)[|c|] == Chunk(cs[|c|]) && Chunks(ds)[|d|] == Chunk(ds[|d|]);
      ChunksInjective(c, d);
      assert cs == c + [cs[|c|]] && ds == d + [ds[|d|]];
    }
  }

  /** A Write that reaches the channel finds it open: no write panics, whenever Close runs. */
  lemma NoSendOnClosedChannel(run: seq<Act>, p: Data)
    requires Exec(Init(), run).Some?
    ensures var s := Exec(Init(), run).value;
            s.chanClosed ==> AfterWrite(s, p) == s
  {
    RunKeepsInv(Init(), run);
  }

  lemma StickyStep(s: State, a: Act)
    requires Inv(s) && Can(s, a)
    ensures var t := Do(s, a);
            && (s.failed ==> t.failed)
            && (s.closing.Returned? ==> t.closing == s.closing)
            && (s.closed ==> t.closed && t.written == s.written)
  {
  }

  lemma {:induction false} StickyFrom(s: State, more: seq<Act>)
    requires Inv(s) && Exec(s, more).Some?
    ensures var t := Exec(s, more).value;
            && (s.failed ==> t.failed)
            && (s.closing.Returned? ==> t.closing == s.closing)
            && (s.closed ==> t.closed && t.written == s.written)
    decreases |more|
  {
    if more != [] {
      StepKeepsInv(s, more[0]);
      StickyStep(s, more[0]);
      StickyFrom(Do(s, more[0]), more[1..]);
    }
  }

  /** The error is sticky, Close's answer is final, and nothing written after Close counts. */
  lemma ErrorIsSticky(run: seq<Act>, more: seq<Act>)
    requires Exec(Init(), run).Some? && Exec(Exec(Init(), run).value, more).Some?
    ensures var s := Exec(Init(), run).value;
            var t := Exec(s, more).value;
            && (s.failed ==> t.failed)
            && (s.closing.Returned? ==> t.closing == s.closing)
            && (s.closed ==> t.closed && t.written == s.written)
  {
    RunKeepsInv(Init(), run);
    StickyFrom(Exec(Init(), run).value, more);
  }

  // An overflow followed by Final.

  lemma {:induction false} ExecAppend(s: State, run: seq<Act>, more: seq<Act>)
    requires Exec(s, run).Some?
    ensures Exec(s, run + more) == Exec(Exec(s, run).value, more)
    decreases |run|
  {
    if run == [] {
      assert run + more == more;
    } else {
      assert (run + more)[0] == run[0] && (run + more)[1..] == run[1..] + more;
      ExecAppend(Do(s, run[0]), run[1..], more);
    }
  }

  lemma ExecOne(s: State, run: seq<Act>, a: Act)
    requires Exec(s, run).Some? && Can(Exec(s, run).value, a)
    ensures Exec(s, run + [a]) == Some(Do(Exec(s, run).value, a))
  {
    ExecAppend(s, run, [a]);
    assert [a][1..] == [];
  }

  lemma Exec1(s: State, a: Act)
    requires Can(s, a)
    ensures Exec(s, [a]) == Some(Do(s, a))
  {
    assert [a][1..] == [];
  }

  lemma Exec2(s: State, a: Act, b: Act)
    requires Can(s, a) && Can(Do(s, a), b)
    ensures Exec(s, [a, b]) == Some(Do(Do(s, a), b))
  {
    assert [a, b][1..] == [b];
    Exec1(Do(s, a), b);
  }

  lemma Exec3(s: State, a: Act, b: Act, c: Act)
    requires Can(s, a) && Can(Do(s, a), b) && Can(Do(Do(s, a), b), c)
    ensures Exec(s, [a, b, c]) == Some(Do(Do(Do(s, a), b), c))
  {
    assert [a, b, c][1..] == [b, c];
    Exec2(Do(s, a), b, c);
  }

  /** `n` equal chunks in the queue before the sender woke up, and one more written if that was too many. */
  lemma {:induction false} Fill(n: nat, c: Data) returns (run: seq<Act>)
    requires c != [] && n <= MAX_BUFFERED + 1
    ensures Exec(Init(), run).Some?
    ensures var s := Exec(Init(), run).value;
            && s == Init().(queue := s.queue, failed := n > MAX_BUFFERED, written := s.written)
            && |s.written| == n && |s.queue| == (if n > MAX_BUFFERED then MAX_BUFFERED else n)
  {
    if n == 0 {
      run := [];
    } else {
      run := Fill(n - 1, c);
      ExecOne(Init(), run, Write(c));
      run := run + [Write(c)];
    }
  }

  /** The actions that belong to sendLoop. */
  predicate SenderOnly(run: seq<Act>) {
    forall i :: 0 <= i < |run| ==>
      && !run[i].Write? && !run[i].Mark? && !run[i].CloseChannel?
      && !run[i].SenderDone? && !run[i].Timeout? && !run[i].Return?
  }

  /** With the channel closed and a stream open, a backend that answers lets the sender finish. */
  lemma {:induction false} Drain(s: State) returns (run: seq<Act>)
    requires s.sender.Receiving? && s.chanClosed && !s.broken && s.stream
    ensures SenderOnly(run) && Exec(s, run).Some?
    ensures var t := Exec(s, run).value;
            t.acked.Some? && t.sender.Done? && t.failed == s.failed && t.written == s.written && t.closing == s.closing
    decreases |s.queue|
  {
    if s.queue == [] {
      var s1 := Do(s, EndOfQueue);
      var s2 := Do(s1, SendFinal(true));
      run := [EndOfQueue, SendFinal(true), Receive(true)];
      Exec3(s, EndOfQueue, SendFinal(true), Receive(true));
    } else {
      var s1 := Do(s, Take);
      var s2 := Do(s1, SendOk);
      var rest := Drain(s2);
      run := [Take, SendOk] + rest;
      Exec2(s, Take, SendOk);
      ExecAppend(s, [Take, SendOk], rest);
    }
  }

  /** It happens: the backend acknowledges a stream that ends in Final and yet lacks a chunk. Close then fails. */
  lemma FinalMayFollowPrefix(c: Data) returns (run: seq<Act>)
    requires c != []
    ensures Exec(Init(), run).Some?
    ensures var s := Exec(Init(), run).value;
            s.acked.Some? && s.acked.value != Complete(s.written) && s.closing == Returned(false)
  {
    run := Fill(MAX_BUFFERED + 1, c);
    ExecOne(Init(), run, Mark);
    run := run + [Mark];
    ExecOne(Init(), run, CloseChannel);
    run := run + [CloseChannel];
    ExecOne(Init(), run, Take);
    run := run + [Take];
    ExecOne(Init(), run, OpenOk);
    run := run + [OpenOk];
    ExecOne(Init(), run, SendOk);
    run := run + [SendOk];
    var rest := Drain(Exec(Init(), run).value);
    ExecAppend(Init(), run, rest);
    run := run + rest;
    AckedCompleteIffNoError(run);
    var acked := Exec(Init(), run).value;
    ExecOne(Init(), run, SenderDone);
    run := run + [SenderDone];
    ExecOne(Init(), run, Return);
    run := run + [Return];
  }

  // The sender as the source's loop, between receives of which others may write and close.

  /** What the backend and the network do to one chunk. */
  datatype Answer = Answer(open: bool, send: bool, arrived: bool)

  /** What others do before the sender's next receive, and what becomes of the chunk it then gets. */
  datatype Turn = Turn(writes: seq<Data>, close: bool, answer: Answer)

  function AfterWrites(s: State, writes: seq<Data>): (t: State)
    ensures t.sender == s.sender && t.chanClosed == s.chanClosed && t.closing == s.closing
    decreases |writes|
  {
    if writes == [] then s else AfterWrites(AfterWrite(s, writes[0]), writes[1..])
  }

  function AfterClose(s: State): State {
    if s.closing.Open? then s.(closing := ChanClosed, closed := true, chanClosed := true) else s
  }

  function AfterOthers(s: State, t: Turn): State {
    var u := AfterWrites(s, t.writes);
    if t.close then AfterClose(u) else u
  }

  function SendRound(s: State, a: Answer): (t: State)
    requires s.sender.Have? && s.stream && !s.broken
    ensures t.sender.Receiving?
  {
    var got := a.send || a.arrived;
    s.(sender := Receiving, wire := if got then s.wire + [Chunk(s.sender.chunk)] else s.wire,
       failed := s.failed || !a.send, broken := !a.send)
  }

  /** A chunk goes out on the stream, which the first one opens. */
  function Transmit(s: State, a: Answer): (t: State)
    requires s.sender.Have? && !s.broken
    ensures t.sender.Receiving?
  {
    if s.stream then SendRound(s, a)
    else
      var o := s.(opens := s.opens + 1, wire := if a.open || a.arrived then [Meta] else []);
      if a.open then SendRound(o.(stream := true), a) else o.(sender := Receiving, failed := true, broken := true)
  }

  function AfterTake(s: State): (t: State)
    requires s.queue != []
    ensures t.sender.Have? && t.broken == s.broken
  {
    s.(queue := s.queue[1..], sender := Have(s.queue[0]), taken := s.taken + [s.queue[0]])
  }

  /** One chunk, discarded on a broken stream. */
  function Round(s: State, a: Answer): (t: State)
    requires s.sender.Receiving? && s.queue != []
    ensures t.sender.Receiving?
  {
    if s.broken then AfterTake(s).(sender := Receiving) else Transmit(AfterTake(s), a)
  }

  function FinalRound(s: State, finalSent: bool, accepted: bool): (t: State)
    requires s.sender.LoopDone? && s.stream && !s.broken && (accepted ==> finalSent)
    ensures t.sender.Done?
  {
    var w := if finalSent then s.wire + [Final] else s.wire;
    if accepted then s.(sender := Done, wire := w, acked := Some(w)) else s.(sender := Done, wire := w, failed := true)
  }

  /** The end of the queue: Final is sent unless there is no stream to send it on. */
  function AtEnd(s: State, finalSent: bool, accepted: bool): (t: State)
    requires s.sender.Receiving? && s.queue == [] && s.chanClosed && (accepted ==> finalSent)
    ensures t.sender.Done?
  {
    if !s.stream || s.broken then s.(sender := Done) else FinalRound(s.(sender := LoopDone), finalSent, accepted)
  }

  /** One receive: the sender waits on an empty queue, and is done when the channel is closed and drained. */
  function AfterReceive(s: State, a: Answer, finalSent: bool, accepted: bool): (u: State)
    requires s.sender.Receiving? && (accepted ==> finalSent)
    ensures u.sender.Receiving? || u.sender.Done?
  {
    if s.queue != [] then Round(s, a) else if s.chanClosed then AtEnd(s, finalSent, accepted) else s
  }

  function AfterTurn(s: State, t: Turn, finalSent: bool, accepted: bool): (u: State)
    requires s.sender.Receiving? && (accepted ==> finalSent)
    ensures u.sender.Receiving? || u.sender.Done?
  {
    AfterReceive(AfterOthers(s, t), t.answer, finalSent, accepted)
  }

  /** sendLoop. */
  function Loop(s: State, turns: seq<Turn>, finalSent: bool, accepted: bool): State
    requires s.sender.Receiving? && (accepted ==> finalSent)
    decreases |turns|
  {
    if turns == [] then s else
      var t := AfterTurn(s, turns[0], finalSent, accepted);
      if t.sender.Done? then t else Loop(t, turns[1..], finalSent, accepted)
  }

  lemma {:induction false} WritesAreRun(s: State, writes: seq<Data>) returns (run: seq<Act>)
    ensures Exec(s, run) == Some(AfterWrites(s, writes))
    decreases |writes|
  {
    run := [];
    if writes != [] {
      var rest := WritesAreRun(AfterWrite(s, writes[0]), writes[1..]);
      Exec1(s, Write(writes[0]));
      ExecAppend(s, [Write(writes[0])], rest);
      run := [Write(writes[0])] + rest;
    }
  }

  lemma {:induction false} OthersAreRun(s: State, t: Turn) returns (run: seq<Act>)
    ensures Exec(s, run) == Some(AfterOthers(s, t))
  {
    run := WritesAreRun(s, t.writes);
    var u := AfterWrites(s, t.writes);
    if t.close && u.closing.Open? {
      Exec2(u, Mark, CloseChannel);
      ExecAppend(s, run, [Mark, CloseChannel]);
      run := run + [Mark, CloseChannel];
    }
  }

  lemma {:induction false} SendIsRun(s: State, a: Answer) returns (run: seq<Act>)
    requires s.sender.Have? && s.stream && !s.broken
    ensures Exec(s, run) == Some(SendRound(s, a))
  {
    if a.send {
      run := [SendOk];
      Exec1(s, SendOk);
    } else {
      run := [SendFail(a.arrived), Fail];
      Exec2(s, SendFail(a.arrived), Fail);
    }
  }

  lemma {:induction false} TransmitIsRun(s: State, a: Answer) returns (run: seq<Act>)
    requires s.sender.Have? && !s.broken
    ensures Exec(s, run) == Some(Transmit(s, a))
  {
    if s.stream {
      run := SendIsRun(s, a);
    } else if a.open {
      Exec1(s, OpenOk);
      var send := SendIsRun(Do(s, OpenOk), a);
      ExecAppend(s, [OpenOk], send);
      run := [OpenOk] + send;
    } else {
      run := [OpenFail(a.arrived), Fail];
      Exec2(s, OpenFail(a.arrived), Fail);
    }
  }

  lemma {:induction false} RoundIsRun(s: State, a: Answer) returns (run: seq<Act>)
    requires s.sender.Receiving? && s.queue != []
    ensures Exec(s, run) == Some(Round(s, a))
  {
    var h := Do(s, Take);
    Exec1(s, Take);
    var more;
    if h.broken {
      more := [Discard];
      Exec1(h, Discard);
    } else {
      more := TransmitIsRun(h, a);
    }
    ExecAppend(s, [Take], more);
    run := [Take] + more;
  }

  lemma {:induction false} FinalIsRun(s: State, finalSent: bool, accepted: bool) returns (run: seq<Act>)
    requires s.sender.LoopDone? && s.stream && !s.broken && (accepted ==> finalSent)
    ensures Exec(s, run) == Some(FinalRound(s, finalSent, accepted))
  {
    if accepted {
      run := [SendFinal(true), Receive(true)];
      Exec2(s, SendFinal(true), Receive(true));
    } else {
      run := [SendFinal(finalSent), Receive(false), FailFinal];
      Exec3(s, SendFinal(finalSent), Receive(false), FailFinal);
    }
  }

  lemma {:induction false} EndIsRun(s: State, finalSent: bool, accepted: bool) returns (run: seq<Act>)
    requires s.sender.Receiving? && s.queue == [] && s.chanClosed && (accepted ==> finalSent)
    ensures Exec(s, run) == Some(AtEnd(s, finalSent, accepted))
  {
    var e := Do(s, EndOfQueue);
    Exec1(s, EndOfQueue);
    var more;
    if !e.stream || e.broken {
      more := [SkipFinal];
      Exec1(e, SkipFinal);
    } else {
      more := FinalIsRun(e, finalSent, accepted);
    }
    ExecAppend(s, [EndOfQueue], more);
    run := [EndOfQueue] + more;
  }

  lemma {:induction false} TurnIsRun(s: State, t: Turn, finalSent: bool, accepted: bool) returns (run: seq<Act>)
    requires s.sender.Receiving? && (accepted ==> finalSent)
    ensures Exec(s, run) == Some(AfterTurn(s, t, finalSent, accepted))
  {
    run := OthersAreRun(s, t);
    var o := AfterOthers(s, t);
    var more := [];
    if o.queue != [] {
      more := RoundIsRun(o, t.answer);
    } else if o.chanClosed {
      more := EndIsRun(o, finalSent, accepted);
    }
    ExecAppend(s, run, more);
    run := run + more;
  }

  /** Whatever others do between its receives, the loop only does what the actions allow. */
  lemma {:induction false} LoopIsRun(s: State, turns: seq<Turn>, finalSent: bool, accepted: bool)
    returns (run: seq<Act>)
    requires s.sender.Receiving? && (accepted ==> finalSent)
    ensures Exec(s, run) == Some(Loop(s, turns, finalSent, accepted))
    decreases |turns|
  {
    run := [];
    if turns != [] {
      run := TurnIsRun(s, turns[0], finalSent, accepted);
      var t := AfterTurn(s, turns[0], finalSent, accepted);
      if !t.sender.Done? {
        var rest := LoopIsRun(t, turns[1..], finalSent, accepted);
        ExecAppend(s, run, rest);
        run := run + rest;
      }
    }
  }

  /** The uploader object and its sender. `err` is why the upload failed. */
  class LiveUpload {
    var chunks: seq<Data>
    var err: Option<string>
    var closed: bool
    var chanClosed: bool
    // The backend's side of the stream.
    var opens: nat
    var wire: seq<Msg>
    var acked: Option<seq<Msg>>
    ghost var written: seq<Data>
    ghost var taken: seq<Data>

    ghost function View(sender: Sender, stream: bool, broken: bool, closing: Closing): State
      reads this
    {
      State(chunks, err.Some?, closed, chanClosed, closing, sender, stream, broken, opens, wire, acked, written, taken)
    }

    constructor ()
      ensures View(Receiving, false, false, Open) == Init()
    {
      chunks, err, closed, chanClosed := [], None, false, false;
      opens, wire, acked := 0, [], None;
      written, taken := [], [];
    }

    method Write(p: Data)
      modifies this
      ensures forall sender, stream, broken, closing ::
                View(sender, stream, broken, closing) == AfterWrite(old(View(sender, stream, broken, closing)), p)
      ensures old(err).Some? ==> err == old(err)
    {
      if |p| == 0 { return; }
      if !closed { written := written + [p]; }
      if closed || err.Some? { return; }
      if |chunks| < MAX_BUFFERED {
        chunks := chunks + [p];
      } else {
        FailLocked("upload queue full");
      }
    }

    /** The first error is kept. */
    method FailLocked(cause: string)
      modifies this`err
      ensures err == if old(err).Some? then old(err) else Some(cause)
    {
      if err.Some? { return; }
      err := Some(cause);
    }

    /** Sends one chunk on an open stream. */
    method SendOn(chunk: Data, a: Answer, ghost closing: Closing) returns (broken: bool)
      modifies this
      ensures closed == old(closed) && chanClosed == old(chanClosed)
      ensures View(Receiving, true, broken, closing) == SendRound(old(View(Have(chunk), true, false, closing)), a)
      ensures old(err).Some? ==> err == old(err)
    {
      if a.send {
        wire := wire + [Chunk(chunk)];
        return false;
      }
      wire := if a.arrived then wire + [Chunk(chunk)] else wire;
      FailLocked("send recording chunk");
      return true;
    }

    /** Opens the stream for the first chunk. A failure leaves no stream. */
    method OpenStream(a: Answer)
      modifies this
      ensures chunks == old(chunks) && closed == old(closed) && chanClosed == old(chanClosed) && acked == old(acked)
      ensures written == old(written) && taken == old(taken) && opens == old(opens) + 1
      ensures wire == (if a.open || a.arrived then [Meta] else [])
      ensures err == if a.open || old(err).Some? then old(err) else Some("open upload stream")
    {
      opens := opens + 1;
      wire := if a.open || a.arrived then [Meta] else [];
      if !a.open { FailLocked("open upload stream"); }
    }

    method SendFirst(chunk: Data, stream: bool, a: Answer, ghost closing: Closing)
      returns (stream': bool, broken': bool)
      modifies this
      ensures closed == old(closed) && chanClosed == old(chanClosed)
      ensures View(Receiving, stream', broken', closing) == Transmit(old(View(Have(chunk), stream, false, closing)), a)
      ensures old(err).Some? ==> err == old(err)
    {
      if !stream {
        OpenStream(a);
        if !a.open { return false, true; }
      }
      stream' := true;
      broken' := SendOn(chunk, a, closing);
    }

    /** One round of sendLoop, given whether the stream is open and whether it broke before. */
    method SendChunk(stream: bool, broken: bool, a: Answer, ghost closing: Closing)
      returns (stream': bool, broken': bool)
      requires chunks != []
      modifies this
      ensures closed == old(closed) && chanClosed == old(chanClosed)
      ensures View(Receiving, stream', broken', closing) == Round(old(View(Receiving, stream, broken, closing)), a)
      ensures old(err).Some? ==> err == old(err)
    {
      var chunk := ReceiveChunk(stream, broken, closing);
      if broken { return stream, true; }
      stream', broken' := SendFirst(chunk, stream, a, closing);
    }

    method ReceiveChunk(stream: bool, broken: bool, ghost closing: Closing) returns (chunk: Data)
      requires chunks != []
      modifies this`chunks, this`taken
      ensures View(Have(chunk), stream, broken, closing) == AfterTake(old(View(Receiving, stream, broken, closing)))
    {
      chunk := chunks[0];
      chunks := chunks[1..];
      taken := taken + [chunk];
    }

    /** The end of sendLoop. */
    method SendEnd(stream: bool, broken: bool, finalSent: bool, accepted: bool, ghost closing: Closing)
      requires chanClosed && chunks == [] && (accepted ==> finalSent)
      modifies this
      ensures closed == old(closed) && chanClosed == old(chanClosed)
      ensures View(Done, stream, broken, closing)
              == AtEnd(old(View(Receiving, stream, broken, closing)), finalSent, accepted)
      ensures old(err).Some? ==> err == old(err)
    {
      if !stream || broken { return; }
      Finalize(finalSent, accepted, closing);
    }

    method Finalize(finalSent: bool, accepted: bool, ghost closing: Closing)
      requires accepted ==> finalSent
      modifies this
      ensures closed == old(closed) && chanClosed == old(chanClosed)
      ensures View(Done, true, false, closing)
              == FinalRound(old(View(LoopDone, true, false, closing)), finalSent, accepted)
      ensures old(err).Some? ==> err == old(err)
    {
      wire := if finalSent then wire + [Final] else wire;
      if accepted {
        acked := Some(wire);
      } else {
        FailLocked("finish upload");
      }
    }

    /** What others do, one critical section after the other. */
    method Others(t: Turn, stream: bool, broken: bool)
      requires closed == chanClosed
      modifies this
      ensures closed == chanClosed
      ensures View(Receiving, stream, broken, Progress(closed))
              == AfterOthers(old(View(Receiving, stream, broken, Progress(closed))), t)
    {
      ghost var closing, start := Progress(closed), View(Receiving, stream, broken, Progress(closed));
      for i := 0 to |t.writes|
        invariant closed == chanClosed == old(closed)
        invariant AfterWrites(start, t.writes) == AfterWrites(View(Receiving, stream, broken, closing), t.writes[i..])
      {
        assert t.writes[i..][1..] == t.writes[i + 1..];
        Write(t.writes[i]);
      }
      assert t.writes[|t.writes|..] == [];
      if t.close && !closed {
        MarkClosed();
        chanClosed := true;
      }
    }

    method ReceiveOne(stream: bool, broken: bool, a: Answer, finalSent: bool, accepted: bool)
      returns (done: bool, stream': bool, broken': bool)
      requires closed == chanClosed && (accepted ==> finalSent)
      modifies this
      ensures closed == chanClosed == old(closed)
      ensures View(if done then Done else Receiving, stream', broken', Progress(closed))
              == AfterReceive(old(View(Receiving, stream, broken, Progress(closed))), a, finalSent, accepted)
    {
      done, stream', broken' := false, stream, broken;
      if chunks != [] {
        stream', broken' := SendChunk(stream, broken, a, Progress(closed));
      } else if chanClosed {
        SendEnd(stream, broken, finalSent, accepted, Progress(closed));
        done := true;
      }
    }

    /** sendLoop, from its start until it is done or has nothing to receive. */
    method SendLoop(turns: seq<Turn>, finalSent: bool, accepted: bool)
      returns (done: bool, stream: bool, broken: bool)
      requires !closed && !chanClosed && (accepted ==> finalSent)
      modifies this
      ensures View(if done then Done else Receiving, stream, broken, Progress(closed))
              == Loop(old(View(Receiving, false, false, Open)), turns, finalSent, accepted)
    {
      done, stream, broken := false, false, false;
      ghost var start := View(Receiving, false, false, Open);
      for i := 0 to |turns|
        invariant closed == chanClosed && !done
        invariant Loop(start, turns, finalSent, accepted)
                  == Loop(View(Receiving, stream, broken, Progress(closed)), turns[i..], finalSent, accepted)
      {
        assert turns[i..][0] == turns[i] && turns[i..][1..] == turns[i + 1..];
        Others(turns[i], stream, broken);
        done, stream, broken := ReceiveOne(stream, broken, turns[i].answer, finalSent, accepted);
        if done { return; }
      }
      assert turns[|turns|..] == [];
    }

    /** The sections of finish around its wait. */
    method MarkClosed()
      requires !closed
      modifies this`closed
      ensures closed
      ensures forall sender, stream, broken ::
                View(sender, stream, broken, Marked) == Do(old(View(sender, stream, broken, Open)), Mark)
    {
      closed := true;
    }

    method Result(timedOut: bool) returns (ok: bool)
      ensures forall sender, stream, broken ::
                View(sender, stream, broken, Returned(ok)) == Do(View(sender, stream, broken, Waited(timedOut)), Return)
    {
      ok := err.None? && !timedOut;
    }
  }

  /** Where finish stands as far as the loop can tell. */
  ghost function Progress(closed: bool): Closing { if closed then ChanClosed else Open }
}
