/**
 * The retry of recordings the live upload did not deliver: one file after the other, oldest first. An upload is a
 * list of steps, so that other goroutines can come between them and the file may grow meanwhile.
 */
module Pending {
  import opened Prelude
  import U = Uploader
  import D = Delivery

  type Data = seq<Byte>

  /** What a call to the backend came back with. InvalidArgument means it will never take this file. */
  datatype Answer = Ok | InvalidArgument | Failed

  /** A file goes once the backend has it or refuses it for good. */
  predicate Settled(a: Answer) { a in {Ok, InvalidArgument} }

  const BUFFER_SIZE := 32768

  /** Where uploadFile stands. */
  datatype Stage = Header | Opening | Sending | Ended | Answered(answer: Answer)

  /** One uploadFile: what was read of the file, what was sent, and what the backend acknowledged. */
  datatype Attempt = Attempt(stage: Stage, read: Data, wire: seq<U.Msg>, acked: Option<seq<U.Msg>>)

  function Fresh(): Attempt { Attempt(Header, [], [], None) }

  /**
   * `OpenFails` is a failure to open the file or the stream or to send Meta, `Break` one to read or send a block,
   * and `Finish` carries the final answer, or the error of sending Final.
   */
  datatype Step =
    | ReadHeader(ok: bool)
    | OpenOk | OpenFails(answer: Answer)
    | Block(n: nat) | Break(answer: Answer)
    | ReachEnd
    | Finish(answer: Answer)

  /** `content` is what the file holds at this moment. */
  predicate CanStep(a: Attempt, content: Data, step: Step) {
    match step
    case ReadHeader(_) => a.stage.Header?
    case OpenOk => a.stage.Opening?
    case OpenFails(answer) => a.stage.Opening? && answer != Ok
    case Block(n) => a.stage.Sending? && 0 < n <= BUFFER_SIZE && |a.read| + n <= |content|
    case Break(answer) => a.stage.Sending? && answer != Ok
    case ReachEnd => a.stage.Sending? && |a.read| == |content|
    case Finish(_) => a.stage.Ended?
  }

  function DoStep(a: Attempt, content: Data, step: Step): Attempt
    requires CanStep(a, content, step)
  {
    match step
    case ReadHeader(ok) => a.(stage := if ok then Opening else Answered(InvalidArgument))
    case OpenOk => a.(stage := Sending, wire := [U.Meta])
    case OpenFails(answer) => a.(stage := Answered(answer))
    case Block(n) =>
      var data := content[|a.read|..|a.read| + n];
      a.(read := a.read + data, wire := a.wire + [U.Chunk(data)])
    case Break(answer) => a.(stage := Answered(answer))
    case ReachEnd => a.(stage := Ended)
    case Finish(answer) =>
      if answer == Ok then Attempt(Answered(Ok), a.read, a.wire + [U.Final], Some(a.wire + [U.Final]))
      else a.(stage := Answered(answer))
  }

  /** The steps on a file nobody writes to. */
  function Exec(a: Attempt, content: Data, run: seq<Step>): Option<Attempt>
    decreases |run|
  {
    if run == [] then Some(a)
    else if CanStep(a, content, run[0]) then Exec(DoStep(a, content, run[0]), content, run[1..])
    else None
  }

  /** The stream carries Meta and then non-empty chunks of at most one buffer. */
  predicate IsUpload(wire: seq<U.Msg>) {
    && wire != [] && wire[0] == U.Meta
    && forall i :: 1 <= i < |wire| ==> wire[i].Chunk? && 0 < |wire[i].data| <= 32768
  }

  /** Such a stream with Final at its end, with exactly these bytes. */
  ghost predicate Delivers(wire: seq<U.Msg>, bytes: Data) {
    && wire != [] && wire[|wire| - 1] == U.Final && IsUpload(wire[..|wire| - 1])
    && D.Payload(wire) == bytes
  }

  /** What was read is the beginning of the file, and the stream carries exactly that. */
  ghost predicate Inv(a: Attempt, content: Data) {
    && a.read <= content
    && (a.stage in {Sending, Ended} ==> IsUpload(a.wire) && D.Payload(a.wire) == a.read)
    && (a.stage in {Header, Opening} ==> a.read == [])
    && (a.acked.Some? <==> a.stage == Answered(Ok))
    && (a.acked.Some? ==> Delivers(a.acked.value, a.read))
  }

  /** The end of the file was reached. */
  predicate Whole(a: Attempt) { a.stage.Ended? || a.stage == Answered(Ok) }

  lemma {:induction false} BlockKeepsInv(a: Attempt, content: Data, n: nat)
    requires Inv(a, content) && CanStep(a, content, Block(n))
    ensures Inv(DoStep(a, content, Block(n)), content)
  {
    var data := content[|a.read|..|a.read| + n];
    D.PayloadMore(a.wire, U.Chunk(data));
    assert a.read + data == content[..|a.read| + n];
  }

  lemma {:induction false} FinishKeepsInv(a: Attempt, content: Data, answer: Answer)
    requires Inv(a, content) && CanStep(a, content, Finish(answer))
    ensures Inv(DoStep(a, content, Finish(answer)), content)
  {
    D.PayloadMore(a.wire, U.Final);
    assert (a.wire + [U.Final])[..|a.wire|] == a.wire;
  }

  lemma {:induction false} StepKeepsInv(a: Attempt, content: Data, step: Step)
    requires Inv(a, content) && CanStep(a, content, step)
    ensures Inv(DoStep(a, content, step), content)
    ensures (Whole(a) ==> a.read == content) ==>
              (Whole(DoStep(a, content, step)) ==> DoStep(a, content, step).read == content)
  {
    match step
    case Block(n) => BlockKeepsInv(a, content, n);
    case Finish(answer) => FinishKeepsInv(a, content, answer);
    case OpenOk => MetaOnly();
    case ReadHeader(_) =>
    case OpenFails(_) =>
    case Break(_) =>
    case ReachEnd =>
  }

  lemma {:induction false} RunKeepsInv(a: Attempt, content: Data, run: seq<Step>)
    requires Inv(a, content) && (Whole(a) ==> a.read == content) && Exec(a, content, run).Some?
    ensures var t := Exec(a, content, run).value; Inv(t, content) && (Whole(t) ==> t.read == content)
    decreases |run|
  {
    if run != [] {
      StepKeepsInv(a, content, run[0]);
      RunKeepsInv(DoStep(a, content, run[0]), content, run[1..]);
    }
  }

  /** Whatever fails on the way, an Ok means that the backend acknowledged exactly the bytes of the file. */
  lemma OkMeansDelivered(content: Data, run: seq<Step>)
    requires Exec(Fresh(), content, run).Some?
    ensures var a := Exec(Fresh(), content, run).value;
            && (a.stage == Answered(Ok) <==> a.acked.Some?)
            && (a.acked.Some? ==> Delivers(a.acked.value, content))
  {
    RunKeepsInv(Fresh(), content, run);
  }

  lemma MetaOnly()
    ensures D.Payload([U.Meta]) == [] && IsUpload([U.Meta])
  {
    assert [U.Meta] == [] + [U.Meta];
    D.PayloadMore([], U.Meta);
  }

  lemma {:induction false} ExecAppend(a: Attempt, content: Data, run: seq<Step>, more: seq<Step>)
    requires Exec(a, content, run).Some?
    ensures Exec(a, content, run + more) == Exec(Exec(a, content, run).value, content, more)
    decreases |run|
  {
    if run == [] {
      assert run + more == more;
    } else {
      assert (run + more)[0] == run[0] && (run + more)[1..] == run[1..] + more;
      ExecAppend(DoStep(a, content, run[0]), content, run[1..], more);
    }
  }

  lemma ExecOne(a: Attempt, content: Data, run: seq<Step>, step: Step)
    requires Exec(a, content, run).Some? && CanStep(Exec(a, content, run).value, content, step)
    ensures Exec(a, content, run + [step]) == Some(DoStep(Exec(a, content, run).value, content, step))
  {
    ExecAppend(a, content, run, [step]);
    assert [step][1..] == [];
  }

  // The loops of the source.

  /** One read of the file: some bytes, and whether it was the last one. */
  datatype Read = Read(data: Data, end: ReadEnd)
  datatype ReadEnd = More | Eof | Error

  function Bytes(blocks: seq<Read>): Data {
    if blocks == [] then [] else Bytes(blocks[..|blocks| - 1]) + blocks[|blocks| - 1].data
  }

  /** What reading a file yields: blocks of at most one buffer until the end or an error. */
  ghost predicate IsReading(content: Data, blocks: seq<Read>) {
    && blocks != []
    && (forall i :: 0 <= i < |blocks| ==>
          |blocks[i].data| <= BUFFER_SIZE && (blocks[i].end == More <==> i < |blocks| - 1))
    && Bytes(blocks) <= content
    && (blocks[|blocks| - 1].end == Eof ==> Bytes(blocks) == content)
  }

  /** Every message that carries something got through. An empty read sends nothing. */
  predicate Through(sends: seq<bool>, blocks: seq<Read>)
    requires |sends| == |blocks|
  {
    forall i :: 0 <= i < |blocks| ==> sends[i] || blocks[i].data == []
  }

  lemma {:induction false} BytesMore(blocks: seq<Read>, i: nat)
    requires i < |blocks|
    ensures Bytes(blocks[..i + 1]) == Bytes(blocks[..i]) + blocks[i].data
    ensures blocks[i].data == [] ==> Bytes(blocks[..i + 1]) == Bytes(blocks[..i])
  {
    assert blocks[..i + 1][..i] == blocks[..i];
    Empty(Bytes(blocks[..i]));
  }

  lemma {:induction false} BytesPrefix(blocks: seq<Read>, i: nat)
    requires i <= |blocks|
    ensures Bytes(blocks[..i]) <= Bytes(blocks)
    decreases |blocks| - i
  {
    if i == |blocks| {
      assert blocks[..i] == blocks;
    } else {
      BytesMore(blocks, i);
      BytesPrefix(blocks, i + 1);
      PrefixTrans(Bytes(blocks[..i]), Bytes(blocks[..i + 1]), Bytes(blocks));
    }
  }

  /** A read returns the bytes of the file that come next. */
  lemma {:induction false} BlockAt(content: Data, blocks: seq<Read>, i: nat)
    requires IsReading(content, blocks) && i < |blocks|
    ensures var at := |Bytes(blocks[..i])|;
            var d := blocks[i].data;
            at + |d| <= |content| && content[at..at + |d|] == d && Bytes(blocks[..i]) + d == Bytes(blocks[..i + 1])
  {
    BytesMore(blocks, i);
    BytesPrefix(blocks, i + 1);
    var b := Bytes(blocks[..i + 1]);
    PrefixTrans(b, Bytes(blocks), content);
    assert content[..|b|] == b;
  }

  /** The loop ends exactly with the last read. */
  lemma LastBlock(content: Data, blocks: seq<Read>, i: nat)
    requires IsReading(content, blocks) && i < |blocks| && blocks[i].end != More
    ensures i == |blocks| - 1 && blocks[..i + 1] == blocks
  {
    assert i == |blocks| - 1;
  }

  /** The attempt after these reads were sent. */
  ghost predicate SentSoFar(a: Option<Attempt>, blocks: seq<Read>, wire: seq<U.Msg>) {
    a == Some(Attempt(Sending, Bytes(blocks), wire, None))
  }

  /** One round of the loop in which the send gets through. */
  method SendBlock(content: Data, blocks: seq<Read>, i: nat, wire: seq<U.Msg>, ghost run: seq<Step>)
    returns (next: seq<U.Msg>, ghost more: seq<Step>)
    requires IsReading(content, blocks) && i < |blocks|
    requires SentSoFar(Exec(AfterMeta(), content, run), blocks[..i], wire)
    ensures next == if blocks[i].data == [] then wire else wire + [U.Chunk(blocks[i].data)]
    ensures SentSoFar(Exec(AfterMeta(), content, more), blocks[..i + 1], next)
  {
    next, more := wire, run;
    BlockAt(content, blocks, i);
    BytesMore(blocks, i);
    if |blocks[i].data| > 0 {
      next := wire + [U.Chunk(blocks[i].data)];
      ExecOne(AfterMeta(), content, run, Block(|blocks[i].data|));
      more := run + [Block(|blocks[i].data|)];
    }
  }

  function AfterMeta(): Attempt { Attempt(Sending, [], [U.Meta], None) }

  /** The loop stopped with an error, or reached the end of the file. */
  ghost predicate Stopped(a: Option<Attempt>, stop: Option<Answer>, content: Data, wire: seq<U.Msg>) {
    && a.Some? && a.value.wire == wire
    && a.value.stage == (if stop.Some? then Answered(stop.value) else Ended)
    && (stop.None? ==> a.value.read == content && a.value.acked.None?)
  }

  /** The read and send loop, after Meta. `sends` says which chunks get through, `failure` what a failed one returns. */
  method SendBlocks(content: Data, blocks: seq<Read>, sends: seq<bool>, failure: Answer)
    returns (stop: Option<Answer>, wire: seq<U.Msg>, ghost run: seq<Step>)
    requires IsReading(content, blocks) && |sends| == |blocks| && failure != Ok
    ensures stop.None? <==> Through(sends, blocks) && blocks[|blocks| - 1].end == Eof
    ensures stop.Some? ==> stop.value in {failure, Failed}
    ensures Stopped(Exec(AfterMeta(), content, run), stop, content, wire)
  {
    wire, run := [U.Meta], [];
    assert blocks[..0] == [];
    var i := 0;
    while true
      invariant 0 <= i < |blocks|
      invariant SentSoFar(Exec(AfterMeta(), content, run), blocks[..i], wire)
      invariant forall k :: 0 <= k < i ==> sends[k] || blocks[k].data == []
      decreases |blocks| - i
    {
      var r := blocks[i];
      if |r.data| > 0 && !sends[i] {
        ExecOne(AfterMeta(), content, run, Break(failure));
        return Some(failure), wire, run + [Break(failure)];
      }
      wire, run := SendBlock(content, blocks, i, wire, run);
      if r.end != More {
        LastBlock(content, blocks, i);
        if r.end == Eof {
          ExecOne(AfterMeta(), content, run, ReachEnd);
          return None, wire, run + [ReachEnd];
        }
        ExecOne(AfterMeta(), content, run, Break(Failed));
        return Some(Failed), wire, run + [Break(Failed)];
      }
      i := i + 1;
    }
  }

  /**
   * What one upload meets: `header` whether the header could be read, `readable` whether the file could be opened,
   * `stream` and `meta` whether the stream was opened and took Meta, `sends` which chunks get through and `final`
   * whether Final does. `answer` is the final answer and `failure` the code of any other error of the backend.
   */
  datatype Course = Course(header: bool, readable: bool, stream: bool, meta: bool, blocks: seq<Read>, sends: seq<bool>,
                           final: bool, answer: Answer, failure: Answer)

  ghost predicate Possible(content: Data, c: Course) {
    IsReading(content, c.blocks) && |c.sends| == |c.blocks| && c.failure != Ok
  }

  predicate AllWell(c: Course)
    requires |c.sends| == |c.blocks| > 0
  {
    && c.header && c.readable && c.stream && c.meta && Through(c.sends, c.blocks)
    && c.blocks[|c.blocks| - 1].end == Eof && c.final && c.answer == Ok
  }

  /**
   * uploadFile on a file nobody writes to. It performs a run of the steps above. Ok means that everything went
   * well, and that the backend acknowledged exactly the bytes of the file.
   */
  method UploadFile(content: Data, c: Course)
    returns (result: Answer, acked: Option<seq<U.Msg>>, ghost run: seq<Step>)
    requires Possible(content, c)
    ensures result == Ok <==> AllWell(c)
    ensures result == Ok <==> acked.Some?
    ensures acked.Some? ==> Delivers(acked.value, content)
    ensures result == InvalidArgument ==> !c.header || InvalidArgument in {c.answer, c.failure}
    ensures !c.header ==> result == InvalidArgument
    ensures var a := Exec(Fresh(), content, run); a.Some? && a.value.stage == Answered(result) && a.value.acked == acked
  {
    acked, run := None, [];
    ExecOne(Fresh(), content, run, ReadHeader(c.header));
    run := run + [ReadHeader(c.header)];
    if !c.header { return InvalidArgument, None, run; }
    if !c.readable || !c.stream || !c.meta {
      result := if !c.readable then Failed else c.failure;
      ExecOne(Fresh(), content, run, OpenFails(result));
      run := run + [OpenFails(result)];
      return;
    }
    ExecOne(Fresh(), content, run, OpenOk);
    run := run + [OpenOk];
    result, acked, run := SendFile(content, c, run);
    OkMeansDelivered(content, run);
  }

  /** The part of uploadFile after Meta. */
  method SendFile(content: Data, c: Course, ghost begun: seq<Step>)
    returns (result: Answer, acked: Option<seq<U.Msg>>, ghost run: seq<Step>)
    requires Possible(content, c) && Exec(Fresh(), content, begun) == Some(AfterMeta())
    ensures result == Ok <==>
            Through(c.sends, c.blocks) && c.blocks[|c.blocks| - 1].end == Eof && c.final && c.answer == Ok
    ensures result == InvalidArgument ==> InvalidArgument in {c.answer, c.failure}
    ensures var a := Exec(Fresh(), content, run); a.Some? && a.value.stage == Answered(result) && a.value.acked == acked
  {
    var stop, wire;
    ghost var more;
    stop, wire, more := SendBlocks(content, c.blocks, c.sends, c.failure);
    ExecAppend(Fresh(), content, begun, more);
    run := begun + more;
    acked := None;
    RunKeepsInv(Fresh(), content, run);
    if stop.Some? { return stop.value, None, run; }
    result := if c.final then c.answer else c.failure;
    ExecOne(Fresh(), content, run, Finish(result));
    run := run + [Finish(result)];
    if result == Ok { acked := Some(wire + [U.Final]); }
  }

  /** The snapshot without the paths found active when their turn came. */
  function NotBusy(matches: seq<string>, busy: seq<bool>): seq<string>
    requires |busy| == |matches|
  {
    if matches == [] then [] else
      var n := |matches| - 1;
      NotBusy(matches[..n], busy[..n]) + if busy[n] then [] else [matches[n]]
  }

  /** What the retry learned about one file. */
  datatype Outcome = Outcome(result: Answer, acked: Option<seq<U.Msg>>)

  ghost predicate IsOutcome(o: Outcome, content: Data, c: Course)
    requires Possible(content, c)
  {
    && (o.result == Ok <==> AllWell(c))
    && (o.result == Ok ==> o.acked.Some? && Delivers(o.acked.value, content))
    && (o.result == InvalidArgument ==> !c.header || InvalidArgument in {c.answer, c.failure})
  }

  method RetryFile(content: Data, c: Course) returns (o: Outcome)
    requires Possible(content, c)
    ensures IsOutcome(o, content, c)
  {
    var result, acked;
    ghost var run;
    result, acked, run := UploadFile(content, c);
    o := Outcome(result, acked);
  }

  /**
   * UploadPending over one snapshot. It removes, in order, exactly the inactive files before the first that is
   * neither delivered nor refused, and reports success exactly when there is no such file. Every file it removes
   * was delivered byte for byte, or its header could not be read, or the backend will never take it.
   */
  method UploadPending(matches: seq<string>, busy: seq<bool>, contents: seq<Data>, cs: seq<Course>)
    returns (ok: bool, removed: seq<string>, stop: nat, outs: seq<Outcome>)
    requires |busy| == |contents| == |cs| == |matches|
    requires forall i :: 0 <= i < |cs| ==> Possible(contents[i], cs[i])
    ensures stop <= |matches| && removed == NotBusy(matches[..stop], busy[..stop])
    ensures stop <= |outs| <= |matches|
    ensures forall i :: 0 <= i < |outs| && !busy[i] ==> IsOutcome(outs[i], contents[i], cs[i])
    ensures forall i :: 0 <= i < stop && !busy[i] ==> Settled(outs[i].result)
    ensures ok ==> stop == |matches| && removed == NotBusy(matches, busy)
    ensures !ok ==> stop < |outs| && !busy[stop] && !Settled(outs[stop].result)
  {
    removed, stop, outs := [], 0, [];
    while stop < |matches|
      invariant stop <= |matches| && removed == NotBusy(matches[..stop], busy[..stop])
      invariant |outs| == stop
      invariant forall i :: 0 <= i < stop && !busy[i] ==> IsOutcome(outs[i], contents[i], cs[i])
      invariant forall i :: 0 <= i < stop && !busy[i] ==> Settled(outs[i].result)
    {
      var path := matches[stop];
      assert matches[..stop + 1][..stop] == matches[..stop] && busy[..stop + 1][..stop] == busy[..stop];
      var out := Outcome(Failed, None);
      if !busy[stop] {
        out := RetryFile(contents[stop], cs[stop]);
        if !Settled(out.result) { return false, removed, stop, outs + [out]; }
        removed := removed + [path];
      } else {
        Empty(removed);
      }
      outs, stop := outs + [out], stop + 1;
    }
    assert matches[..stop] == matches && busy[..stop] == busy;
    ok := true;
  }

  /** What was removed is always a prefix of the inactive files of the snapshot. */
  lemma {:induction false} NotBusyPrefix(matches: seq<string>, busy: seq<bool>, stop: nat)
    requires |busy| == |matches| && stop <= |matches|
    ensures NotBusy(matches[..stop], busy[..stop]) <= NotBusy(matches, busy)
    decreases |matches|
  {
    var n := |matches| - 1;
    if stop == |matches| {
      assert matches[..stop] == matches && busy[..stop] == busy;
    } else {
      NotBusyPrefix(matches[..n], busy[..n], stop);
      assert matches[..n][..stop] == matches[..stop] && busy[..n][..stop] == busy[..stop];
    }
  }
}
