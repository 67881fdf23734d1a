/** A connection that travels in frames over the control stream. */
module Relay {
  import opened Prelude

  type Data = seq<Byte>

  // Reading.

  /** A frame from the backend. `Other` is a message of no known kind. */
  datatype Frame = Data(data: Data) | Closed | Other

  datatype Got = Ok | Eof | Failed

  /** The unread tail of the last frame, and the frames that are still to come. The stream fails after the last. */
  datatype Reader = Reader(pending: Data, rest: seq<Frame>)

  /** The bytes of the data frames, in order. */
  function Bytes(frames: seq<Frame>): Data {
    if frames == [] then [] else (if frames[0].Data? then frames[0].data else []) + Bytes(frames[1..])
  }

  /** Receives until there is something to hand out. */
  function Refill(r: Reader): (Reader, Got)
    decreases |r.rest|
  {
    if r.pending != [] then (r, Ok)
    else if r.rest == [] then (r, Failed)
    else match r.rest[0]
         case Data(d) => Refill(Reader(d, r.rest[1..]))
         case Closed => (Reader([], r.rest[1..]), Eof)
         case Other => Refill(Reader([], r.rest[1..]))
  }

  /** One Read into a buffer of `n` bytes: the bytes it yields, and how it ended. */
  function AfterRead(r: Reader, n: nat): (Reader, Data, Got) {
    var (f, got) := Refill(r);
    if got != Ok then (f, [], got)
    else
      var k := if n < |f.pending| then n else |f.pending|;
      (f.(pending := f.pending[k..]), f.pending[..k], Ok)
  }

  lemma {:induction false} RefillKeeps(r: Reader)
    ensures var (f, got) := Refill(r);
            && f.pending + Bytes(f.rest) == r.pending + Bytes(r.rest)
            && (got == Ok <==> f.pending != [])
            && (got == Eof ==> Closed in r.rest)
    decreases |r.rest|
  {
    if r.pending == [] && r.rest != [] {
      match r.rest[0]
      case Data(d) =>
        RefillKeeps(Reader(d, r.rest[1..]));
        Empty(Bytes(r.rest));
      case Closed =>
        Empty(Bytes(r.rest[1..]));
      case Other =>
        RefillKeeps(Reader([], r.rest[1..]));
        Empty(Bytes(r.rest[1..]));
    }
  }

  /** A frame that hands out nothing and ends nothing. */
  predicate Skipped(f: Frame) { f.Other? || (f.Data? && f.data == []) }

  lemma {:induction false} RefillSkips(r: Reader, k: nat)
    requires r.pending == [] && k <= |r.rest| && forall i :: 0 <= i < k ==> Skipped(r.rest[i])
    ensures Refill(r) == Refill(Reader([], r.rest[k..]))
    decreases k
  {
    if k == 0 {
      assert r.rest[0..] == r.rest && r == Reader([], r.rest);
    } else {
      var r1 := Reader([], r.rest[1..]);
      assert Refill(r) == Refill(r1);
      assert forall i :: 0 <= i < k - 1 ==> r1.rest[i] == r.rest[i + 1];
      RefillSkips(r1, k - 1);
      assert r1.rest[k - 1..] == r.rest[k..];
    }
  }

  /**
   * What one Read yields: as much as fits of what is pending, or else of the first frame with data. If the backend
   * closes before there is one, the end of the stream, and the error of the stream if nothing else comes.
   */
  lemma ReadYields(r: Reader, n: nat, k: nat)
    requires r.pending == [] ==> k <= |r.rest| && forall i :: 0 <= i < k ==> Skipped(r.rest[i])
    ensures r.pending != [] ==> AfterRead(r, n) == Taking(r.pending, r.rest, n)
    ensures r.pending == [] && k == |r.rest| ==> AfterRead(r, n) == (Reader([], []), [], Failed)
    ensures r.pending == [] && k < |r.rest| && r.rest[k].Closed? ==>
              AfterRead(r, n) == (Reader([], r.rest[k + 1..]), [], Eof)
    ensures r.pending == [] && k < |r.rest| && r.rest[k].Data? && r.rest[k].data != [] ==>
              AfterRead(r, n) == Taking(r.rest[k].data, r.rest[k + 1..], n)
  {
    var d := if r.pending != [] then r.pending else if k < |r.rest| && r.rest[k].Data? then r.rest[k].data else [];
    assert d[..|d|] == d && d[|d|..] == [];
    if r.pending == [] {
      RefillSkips(r, k);
      if k < |r.rest| { assert r.rest[k..][0] == r.rest[k] && r.rest[k..][1..] == r.rest[k + 1..]; }
    }
  }

  function Taking(data: Data, rest: seq<Frame>, n: nat): (Reader, Data, Got) {
    if n < |data| then (Reader(data[n..], rest), data[..n], Ok) else (Reader([], rest), data, Ok)
  }

  /** The state and all the bytes after a number of reads with these buffer sizes. */
  function Reads(r: Reader, sizes: seq<nat>): (Reader, Data)
    decreases |sizes|
  {
    if sizes == [] then (r, []) else
      var (r1, d, _) := AfterRead(r, sizes[0]);
      var (r2, more) := Reads(r1, sizes[1..]);
      (r2, d + more)
  }

  lemma {:induction false} ReadKeeps(r: Reader, n: nat)
    ensures var (f, d, got) := AfterRead(r, n);
            && d + (f.pending + Bytes(f.rest)) == r.pending + Bytes(r.rest)
            && |d| <= n
            && (got == Ok && n > 0 ==> d != [])
            && (got != Ok ==> d == [])
  {
    RefillKeeps(r);
    var (f, got) := Refill(r);
    if got == Ok {
      var k := if n < |f.pending| then n else |f.pending|;
      assert f.pending == f.pending[..k] + f.pending[k..];
      Assoc(f.pending[..k], f.pending[k..], Bytes(f.rest));
    } else {
      Empty(f.pending + Bytes(f.rest));
    }
  }

  /**
   * Whatever the buffer sizes and however the bytes are cut into frames, empty ones too: what was read, what is
   * pending and what is still to come are together exactly the bytes of the data frames.
   */
  lemma {:induction false} ReadsConserveBytes(r: Reader, sizes: seq<nat>)
    ensures var (f, d) := Reads(r, sizes);
            d + (f.pending + Bytes(f.rest)) == r.pending + Bytes(r.rest) && d <= r.pending + Bytes(r.rest)
    decreases |sizes|
  {
    if sizes == [] {
      Empty(r.pending + Bytes(r.rest));
    } else {
      ReadKeeps(r, sizes[0]);
      var (r1, d, _) := AfterRead(r, sizes[0]);
      ReadsConserveBytes(r1, sizes[1..]);
      var (r2, more) := Reads(r1, sizes[1..]);
      Assoc(d, more, r2.pending + Bytes(r2.rest));
    }
  }

  /** No read reports the end of the stream. */
  predicate NoEof(r: Reader, sizes: seq<nat>)
    decreases |sizes|
  {
    sizes == [] || (var (r1, _, got) := AfterRead(r, sizes[0]); got != Eof && NoEof(r1, sizes[1..]))
  }

  /** The frames before the backend closed its side. */
  function BeforeClosed(frames: seq<Frame>): seq<Frame> {
    if frames == [] || frames[0].Closed? then [] else [frames[0]] + BeforeClosed(frames[1..])
  }

  lemma {:induction false} RefillBeforeClosed(r: Reader)
    ensures var (f, got) := Refill(r);
            if got == Eof then r.pending + Bytes(BeforeClosed(r.rest)) == []
            else f.pending + Bytes(BeforeClosed(f.rest)) == r.pending + Bytes(BeforeClosed(r.rest))
    decreases |r.rest|
  {
    if r.pending == [] && r.rest != [] && !r.rest[0].Closed? {
      var d := if r.rest[0].Data? then r.rest[0].data else [];
      RefillBeforeClosed(Reader(d, r.rest[1..]));
      assert ([r.rest[0]] + BeforeClosed(r.rest[1..]))[1..] == BeforeClosed(r.rest[1..]);
      Empty(Bytes(BeforeClosed(r.rest)));
      Empty(Bytes(BeforeClosed(r.rest[1..])));
    }
  }

  /** The first end of stream comes after every byte of the frames before it, and not one earlier. */
  lemma {:induction false} EofAfterEverything(r: Reader, sizes: seq<nat>, n: nat)
    requires NoEof(r, sizes) && AfterRead(Reads(r, sizes).0, n).2 == Eof
    ensures Reads(r, sizes).1 == r.pending + Bytes(BeforeClosed(r.rest))
    decreases |sizes|
  {
    RefillBeforeClosed(r);
    if sizes != [] {
      var (r1, d, got) := AfterRead(r, sizes[0]);
      EofAfterEverything(r1, sizes[1..], n);
      var (f, _) := Refill(r);
      if got == Ok {
        assert f.pending == d + r1.pending;
        Assoc(d, r1.pending, Bytes(BeforeClosed(f.rest)));
      } else {
        Empty(Reads(r1, sizes[1..]).1);
      }
    }
  }

  // Writing and closing.

  /** A frame to the backend. Ready is the first one. */
  datatype Sent = Ready | Payload(data: Data) | Goodbye

  /** Who holds the send lock. */
  datatype Holder = Nobody | Writer(data: Data) | Closer

  datatype State = State(closed: bool, holder: Holder, frames: seq<Sent>)

  function Init(): State { State(false, Nobody, [Ready]) }

  /** `arrived` is whether a frame reached the backend, which a failed send does not tell. */
  datatype Act =
    | BeginWrite(data: Data)
    | SendData(arrived: bool)
    | TryClose
    | SendGoodbye(arrived: bool)

  /** Write waits for the lock, Close only tries it. */
  predicate Can(s: State, a: Act) {
    match a
    case BeginWrite(_) => s.holder.Nobody?
    case SendData(_) => s.holder.Writer?
    case TryClose => true
    case SendGoodbye(_) => s.holder.Closer?
  }

  function Do(s: State, a: Act): State
    requires Can(s, a)
  {
    match a
    case BeginWrite(data) => if s.closed then s else s.(holder := Writer(data))
    case SendData(arrived) =>
      s.(holder := Nobody, frames := if arrived then s.frames + [Payload(s.holder.data)] else s.frames)
    case TryClose => if s.holder.Nobody? && !s.closed then s.(closed := true, holder := Closer) else s
    case SendGoodbye(arrived) => s.(holder := Nobody, frames := if arrived then s.frames + [Goodbye] else s.frames)
  }

  function Exec(s: State, run: seq<Act>): Option<State>
    decreases |run|
  {
    if run == [] then Some(s)
    else if Can(s, run[0]) then Exec(Do(s, run[0]), run[1..])
    else None
  }

  /** Ready, then payload only, then at most one goodbye. */
  predicate InOrder(frames: seq<Sent>) {
    && frames != [] && frames[0] == Ready
    && forall i :: 1 <= i < |frames| ==> frames[i].Payload? || (frames[i] == Goodbye && i == |frames| - 1)
  }

  ghost predicate Inv(s: State) {
    && InOrder(s.frames)
    && (s.holder.Writer? ==> !s.closed)
    && (s.holder.Closer? ==> s.closed)
    && (Goodbye in s.frames ==> s.closed && s.holder.Nobody?)
  }

  lemma {:induction false} RunKeepsInv(s: State, run: seq<Act>)
    requires Inv(s) && Exec(s, run).Some?
    ensures Inv(Exec(s, run).value)
    decreases |run|
  {
    if run != [] { RunKeepsInv(Do(s, run[0]), run[1..]); }
  }

  lemma {:induction false} NothingAfterGoodbye(s: State, more: seq<Act>)
    requires s.closed && s.holder.Nobody? && Exec(s, more).Some?
    ensures Exec(s, more).value == s
    decreases |more|
  {
    if more != [] { NothingAfterGoodbye(s, more[1..]); }
  }

  /** In every interleaving of writes and closes the frames are in order, and once Closed was sent none follows. */
  lemma FramesInOrder(run: seq<Act>, more: seq<Act>)
    requires Exec(Init(), run).Some? && Exec(Exec(Init(), run).value, more).Some?
    ensures var s := Exec(Init(), run).value;
            && InOrder(s.frames) && (Goodbye in s.frames ==> Exec(s, more).value.frames == s.frames)
            && Can(s, TryClose)
            && match s.holder
               case Nobody => forall p :: Can(s, BeginWrite(p))
               case Writer(_) => forall arrived :: Can(s, SendData(arrived))
               case Closer => forall arrived :: Can(s, SendGoodbye(arrived))
  {
    RunKeepsInv(Init(), run);
    var s := Exec(Init(), run).value;
    if Goodbye in s.frames { NothingAfterGoodbye(s, more); }
  }

  /** The relayed connection. `incoming` are the frames the stream will yield, then it fails. */
  class RelayConn {
    var pending: Data
    var incoming: seq<Frame>
    var closed: bool
    var sent: seq<Sent>

    method Read(n: nat) returns (data: Data, got: Got)
      modifies this
      ensures (Reader(pending, incoming), data, got) == AfterRead(Reader(old(pending), old(incoming)), n)
      ensures closed == old(closed) && sent == old(sent)
    {
      while |pending| == 0
        invariant Refill(Reader(pending, incoming)) == Refill(Reader(old(pending), old(incoming)))
        invariant closed == old(closed) && sent == old(sent)
        decreases |incoming|, |pending| == 0
      {
        if incoming == [] { return [], Failed; }
        var msg := incoming[0];
        incoming := incoming[1..];
        match msg
        case Data(d) => pending := d;
        case Closed => return [], Eof;
        case Other =>
      }
      var k := if n < |pending| then n else |pending|;
      data, got := pending[..k], Ok;
      pending := pending[k..];
    }

    /** Both with the lock held from beginning to end, and Close in the case that it got it. */
    method Write(p: Data, arrived: bool, failed: bool) returns (n: nat, ok: bool)
      requires !failed ==> arrived
      modifies this
      ensures ok == (!old(closed) && !failed) && n == (if ok then |p| else 0) && closed == old(closed)
      ensures var s := State(old(closed), Nobody, old(sent));
              var t := Do(s, BeginWrite(p));
              State(closed, Nobody, sent) == if old(closed) then t else Do(t, SendData(arrived))
      ensures ok ==> sent == old(sent) + [Payload(p)]
    {
      if closed { return 0, false; }
      if arrived { sent := sent + [Payload(p)]; }
      if failed { return 0, false; }
      return |p|, true;
    }

    method CloseLocked(arrived: bool)
      modifies this
      ensures closed
      ensures var t := Do(State(old(closed), Nobody, old(sent)), TryClose);
              State(closed, Nobody, sent) == if old(closed) then t else Do(t, SendGoodbye(arrived))
      ensures sent == if arrived && !old(closed) then old(sent) + [Goodbye] else old(sent)
    {
      if !closed {
        closed := true;
        if arrived { sent := sent + [Goodbye]; }
      }
    }
  }
}
