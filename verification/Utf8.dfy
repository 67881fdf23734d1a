/**
 * UTF-8 by the table of section 4 of RFC 3629, proved to be the encoding of code points that its section 3 defines,
 * the way the JSON encoder replaces what is not UTF-8, and the recorder's search for a character that a read cut in
 * two.
 */
module Utf8 {
  import opened Prelude

  predicate Continuation(b: Byte) { 0x80 <= b <= 0xBF }

  /** How long a character that starts with `b` is, 0 for a byte that starts none. */
  function LeadSize(b: Byte): (n: nat)
    ensures n <= 4
  {
    if b < 0x80 then 1
    else if 0xC2 <= b <= 0xDF then 2
    else if 0xE0 <= b <= 0xEF then 3
    else if 0xF0 <= b <= 0xF4 then 4
    else 0
  }

  /** The second byte is restricted after E0, ED, F0 and F4 (overlong forms, surrogates, beyond U+10FFFF). */
  predicate SecondOk(lead: Byte, b: Byte) {
    && Continuation(b)
    && (lead == 0xE0 ==> 0xA0 <= b)
    && (lead == 0xED ==> b <= 0x9F)
    && (lead == 0xF0 ==> 0x90 <= b)
    && (lead == 0xF4 ==> b <= 0x8F)
  }

  /** The length of the well-formed character at the start of `s`, 0 when there is none. */
  function CharLen(s: seq<Byte>): (n: nat)
    ensures n <= |s| && n <= 4
  {
    if s == [] then 0
    else
      var n := LeadSize(s[0]);
      if && n <= |s|
         && (n >= 2 ==> SecondOk(s[0], s[1]))
         && (n >= 3 ==> Continuation(s[2]))
         && (n >= 4 ==> Continuation(s[3]))
      then n else 0
  }

  // What the table means.

  /** A code point that is no surrogate. */
  predicate Scalar(c: int) { 0 <= c <= 0x10FFFF && !(0xD800 <= c <= 0xDFFF) }

  /** Section 3 of RFC 3629: six bits in every byte but the first, in as few bytes as the range of the value allows. */
  function Encode(c: int): (s: seq<Byte>)
    requires Scalar(c)
    ensures 0 < |s| <= 4
  {
    if c < 0x80 then [c]
    else if c < 0x800 then [0xC0 + c / 64, 0x80 + c % 64]
    else if c < 0x1_0000 then [0xE0 + c / 64 / 64, 0x80 + c / 64 % 64, 0x80 + c % 64]
    else [0xF0 + c / 64 / 64 / 64, 0x80 + c / 64 / 64 % 64, 0x80 + c / 64 % 64, 0x80 + c % 64]
  }

  ghost predicate IsEncoding(s: seq<Byte>) { exists c :: Scalar(c) && Encode(c) == s }

  lemma EncodedIsChar(c: int, q: seq<Byte>)
    requires Scalar(c)
    ensures CharLen(Encode(c) + q) == |Encode(c)|
  {
    var e := Encode(c);
    var s := e + q;
    assert forall k :: 0 <= k < |e| ==> s[k] == e[k];
  }

  lemma Shifted(a: int, b: int)
    requires 0 <= b < 64
    ensures (a * 64 + b) / 64 == a && (a * 64 + b) % 64 == b
  {
  }

  lemma TwoBytes(s: seq<Byte>)
    requires CharLen(s) == |s| == 2
    ensures IsEncoding(s)
  {
    var a: int, b: int := s[0], s[1];
    var c := (a - 0xC0) * 64 + (b - 0x80);
    Shifted(a - 0xC0, b - 0x80);
    assert Scalar(c) && Encode(c) == s;
  }

  lemma ThreeBytes(s: seq<Byte>)
    requires CharLen(s) == |s| == 3
    ensures IsEncoding(s)
  {
    var a: int, b: int, d: int := s[0], s[1], s[2];
    var h := (a - 0xE0) * 64 + (b - 0x80);
    var c := h * 64 + (d - 0x80);
    Shifted(a - 0xE0, b - 0x80);
    Shifted(h, d - 0x80);
    assert 0x20 <= h < 0x400 && !(0x360 <= h < 0x380);
    assert Scalar(c) && Encode(c) == s;
  }

  lemma FourBytes(s: seq<Byte>)
    requires CharLen(s) == |s| == 4
    ensures IsEncoding(s)
  {
    var a: int, b: int, d: int, e: int := s[0], s[1], s[2], s[3];
    var g := (a - 0xF0) * 64 + (b - 0x80);
    var h := g * 64 + (d - 0x80);
    var c := h * 64 + (e - 0x80);
    Shifted(a - 0xF0, b - 0x80);
    Shifted(g, d - 0x80);
    Shifted(h, e - 0x80);
    assert 0x10 <= g < 0x110;
    assert Scalar(c) && Encode(c) == s;
  }

  lemma CharIsEncoded(s: seq<Byte>)
    requires 0 < CharLen(s) == |s|
    ensures IsEncoding(s)
  {
    if |s| == 1 {
      assert Encode(s[0]) == s;
    } else if |s| == 2 {
      TwoBytes(s);
    } else if |s| == 3 {
      ThreeBytes(s);
    } else {
      FourBytes(s);
    }
  }

  /** The table recognizes exactly the encodings of code points, each with its length. */
  lemma CharLenIsEncoding(s: seq<Byte>, n: nat)
    requires 0 < n
    ensures CharLen(s) == n <==> n <= |s| && IsEncoding(s[..n])
  {
    if CharLen(s) == n {
      CharLenOfPrefix(s, n);
      CharIsEncoded(s[..n]);
    }
    if n <= |s| && IsEncoding(s[..n]) {
      var c :| Scalar(c) && Encode(c) == s[..n];
      EncodedIsChar(c, s[n..]);
      assert s == s[..n] + s[n..];
    }
  }

  ghost predicate AllScalars(cs: seq<int>) { forall i :: 0 <= i < |cs| ==> Scalar(cs[i]) }

  ghost function EncodeAll(cs: seq<int>): seq<Byte>
    requires AllScalars(cs)
  {
    if cs == [] then [] else Encode(cs[0]) + EncodeAll(cs[1..])
  }

  const REPLACEMENT: seq<Byte> := [0xEF, 0xBF, 0xBD]

  /** What a reader of the JSON string sees: every byte that belongs to no character became one U+FFFD. */
  function Sanitize(s: seq<Byte>): seq<Byte> {
    if s == [] then [] else FirstOut(s) + Sanitize(s[Width(s)..])
  }

  /** utf8.DecodeRune's width: a byte that starts no character is an error of width one. */
  function Width(s: seq<Byte>): (n: nat)
    requires s != []
    ensures 0 < n <= |s|
  {
    if CharLen(s) > 0 then CharLen(s) else 1
  }

  function FirstOut(s: seq<Byte>): seq<Byte>
    requires s != []
  {
    if CharLen(s) > 0 then s[..CharLen(s)] else REPLACEMENT
  }

  predicate WellFormed(s: seq<Byte>) {
    s == [] || (CharLen(s) > 0 && WellFormed(s[CharLen(s)..]))
  }

  lemma {:induction false} EncodedIsWellFormed(cs: seq<int>)
    requires AllScalars(cs)
    ensures WellFormed(EncodeAll(cs))
    decreases |cs|
  {
    if cs != [] {
      var e, rest := Encode(cs[0]), EncodeAll(cs[1..]);
      EncodedIsWellFormed(cs[1..]);
      EncodedIsChar(cs[0], rest);
      assert (e + rest)[|e|..] == rest;
    }
  }

  lemma FirstChar(s: seq<Byte>) returns (c: int)
    requires CharLen(s) > 0
    ensures Scalar(c) && Encode(c) == s[..CharLen(s)]
  {
    CharLenIsEncoding(s, CharLen(s));
    c :| Scalar(c) && Encode(c) == s[..CharLen(s)];
  }

  lemma {:induction false} WellFormedDecodes(s: seq<Byte>) returns (cs: seq<int>)
    requires WellFormed(s)
    ensures AllScalars(cs) && EncodeAll(cs) == s
    decreases |s|
  {
    if s == [] {
      cs := [];
    } else {
      var n := CharLen(s);
      var c := FirstChar(s);
      var rest := WellFormedDecodes(s[n..]);
      cs := [c] + rest;
      assert cs[1..] == rest && s == s[..n] + s[n..];
    }
  }

  /** Well-formed are exactly the encodings of sequences of code points. */
  lemma WellFormedIsEncoding(s: seq<Byte>)
    ensures WellFormed(s) <==> exists cs :: AllScalars(cs) && EncodeAll(cs) == s
  {
    if WellFormed(s) { var cs := WellFormedDecodes(s); }
    forall cs | AllScalars(cs) && EncodeAll(cs) == s ensures WellFormed(s) { EncodedIsWellFormed(cs); }
  }

  /**
   * What the encoder does, in code points: one that is next goes through as it is. If none is, one byte is
   * replaced by U+FFFD.
   */
  lemma SanitizeByCodePoint(s: seq<Byte>)
    ensures s == [] ==> Sanitize(s) == []
    ensures forall c :: Scalar(c) && Encode(c) <= s ==> Sanitize(s) == Encode(c) + Sanitize(s[|Encode(c)|..])
    ensures s != [] && (forall c :: Scalar(c) ==> !(Encode(c) <= s)) ==>
              Sanitize(s) == Encode(0xFFFD) + Sanitize(s[1..])
  {
    forall c | Scalar(c) && Encode(c) <= s ensures Sanitize(s) == Encode(c) + Sanitize(s[|Encode(c)|..]) {
      NextCodePoint(s, c);
    }
    NoCodePoint(s);
  }

  lemma NextCodePoint(s: seq<Byte>, c: int)
    requires Scalar(c) && Encode(c) <= s
    ensures Sanitize(s) == Encode(c) + Sanitize(s[|Encode(c)|..])
  {
    var e := Encode(c);
    EncodedIsChar(c, s[|e|..]);
    assert s == e + s[|e|..];
  }

  lemma NoCodePoint(s: seq<Byte>)
    ensures s != [] && (forall c :: Scalar(c) ==> !(Encode(c) <= s)) ==>
              Sanitize(s) == Encode(0xFFFD) + Sanitize(s[1..])
  {
    assert Encode(0xFFFD) == [0xEF, 0xBF, 0xBD];
    if CharLen(s) > 0 {
      var c := FirstChar(s);
      assert Encode(c) <= s;
    }
  }

  /** A recording is byte exact for exactly the streams that are UTF-8. */
  lemma {:induction false} SanitizeKeepsWellFormed(s: seq<Byte>)
    ensures |Sanitize(s)| >= |s|
    ensures WellFormed(s) <==> |Sanitize(s)| == |s|
    ensures WellFormed(s) <==> Sanitize(s) == s
    decreases |s|
  {
    if s != [] {
      SanitizeKeepsWellFormed(s[Width(s)..]);
      assert s == s[..Width(s)] + s[Width(s)..];
    }
  }

  /** utf8.FullRune: by table and ranges, a short but already hopeless sequence counts as full. */
  predicate FullRune(p: seq<Byte>) {
    p != [] &&
    (|p| >= LeadSize(p[0]) ||
     (|p| > 1 && !SecondOk(p[0], p[1])) ||
     (|p| > 2 && !Continuation(p[2])))
  }

  /** Some continuation of `h` completes a character that `h` is only the beginning of. */
  ghost predicate Completes(h: seq<Byte>, q: seq<Byte>) { CharLen(h + q) > |h| }

  ghost predicate IsHead(h: seq<Byte>) { h != [] && exists q :: Completes(h, q) }

  /** A head is exactly what FullRune calls not full. */
  lemma FullRuneIsNotHead(p: seq<Byte>)
    requires p != []
    ensures FullRune(p) <==> !IsHead(p)
  {
    if !FullRune(p) {
      var lo: Byte := if p[0] == 0xE0 then 0xA0 else if p[0] == 0xF0 then 0x90 else 0x80;
      var q: seq<Byte> := if |p| == 1 then [lo, 0x80, 0x80] else [0x80, 0x80];
      assert |p| <= 3;
      var s := p + q;
      assert SecondOk(s[0], s[1]);
      assert Completes(p, q);
    } else {
      forall q ensures !Completes(p, q) {
        var s := p + q;
        assert forall k :: 0 <= k < |p| ==> s[k] == p[k];
      }
    }
  }

  /** A proper beginning of the encoding of some code point. */
  ghost predicate IsBeginning(h: seq<Byte>) { exists c :: Scalar(c) && h < Encode(c) }

  lemma HeadBegins(h: seq<Byte>)
    requires IsHead(h)
    ensures IsBeginning(h)
  {
    var q :| Completes(h, q);
    var s := h + q;
    var c := FirstChar(s);
    assert h == s[..|h|];
    assert h < Encode(c);
  }

  lemma BeginningIsHead(h: seq<Byte>)
    requires h != [] && IsBeginning(h)
    ensures IsHead(h)
  {
    var c :| Scalar(c) && h < Encode(c);
    var e := Encode(c);
    EncodedIsChar(c, []);
    assert h + e[|h|..] == e && e + [] == e;
    assert Completes(h, e[|h|..]);
  }

  /** In code points: what is held back is exactly a proper beginning of an encoding. */
  lemma HeadIsBeginning(h: seq<Byte>)
    ensures IsHead(h) <==> h != [] && IsBeginning(h)
  {
    if IsHead(h) { HeadBegins(h); }
    if h != [] && IsBeginning(h) { BeginningIsHead(h); }
  }

  /** No character of `s` starts before `k` and ends after it. */
  ghost predicate NoStraddle(s: seq<Byte>, k: nat)
    requires k <= |s|
  {
    forall j :: 0 <= j < k ==> j + CharLen(s[j..]) <= k
  }

  lemma CharLenOfPrefix(s: seq<Byte>, k: nat)
    requires k <= |s| && CharLen(s) <= k
    ensures CharLen(s[..k]) == CharLen(s)
  {
    var t := s[..k];
    assert forall i :: 0 <= i < k ==> t[i] == s[i];
    assert forall i :: 2 <= i < CharLen(t) ==> Continuation(s[i]);
  }

  lemma PrefixDecodesAlike(s: seq<Byte>, k: nat)
    requires 0 < k <= |s| && CharLen(s) <= k
    ensures Width(s[..k]) == Width(s) <= k && FirstOut(s[..k]) == FirstOut(s)
  {
    CharLenOfPrefix(s, k);
    assert s[..k][..CharLen(s)] == s[..CharLen(s)];
  }

  /** Decoding `s` from the left reaches `k` without stepping over it. */
  predicate Aligned(s: seq<Byte>, k: nat)
    requires k <= |s|
    decreases |s|
  {
    k == 0 || (Width(s) <= k && CharLen(s) <= k && Aligned(s[Width(s)..], k - Width(s)))
  }

  lemma NoStraddleRest(s: seq<Byte>, k: nat, n: nat)
    requires n <= k <= |s| && NoStraddle(s, k)
    ensures NoStraddle(s[n..], k - n)
  {
    forall j | 0 <= j < k - n ensures j + CharLen(s[n..][j..]) <= k - n {
      assert s[n..][j..] == s[n + j..];
    }
  }

  lemma {:induction false} NoStraddleAligned(s: seq<Byte>, k: nat)
    requires k <= |s| && NoStraddle(s, k)
    ensures Aligned(s, k)
    decreases |s|
  {
    if k > 0 {
      assert CharLen(s) <= k by { assert s[0..] == s; }
      NoStraddleRest(s, k, Width(s));
      NoStraddleAligned(s[Width(s)..], k - Width(s));
    }
  }

  lemma Slices(s: seq<Byte>, k: nat, n: nat)
    requires n <= k <= |s|
    ensures s[n..][..k - n] == s[..k][n..] && s[n..][k - n..] == s[k..]
  {
  }

  lemma {:induction false} SplitStep(s: seq<Byte>, k: nat, n: nat)
    requires 0 < n <= k <= |s| && Width(s) == n && CharLen(s) <= k
    requires Sanitize(s[n..]) == Sanitize(s[n..][..k - n]) + Sanitize(s[n..][k - n..])
    ensures Sanitize(s) == Sanitize(s[..k]) + Sanitize(s[k..])
  {
    PrefixDecodesAlike(s, k);
    Slices(s, k, n);
    Assoc(FirstOut(s), Sanitize(s[..k][n..]), Sanitize(s[k..]));
  }

  lemma {:induction false} SplitNothing(s: seq<Byte>)
    ensures Sanitize(s) == Sanitize(s[..0]) + Sanitize(s[0..])
  {
    assert s[..0] == [] && s[0..] == s;
    Empty(Sanitize(s));
  }

  /** Where no character straddles, the two halves can be encoded apart. */
  lemma {:induction false} SanitizeSplits(s: seq<Byte>, k: nat)
    requires k <= |s| && Aligned(s, k)
    ensures Sanitize(s) == Sanitize(s[..k]) + Sanitize(s[k..])
    decreases |s|
  {
    if k == 0 {
      SplitNothing(s);
    } else {
      SanitizeSplits(s[Width(s)..], k - Width(s));
      SplitStep(s, k, Width(s));
    }
  }

  /** A byte that is no continuation byte is inside no character. */
  lemma BoundaryAtStart(s: seq<Byte>, j: nat, k: nat)
    requires j < k < |s| && !Continuation(s[k])
    ensures j + CharLen(s[j..]) <= k
  {
    var t := s[j..];
    assert t[k - j] == s[k];
    assert forall i :: 0 < i < CharLen(t) ==> Continuation(t[i]);
  }

  /** The last `i` bytes of `p` are the beginning of a character that `p` does not complete. */
  ghost predicate EndsInHead(p: seq<Byte>, i: nat) { 0 < i <= |p| && IsHead(p[|p| - i..]) }

  /** The number of bytes the recorder must hold back: the head `p` ends in, 0 on a character boundary. */
  ghost function PendingHead(p: seq<Byte>): (n: nat)
    ensures n <= |p|
  {
    if exists i: nat :: EndsInHead(p, i) then var i: nat :| EndsInHead(p, i); i else 0
  }

  /** Where the recorder cuts `p`: everything before goes out, the rest waits. */
  ghost function Cut(p: seq<Byte>): nat { |p| - PendingHead(p) }

  lemma HeadShape(h: seq<Byte>)
    requires IsHead(h)
    ensures |h| <= 3 && !Continuation(h[0]) && forall k :: 0 < k < |h| ==> Continuation(h[k])
  {
    var q :| Completes(h, q);
    assert forall k :: 0 <= k < |h| ==> (h + q)[k] == h[k];
  }

  /** At most one suffix of `p` is a head, so the recorder has no choice of what to hold back. */
  lemma HeadUnique(p: seq<Byte>, i: nat, j: nat)
    requires EndsInHead(p, i) && EndsInHead(p, j)
    ensures i == j
  {
    HeadShape(p[|p| - i..]);
    HeadShape(p[|p| - j..]);
    HeadAt(p, i, j);
    HeadAt(p, j, i);
  }

  lemma HeadAt(p: seq<Byte>, i: nat, j: nat)
    requires 0 < i <= |p| && 0 < j <= |p|
    ensures i <= j ==> p[|p| - j..][j - i] == p[|p| - i..][0]
  {
  }

  lemma StraddlingHead(p: seq<Byte>, q: seq<Byte>, j: nat)
    requires j < |p|
    ensures j + CharLen((p + q)[j..]) > |p| ==> EndsInHead(p, |p| - j)
  {
    assert (p + q)[j..] == p[j..] + q;
    assert p[|p| - (|p| - j)..] == p[j..];
    assert j + CharLen((p + q)[j..]) > |p| ==> Completes(p[j..], q);
  }

  /** Holding back exactly the pending head leaves no character cut in two, whatever comes next. */
  lemma CutIsBoundary(p: seq<Byte>, q: seq<Byte>)
    ensures NoStraddle(p + q, Cut(p))
  {
    var s, cut := p + q, Cut(p);
    if cut < |p| {
      HeadShape(p[cut..]);
      assert s[cut] == p[cut..][0];
    }
    forall j | 0 <= j < cut ensures j + CharLen(s[j..]) <= cut {
      if cut < |p| { BoundaryAtStart(s, j, cut); } else { StraddlingHead(p, q, j); }
    }
  }

  /** An encoder for which a stream may be cut in two wherever the recorder cuts. */
  ghost predicate Splits(enc: seq<Byte> -> seq<Byte>) {
    && enc([]) == []
    && forall p: seq<Byte>, q: seq<Byte> :: SplitsAt(enc, p, q)
  }

  ghost predicate SplitsAt(enc: seq<Byte> -> seq<Byte>, p: seq<Byte>, q: seq<Byte>) {
    enc(p + q) == enc(p[..Cut(p)]) + enc(p[Cut(p)..] + q)
  }

  /** Encoding up to the cut now and the rest with what follows equals encoding it all at once. */
  lemma {:induction false} CarriedHeadSplits(p: seq<Byte>, q: seq<Byte>)
    ensures Sanitize(p + q) == Sanitize(p[..Cut(p)]) + Sanitize(p[Cut(p)..] + q)
  {
    var s, cut := p + q, Cut(p);
    assert s[..cut] == p[..cut] && s[cut..] == p[cut..] + q;
    assert Sanitize(s) == Sanitize(s[..cut]) + Sanitize(s[cut..]) by {
      CutIsBoundary(p, q);
      NoStraddleAligned(s, cut);
      SanitizeSplits(s, cut);
    }
  }

  lemma {:induction false} SanitizeIsSplitting()
    ensures Splits(Sanitize)
  {
    forall p: seq<Byte>, q: seq<Byte> ensures SplitsAt(Sanitize, p, q) {
      CarriedHeadSplits(p, q);
    }
  }

  /** Only the last byte that is no continuation byte can start the head. */
  lemma HeadIsLastStart(p: seq<Byte>, i: nat)
    requires 0 < i <= |p| && !Continuation(p[|p| - i])
    requires forall k :: |p| - i < k < |p| ==> Continuation(p[k])
    ensures PendingHead(p) == if FullRune(p[|p| - i..]) then 0 else i
  {
    FullRuneIsNotHead(p[|p| - i..]);
    var n := PendingHead(p);
    if n > 0 {
      var h := p[|p| - n..];
      HeadShape(h);
      assert h[0] == p[|p| - n];
      HeadAt(p, i, n);
      assert n == i;
    } else {
      assert !EndsInHead(p, i);
    }
  }

  /** After an ASCII byte nothing is held back. */
  lemma AsciiEnd(p: seq<Byte>)
    requires p != [] && p[|p| - 1] < 0x80
    ensures PendingHead(p) == 0
  {
    HeadIsLastStart(p, 1);
  }

  lemma HeadShapeIf(h: seq<Byte>)
    ensures IsHead(h) ==> |h| <= 3 && !Continuation(h[0])
  {
    if IsHead(h) { HeadShape(h); }
  }

  /** Three continuation bytes at the end belong to a character that is complete or broken already. */
  lemma NoHeadInContinuations(p: seq<Byte>, i: nat)
    requires i <= |p| && (i == |p| || i == 3)
    requires forall k :: |p| - i <= k < |p| ==> Continuation(p[k])
    ensures PendingHead(p) == 0
  {
    forall j: nat ensures !EndsInHead(p, j) {
      if 0 < j <= |p| {
        HeadShapeIf(p[|p| - j..]);
        assert p[|p| - j..][0] == p[|p| - j];
      }
    }
  }

  lemma PendingByCodePoint(p: seq<Byte>)
    ensures var n := PendingHead(p);
            if n > 0 then IsBeginning(p[|p| - n..]) else forall j :: 0 <= j < |p| ==> !IsBeginning(p[j..])
  {
    var n := PendingHead(p);
    if n > 0 {
      HeadIsBeginning(p[|p| - n..]);
    } else {
      forall j | 0 <= j < |p| ensures !IsBeginning(p[j..]) {
        HeadIsBeginning(p[j..]);
        assert p[|p| - (|p| - j)..] == p[j..] && !EndsInHead(p, |p| - j);
      }
    }
  }

  /** incompleteTail's loop finds the pending head by looking back at most three bytes. */
  method IncompleteTail(p: seq<Byte>) returns (n: nat)
    ensures n == PendingHead(p)
    ensures n <= 3 && n <= |p|
    ensures if n > 0 then IsBeginning(p[|p| - n..]) else forall j :: 0 <= j < |p| ==> !IsBeginning(p[j..])
  {
    n := TailLength(p);
    PendingByCodePoint(p);
  }

  /** The loop over the last bytes. */
  method TailLength(p: seq<Byte>) returns (n: nat)
    ensures n == PendingHead(p) && n <= 3
  {
    var i := 1;
    while i < 4 && i <= |p|
      invariant 1 <= i <= 4 && i <= |p| + 1
      invariant forall k :: |p| - i < k < |p| ==> Continuation(p[k])
    {
      var tail := p[|p| - i..];
      if !Continuation(tail[0]) {
        HeadIsLastStart(p, i);
        n := if FullRune(tail) then 0 else i;
        return;
      }
      i := i + 1;
    }
    NoHeadInContinuations(p, i - 1);
    n := 0;
  }
}
