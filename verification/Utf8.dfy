/**
 UTF-8 as section 4 of RFC 3629 defines it, and the three functions of the
 language's own library that the output pipeline calls: whether the bytes start
 with a whole rune, decoding the first rune, and encoding a rune.
 */
module Utf8 {
  import opened Bytes

  const RUNE_ERROR := 0xFFFD

  predicate IsCont(b: Byte) {
    0x80 <= b <= 0xBF
  }

  predicate RuneStart(b: Byte) {
    !IsCont(b)
  }

  /** Length of the sequence that lead byte `b` announces; 0 when `b` is no lead byte. */
  function SeqLen(b: Byte): nat {
    if b < 0x80 then 1
    else if 0xC2 <= b <= 0xDF then 2
    else if 0xE0 <= b <= 0xEF then 3
    else if 0xF0 <= b <= 0xF4 then 4
    else 0
  }

  /** The range of the second byte after lead byte `b`. */
  function Low(b: Byte): Byte {
    if b == 0xE0 then 0xA0 else if b == 0xF0 then 0x90 else 0x80
  }

  function High(b: Byte): Byte {
    if b == 0xED then 0x9F else if b == 0xF4 then 0x8F else 0xBF
  }

  /** The bytes of `p` up to `SeqLen` that are present agree with the grammar. */
  predicate FitsSoFar(p: seq<Byte>) {
    && p != [] && SeqLen(p[0]) > 0
    && (|p| > 1 && SeqLen(p[0]) > 1 ==> Low(p[0]) <= p[1] <= High(p[0]))
    && (|p| > 2 && SeqLen(p[0]) > 2 ==> IsCont(p[2]))
    && (|p| > 3 && SeqLen(p[0]) > 3 ==> IsCont(p[3]))
  }

  /** `p` starts with a whole, valid rune. */
  predicate StartsRune(p: seq<Byte>) {
    FitsSoFar(p) && |p| >= SeqLen(p[0])
  }

  function RuneLen(p: seq<Byte>): (n: nat)
    requires StartsRune(p)
    ensures 1 <= n <= 4 && n <= |p|
  {
    SeqLen(p[0])
  }

  ghost predicate ValidUtf8(s: seq<Byte>)
    decreases |s|
  {
    s == [] || (StartsRune(s) && ValidUtf8(s[RuneLen(s)..]))
  }

  // ----- the library functions -----

  /** False only when `p` is empty or a proper prefix of a rune: an invalid
      sequence counts as full, because it decodes to an error of width 1. */
  predicate FullRune(p: seq<Byte>) {
    if p == [] then false
    else
      var n := SeqLen(p[0]);
      if n <= 1 || |p| >= n then true
      else if |p| > 1 && !(Low(p[0]) <= p[1] <= High(p[0])) then true
      else |p| > 2 && !IsCont(p[2])
  }

  /** `q` followed by the six bits of a continuation byte. */
  function Add6(q: int, b: Byte): int {
    q * 0x40 + (b as int - 0x80)
  }

  function DecodeRune(p: seq<Byte>): (r: (int, nat))
    requires p != []
    ensures 1 <= r.1 <= |p|
  {
    var n := SeqLen(p[0]);
    if n == 1 then (p[0], 1)
    else if n == 0 || |p| < n then (RUNE_ERROR, 1)
    else if !(Low(p[0]) <= p[1] <= High(p[0])) then (RUNE_ERROR, 1)
    else if n == 2 then (Add6(p[0] as int - 0xC0, p[1]), 2)
    else if !IsCont(p[2]) then (RUNE_ERROR, 1)
    else if n == 3 then (Add6(Add6(p[0] as int - 0xE0, p[1]), p[2]), 3)
    else if !IsCont(p[3]) then (RUNE_ERROR, 1)
    else (Add6(Add6(Add6(p[0] as int - 0xF0, p[1]), p[2]), p[3]), 4)
  }

  predicate IsScalar(r: int) {
    0 <= r < 0xD800 || 0xE000 <= r < 0x110000
  }

  /** The value without its low six bits. */
  function High6(r: nat): (q: nat)
    ensures q * 0x40 <= r < q * 0x40 + 0x40
  {
    r / 0x40
  }

  /** The continuation byte that carries the low six bits. */
  function Cont6(r: nat): (b: Byte)
    ensures IsCont(b) && b - 0x80 == r - High6(r) * 0x40
  {
    (0x80 + (r - High6(r) * 0x40)) as Byte
  }

  function EncodeRune(r: int): seq<Byte> {
    if 0 <= r < 0x80 then [r]
    else if 0x80 <= r < 0x800 then [0xC0 + High6(r), Cont6(r)]
    else if !IsScalar(r) then [0xEF, 0xBF, 0xBD]
    else if r < 0x10000 then [0xE0 + High6(High6(r)), Cont6(High6(r)), Cont6(r)]
    else [0xF0 + High6(High6(High6(r))), Cont6(High6(High6(r))), Cont6(High6(r)), Cont6(r)]
  }

  // ----- facts -----

  /** Decoding succeeds exactly on whole valid runes. */
  lemma DecodeExact(p: seq<Byte>)
    requires p != []
    ensures StartsRune(p) ==> IsScalar(DecodeRune(p).0) && DecodeRune(p).1 == RuneLen(p)
    ensures !StartsRune(p) ==> DecodeRune(p) == (RUNE_ERROR, 1)
    ensures StartsRune(p) && p[0] >= 0x80 ==> DecodeRune(p).0 >= 0x80 && DecodeRune(p).1 >= 2
  {
  }

  lemma EncodeDecode2(p: seq<Byte>)
    requires StartsRune(p) && SeqLen(p[0]) == 2
    ensures EncodeRune(DecodeRune(p).0) == [p[0], p[1]]
  {
    Shift6(p[0] as int - 0xC0, p[1]);
  }

  lemma EncodeDecode3(p: seq<Byte>)
    requires StartsRune(p) && SeqLen(p[0]) == 3
    ensures EncodeRune(DecodeRune(p).0) == [p[0], p[1], p[2]]
  {
    var q := Add6(p[0] as int - 0xE0, p[1]);
    Shift6(p[0] as int - 0xE0, p[1]);
    Shift6(q, p[2]);
    assert 0x20 <= q < 0x360 || 0x380 <= q < 0x400;
  }

  lemma EncodeDecode4(p: seq<Byte>)
    requires StartsRune(p) && SeqLen(p[0]) == 4
    ensures EncodeRune(DecodeRune(p).0) == [p[0], p[1], p[2], p[3]]
  {
    var q := Add6(p[0] as int - 0xF0, p[1]);
    Shift6(p[0] as int - 0xF0, p[1]);
    Shift6(q, p[2]);
    Shift6(Add6(q, p[2]), p[3]);
    assert 0x10 <= q < 0x110;
  }

  /** Encoding what was decoded gives the same bytes. */
  lemma EncodeDecode(p: seq<Byte>)
    requires StartsRune(p)
    ensures EncodeRune(DecodeRune(p).0) == p[..RuneLen(p)]
  {
    match RuneLen(p)
    case 1 =>
    case 2 => EncodeDecode2(p);
    case 3 => EncodeDecode3(p);
    case _ => EncodeDecode4(p);
  }

  lemma Shift6(q: nat, b: Byte)
    requires IsCont(b)
    ensures High6(Add6(q, b)) == q && Cont6(Add6(q, b)) == b
  {
  }

  lemma DecodeEncode3(r: int, rest: seq<Byte>)
    requires IsScalar(r) && 0x800 <= r < 0x10000
    ensures StartsRune(EncodeRune(r) + rest) && DecodeRune(EncodeRune(r) + rest) == (r, 3)
  {
    var q := High6(r);
    var p := [0xE0 + High6(q), Cont6(q), Cont6(r)] + rest;
    assert p[0] == 0xE0 + High6(q) && p[1] == Cont6(q) && p[2] == Cont6(r);
    assert Add6(High6(q), p[1]) == q && Add6(q, p[2]) == r;
  }

  lemma DecodeEncode4(r: int, rest: seq<Byte>)
    requires IsScalar(r) && r >= 0x10000
    ensures StartsRune(EncodeRune(r) + rest) && DecodeRune(EncodeRune(r) + rest) == (r, 4)
  {
    var q1 := High6(r);
    var q2 := High6(q1);
    var p := [0xF0 + High6(q2), Cont6(q2), Cont6(q1), Cont6(r)] + rest;
    assert p[0] == 0xF0 + High6(q2) && p[1] == Cont6(q2) && p[2] == Cont6(q1) && p[3] == Cont6(r);
    assert Add6(High6(q2), p[1]) == q2 && Add6(q2, p[2]) == q1 && Add6(q1, p[3]) == r;
  }

  /** The encoding of a scalar value is a valid rune and decodes to the value, whatever
      follows; every other value is encoded as the replacement character U+FFFD. */
  lemma DecodeEncode(r: int, rest: seq<Byte>)
    ensures IsScalar(r) ==> StartsRune(EncodeRune(r) + rest)
    ensures IsScalar(r) ==> DecodeRune(EncodeRune(r) + rest) == (r, |EncodeRune(r)|)
    ensures !IsScalar(r) ==> EncodeRune(r) == [0xEF, 0xBF, 0xBD] == EncodeRune(0xFFFD)
  {
    if IsScalar(r) && r >= 0x10000 {
      DecodeEncode4(r, rest);
    } else if IsScalar(r) && r >= 0x800 {
      DecodeEncode3(r, rest);
    }
  }

  /** More bytes change neither the verdict "full" nor what is decoded. */
  lemma FullRuneIsStable(p: seq<Byte>, q: seq<Byte>)
    requires FullRune(p)
    ensures FullRune(p + q) && DecodeRune(p + q) == DecodeRune(p)
  {
  }

  lemma NotFullIsPrefix(p: seq<Byte>)
    ensures !FullRune(p) <==> p == [] || (FitsSoFar(p) && |p| < SeqLen(p[0]))
  {
  }

  lemma {:induction false} ValidAppend(a: seq<Byte>, b: seq<Byte>)
    requires ValidUtf8(a) && ValidUtf8(b)
    ensures ValidUtf8(a + b)
    decreases |a|
  {
    if a == [] {
      assert a + b == b;
    } else {
      var n := RuneLen(a);
      ValidAppend(a[n..], b);
      assert (a + b)[n..] == a[n..] + b;
    }
  }

  lemma {:induction false} ValidFlatten(chunks: seq<seq<Byte>>)
    requires forall i :: 0 <= i < |chunks| ==> ValidUtf8(chunks[i])
    ensures ValidUtf8(Flatten(chunks))
  {
    if chunks != [] {
      ValidFlatten(chunks[1..]);
      ValidAppend(chunks[0], Flatten(chunks[1..]));
    }
  }

  /** A position between two runes of `s`. */
  predicate Boundary(s: seq<Byte>, c: int) {
    0 <= c <= |s| && (c == |s| || RuneStart(s[c]))
  }

  lemma InsideRune(s: seq<Byte>, c: nat)
    requires StartsRune(s) && 0 < c < RuneLen(s)
    ensures IsCont(s[c])
  {
  }

  /** Valid text cut at a boundary is valid on both sides. */
  lemma {:induction false} CutAtBoundary(s: seq<Byte>, c: nat)
    requires ValidUtf8(s) && Boundary(s, c)
    ensures ValidUtf8(s[..c]) && ValidUtf8(s[c..])
    decreases |s|
  {
    if c == 0 {
      assert s[..0] == [] && s[0..] == s;
    } else {
      var n := RuneLen(s);
      if c < n {
        InsideRune(s, c);
      }
      DropTwice(s, n, c - n);
      DropThenTake(s, n, c - n);
      assert Boundary(s[n..], c - n);
      CutAtBoundary(s[n..], c - n);
      assert StartsRune(s[..c]) && RuneLen(s[..c]) == n;
    }
  }

  lemma ValidStartsAtBoundary(s: seq<Byte>)
    requires ValidUtf8(s)
    ensures Boundary(s, 0)
  {
  }

  /** The code points of a text, bytes that are no rune counting as errors. */
  function CodePoints(s: seq<Byte>): seq<int>
    decreases |s|
  {
    if s == [] then [] else [DecodeRune(s).0] + CodePoints(s[DecodeRune(s).1..])
  }
}
