/**
 The prompt-marker parser of shell mode (`aiMarkerParser` and `aiInterleave`,
 ai_session.go).

 `Parse` says declaratively what a stream means: at each position a marker that
 starts there is taken, a byte that starts none is data, and an unfinished
 marker at the end is held. The incremental parser pushes bytes back and
 rescans; it is proved to compute `Parse` whatever the chunking.
 */
module MarkerParser {
  import opened Bytes

  const RS: Byte := 0x1e
  const COLON: Byte := 0x3a
  const CODE_MAX := 4

  /** "\x1eSG:<nonce>:" */
  function Ps1(nonce: seq<Byte>): seq<Byte> {
    [RS, 0x53, 0x47, COLON] + nonce + [COLON]
  }

  /** "\x1eSG2:<nonce>\x1e" */
  function Ps2(nonce: seq<Byte>): seq<Byte> {
    [RS, 0x53, 0x47, 0x32, COLON] + nonce + [RS]
  }

  predicate IsDigit(b: Byte) {
    0x30 <= b <= 0x39
  }

  predicate AllDigits(s: seq<Byte>) {
    forall i :: 0 <= i < |s| ==> IsDigit(s[i])
  }

  function Decimal(s: seq<Byte>): nat
    requires AllDigits(s)
  {
    if s == [] then 0 else 10 * Decimal(s[..|s| - 1]) + (s[|s| - 1] - 0x30)
  }

  // ----- what a marker is -----

  predicate IsCodeMarker(nonce: seq<Byte>, m: seq<Byte>) {
    var n := |Ps1(nonce)|;
    && n + 2 <= |m| <= n + CODE_MAX + 1
    && Ps1(nonce) <= m
    && AllDigits(m[n..|m| - 1])
    && m[|m| - 1] == RS
  }

  predicate IsMarker(nonce: seq<Byte>, m: seq<Byte>) {
    m == Ps2(nonce) || IsCodeMarker(nonce, m)
  }

  /** A non-empty proper prefix of some marker; see `PartialMeansExtendable`. */
  predicate IsPartial(nonce: seq<Byte>, p: seq<Byte>) {
    var n := |Ps1(nonce)|;
    || (0 < |p| < |Ps2(nonce)| && p <= Ps2(nonce))
    || (0 < |p| <= n && p <= Ps1(nonce))
    || (n < |p| <= n + CODE_MAX && Ps1(nonce) <= p && AllDigits(p[n..]))
  }

  lemma PartialMeansExtendable(nonce: seq<Byte>, p: seq<Byte>)
    ensures IsPartial(nonce, p) <==> p != [] && exists m :: IsMarker(nonce, m) && p < m
  {
    if IsPartial(nonce, p) {
      var m := Completion(nonce, p);
      assert IsMarker(nonce, m) && p < m;
    }
    if m :| p != [] && IsMarker(nonce, m) && p < m {
      ProperPrefixIsPartial(nonce, p, m);
    }
  }

  /** A marker that a partial one can become. */
  lemma Completion(nonce: seq<Byte>, p: seq<Byte>) returns (m: seq<Byte>)
    requires IsPartial(nonce, p)
    ensures p != [] && IsMarker(nonce, m) && p < m
  {
    var ps1 := Ps1(nonce);
    if p <= Ps2(nonce) && |p| < |Ps2(nonce)| {
      m := Ps2(nonce);
    } else if |p| <= |ps1| {
      m := ps1 + [0x30, RS];
    } else {
      m := p + [RS];
      assert m[|ps1|..|m| - 1] == p[|ps1|..];
    }
  }

  lemma ProperPrefixIsPartial(nonce: seq<Byte>, p: seq<Byte>, m: seq<Byte>)
    requires p != [] && IsMarker(nonce, m) && p < m
    ensures IsPartial(nonce, p)
  {
    if m != Ps2(nonce) {
      PrefixOfCodeMarker(nonce, p, m);
    }
  }

  lemma PrefixOfCodeMarker(nonce: seq<Byte>, p: seq<Byte>, m: seq<Byte>)
    requires p != [] && IsCodeMarker(nonce, m) && p < m
    ensures IsPartial(nonce, p)
  {
    var n := |Ps1(nonce)|;
    if |p| <= n {
      assert p == Ps1(nonce)[..|p|];
    } else {
      assert p[n..] == m[n..|m| - 1][..|p| - n];
      assert Ps1(nonce) == p[..n];
    }
  }

  /** No marker is a proper prefix of another, whatever the nonce. */
  lemma MarkersArePrefixFree(nonce: seq<Byte>, m: seq<Byte>, m': seq<Byte>)
    requires IsMarker(nonce, m) && IsMarker(nonce, m') && m <= m'
    ensures m == m'
  {
    var n := |Ps1(nonce)|;
    if m == Ps2(nonce) || m' == Ps2(nonce) {
      assert Ps1(nonce)[3] != Ps2(nonce)[3];
    } else {
      assert forall i :: n <= i < |m'| - 1 ==> m'[n..|m'| - 1][i - n] == m'[i];
    }
  }

  lemma PrefixOfPartial(nonce: seq<Byte>, p: seq<Byte>, q: seq<Byte>)
    requires p != [] && p <= q && IsPartial(nonce, q)
    ensures IsPartial(nonce, p)
  {
    var n := |Ps1(nonce)|;
    if |p| > n && !(q <= Ps2(nonce)) {
      assert p[n..] == q[n..|p|];
    }
  }

  // ----- the declarative parse -----

  datatype Token = Data(b: Byte) | Mark(raw: seq<Byte>)

  datatype Parsed = Parsed(tokens: seq<Token>, held: seq<Byte>)

  ghost predicate StartsWithMarker(nonce: seq<Byte>, s: seq<Byte>) {
    exists n :: 0 <= n <= |s| && IsMarker(nonce, s[..n])
  }

  ghost function MarkerLen(nonce: seq<Byte>, s: seq<Byte>): (n: nat)
    requires StartsWithMarker(nonce, s)
    ensures 0 < n <= |s| && IsMarker(nonce, s[..n])
  {
    var n :| 0 <= n <= |s| && IsMarker(nonce, s[..n]);
    n
  }

  ghost function Parse(nonce: seq<Byte>, s: seq<Byte>): Parsed
    decreases |s|
  {
    if s == [] then Parsed([], [])
    else if StartsWithMarker(nonce, s) then
      var n := MarkerLen(nonce, s);
      var r := Parse(nonce, s[n..]);
      Parsed([Mark(s[..n])] + r.tokens, r.held)
    else if IsPartial(nonce, s) then Parsed([], s)
    else
      var r := Parse(nonce, s[1..]);
      Parsed([Data(s[0])] + r.tokens, r.held)
  }

  function Encode(tokens: seq<Token>): seq<Byte> {
    if tokens == [] then []
    else Spell(tokens[0]) + Encode(tokens[1..])
  }

  function Spell(t: Token): seq<Byte> {
    match t
    case Data(b) => [b]
    case Mark(raw) => raw
  }

  lemma EncodeThen(t: Token, r: Parsed, first: seq<Byte>, rest: seq<Byte>)
    requires Spell(t) == first && Encode(r.tokens) + r.held == rest
    ensures Encode([t] + r.tokens) + r.held == first + rest
  {
    assert ([t] + r.tokens)[1..] == r.tokens;
  }

  /** Nothing is lost or invented: the tokens and the held tail spell the input. */
  lemma {:induction false} ParseLosesNothing(nonce: seq<Byte>, s: seq<Byte>)
    ensures Encode(Parse(nonce, s).tokens) + Parse(nonce, s).held == s
    decreases |s|
  {
    if s == [] {
    } else if StartsWithMarker(nonce, s) {
      var n := MarkerLen(nonce, s);
      var r := Parse(nonce, s[n..]);
      ParseLosesNothing(nonce, s[n..]);
      EncodeThen(Mark(s[..n]), r, s[..n], s[n..]);
    } else if !IsPartial(nonce, s) {
      ParseLosesNothing(nonce, s[1..]);
      EncodeThen(Data(s[0]), Parse(nonce, s[1..]), [s[0]], s[1..]);
    }
  }

  lemma {:induction false} HeldIsPartial(nonce: seq<Byte>, s: seq<Byte>)
    ensures Parse(nonce, s).held == [] || IsPartial(nonce, Parse(nonce, s).held)
    decreases |s|
  {
    if s != [] {
      if StartsWithMarker(nonce, s) {
        HeldIsPartial(nonce, s[MarkerLen(nonce, s)..]);
      } else if !IsPartial(nonce, s) {
        HeldIsPartial(nonce, s[1..]);
      }
    }
  }

  /** Only whole markers are taken out of the stream. */
  lemma {:induction false} OnlyMarkersAreTaken(nonce: seq<Byte>, s: seq<Byte>, i: nat)
    requires i < |Parse(nonce, s).tokens| && Parse(nonce, s).tokens[i].Mark?
    ensures IsMarker(nonce, Parse(nonce, s).tokens[i].raw)
    decreases |s|
  {
    var (first, rest) := ParseHead(nonce, s);
    TokenBehind(first, Parse(nonce, rest), i);
    if i > 0 {
      OnlyMarkersAreTaken(nonce, rest, i - 1);
    }
  }

  /** The first token and what is parsed behind it. */
  ghost function ParseHead(nonce: seq<Byte>, s: seq<Byte>): (r: (Token, seq<Byte>))
    requires Parse(nonce, s).tokens != []
    ensures |r.1| < |s| && Parse(nonce, s) == Then([r.0], Parse(nonce, r.1))
    ensures r.0.Mark? ==> IsMarker(nonce, r.0.raw)
  {
    if StartsWithMarker(nonce, s) then (Mark(s[..MarkerLen(nonce, s)]), s[MarkerLen(nonce, s)..])
    else (Data(s[0]), s[1..])
  }

  lemma TokenBehind(first: Token, r: Parsed, i: nat)
    requires i < |Then([first], r).tokens|
    ensures i == 0 ==> Then([first], r).tokens[i] == first
    ensures i > 0 ==> i - 1 < |r.tokens| && Then([first], r).tokens[i] == r.tokens[i - 1]
  {
  }

  lemma ParseMarkerFirst(nonce: seq<Byte>, m: seq<Byte>, rest: seq<Byte>)
    requires IsMarker(nonce, m)
    ensures Parse(nonce, m + rest)
         == Then([Mark(m)], Parse(nonce, rest))
  {
    var s := m + rest;
    assert s[..|m|] == m;
    var n := MarkerLen(nonce, s);
    if n <= |m| {
      MarkersArePrefixFree(nonce, s[..n], m);
    } else {
      MarkersArePrefixFree(nonce, m, s[..n]);
    }
    assert s[|m|..] == rest;
  }

  /** `p` can no longer become a marker: its first byte is data. */
  predicate Dead(nonce: seq<Byte>, p: seq<Byte>) {
    p != [] && !IsPartial(nonce, p) && !StartsWithMarkerBounded(nonce, p)
  }

  predicate StartsWithMarkerBounded(nonce: seq<Byte>, s: seq<Byte>) {
    exists n | 0 <= n <= |s| :: IsMarker(nonce, s[..n])
  }

  lemma DeadStaysDead(nonce: seq<Byte>, p: seq<Byte>, rest: seq<Byte>)
    requires Dead(nonce, p)
    ensures Dead(nonce, p + rest)
  {
    var s := p + rest;
    if IsPartial(nonce, s) {
      PrefixOfPartial(nonce, p, s);
    }
    forall n | 0 <= n <= |s| ensures !IsMarker(nonce, s[..n]) {
      DeadHasNoMarker(nonce, p, rest, n);
    }
  }

  lemma DeadHasNoMarker(nonce: seq<Byte>, p: seq<Byte>, rest: seq<Byte>, n: nat)
    requires Dead(nonce, p) && n <= |p + rest|
    ensures !IsMarker(nonce, (p + rest)[..n])
  {
    if n <= |p| {
      assert (p + rest)[..n] == p[..n];
    } else {
      PartialMeansExtendable(nonce, p);
      assert p < (p + rest)[..n];
    }
  }

  lemma ParseDeadFirst(nonce: seq<Byte>, p: seq<Byte>, rest: seq<Byte>)
    requires Dead(nonce, p)
    ensures Parse(nonce, p + rest)
         == Then([Data(p[0])], Parse(nonce, p[1..] + rest))
  {
    DeadStaysDead(nonce, p, rest);
    assert !StartsWithMarker(nonce, p + rest);
    assert (p + rest)[1..] == p[1..] + rest;
  }

  /** Chunk invariance for one pair. */
  ghost predicate Appends(nonce: seq<Byte>, a: seq<Byte>, b: seq<Byte>) {
    Parse(nonce, a + b) == Then(Parse(nonce, a).tokens, Parse(nonce, Parse(nonce, a).held + b))
  }

  lemma AppendAfterMarker(nonce: seq<Byte>, m: seq<Byte>, a: seq<Byte>, b: seq<Byte>)
    requires IsMarker(nonce, m) && Appends(nonce, a, b)
    ensures Appends(nonce, m + a, b)
  {
    ParseMarkerFirst(nonce, m, a);
    ParseMarkerFirst(nonce, m, a + b);
    Assoc(m, a, b);
    ThenCons(Mark(m), Parse(nonce, a).tokens, Parse(nonce, Parse(nonce, a).held + b));
  }

  lemma AppendAfterData(nonce: seq<Byte>, a: seq<Byte>, b: seq<Byte>)
    requires Dead(nonce, a) && Appends(nonce, a[1..], b)
    ensures Appends(nonce, a, b)
  {
    ParseDeadFirst(nonce, a, b);
    ParseDeadFirst(nonce, a, []);
    assert a + [] == a && a[1..] + [] == a[1..];
    ThenCons(Data(a[0]), Parse(nonce, a[1..]).tokens, Parse(nonce, Parse(nonce, a[1..]).held + b));
  }

  lemma AppendWhileHeld(nonce: seq<Byte>, a: seq<Byte>, b: seq<Byte>)
    requires Parse(nonce, a) == Parsed([], a)
    ensures Appends(nonce, a, b)
  {
    assert [] + Parse(nonce, a + b).tokens == Parse(nonce, a + b).tokens;
  }

  /** Chunk invariance of the meaning: parsing `a` and then its held tail with
      `b` is parsing `a + b`. */
  lemma {:induction false} ParseAppend(nonce: seq<Byte>, a: seq<Byte>, b: seq<Byte>)
    ensures Parse(nonce, a + b) == Then(Parse(nonce, a).tokens, Parse(nonce, Parse(nonce, a).held + b))
    decreases |a|
  {
    if a == [] {
      AppendWhileHeld(nonce, a, b);
    } else if StartsWithMarker(nonce, a) {
      var n := MarkerLen(nonce, a);
      ParseAppend(nonce, a[n..], b);
      AppendAfterMarker(nonce, a[..n], a[n..], b);
      assert a == a[..n] + a[n..];
    } else if IsPartial(nonce, a) {
      AppendWhileHeld(nonce, a, b);
    } else {
      assert Dead(nonce, a);
      ParseAppend(nonce, a[1..], b);
      AppendAfterData(nonce, a, b);
    }
  }

  /** `r` after the tokens `before`. */
  function Then(before: seq<Token>, r: Parsed): Parsed {
    Parsed(before + r.tokens, r.held)
  }

  lemma ThenCons(t: Token, before: seq<Token>, r: Parsed)
    ensures Then([t] + before, r) == Then([t], Then(before, r))
  {
    assert ([t] + before) + r.tokens == [t] + (before + r.tokens);
  }

  lemma ThenSnoc(before: seq<Token>, t: Token, r: Parsed)
    ensures Then(before, Then([t], r)) == Then(before + [t], r)
  {
    assert before + ([t] + r.tokens) == (before + [t]) + r.tokens;
  }

  // ----- data and markers as `feed` returns them -----

  /** A prompt marker and its position in the data returned with it. */
  datatype Marker = Marker(at: nat, code: nat, continuation: bool)

  function MarkerOf(nonce: seq<Byte>, raw: seq<Byte>, at: nat): Marker {
    if IsCodeMarker(nonce, raw) then Marker(at, Decimal(raw[|Ps1(nonce)|..|raw| - 1]), false)
    else Marker(at, 0, true)
  }

  function DataOf(tokens: seq<Token>): seq<Byte> {
    if tokens == [] then []
    else
      var last := tokens[|tokens| - 1];
      DataOf(tokens[..|tokens| - 1]) + (if last.Data? then [last.b] else [])
  }

  function MarkersOf(nonce: seq<Byte>, tokens: seq<Token>): seq<Marker> {
    if tokens == [] then []
    else
      var init, last := tokens[..|tokens| - 1], tokens[|tokens| - 1];
      MarkersOf(nonce, init) + (if last.Mark? then [MarkerOf(nonce, last.raw, |DataOf(init)|)] else [])
  }

  datatype Verdict = Partial | NoMarker | Continuation | Code(code: nat)

  /** `check`: classify the held bytes. */
  function Check(nonce: seq<Byte>, p: seq<Byte>): Verdict
    requires p != []
  {
    var ps1, ps2 := Ps1(nonce), Ps2(nonce);
    if |p| <= |ps2| && ps2[..|p|] == p then
      if |p| == |ps2| then Continuation else Partial
    else if |p| <= |ps1| then
      if ps1[..|p|] == p then Partial else NoMarker
    else if p[..|ps1|] != ps1 then NoMarker
    else
      var rest := p[|ps1|..];
      var last := rest[|rest| - 1];
      if last == RS then
        var digits := rest[..|rest| - 1];
        if digits == [] || !AllDigits(digits) then NoMarker else Code(Decimal(digits))
      else if !IsDigit(last) || |rest| > CODE_MAX then NoMarker
      else Partial
  }

  lemma CheckPartial(nonce: seq<Byte>, p: seq<Byte>, b: Byte)
    requires IsPartial(nonce, p)
    ensures Check(nonce, p + [b]).Partial? <==> IsPartial(nonce, p + [b])
  {
    var q, n := p + [b], |Ps1(nonce)|;
    assert Ps1(nonce)[3] != Ps2(nonce)[3];
    assert |q| <= |Ps2(nonce)| && Ps2(nonce)[..|q|] == q <==> q <= Ps2(nonce);
    if |q| <= n {
      assert Ps1(nonce)[..|q|] == q <==> q <= Ps1(nonce);
    } else {
      assert q[..n] == Ps1(nonce) <==> Ps1(nonce) <= q;
      if |p| > n {
        assert q[n..] == p[n..] + [b];
      }
    }
  }

  lemma CheckContinuation(nonce: seq<Byte>, q: seq<Byte>)
    requires q != []
    ensures Check(nonce, q).Continuation? <==> q == Ps2(nonce)
  {
    if |q| == |Ps2(nonce)| {
      assert Ps2(nonce)[..|q|] == Ps2(nonce);
    }
  }

  lemma CheckCode(nonce: seq<Byte>, p: seq<Byte>, b: Byte)
    requires IsPartial(nonce, p)
    ensures var q, v := p + [b], Check(nonce, p + [b]);
            && (v.Code? <==> IsCodeMarker(nonce, q))
            && (v.Code? ==> v.code == Decimal(q[|Ps1(nonce)|..|q| - 1]))
  {
    var q, n := p + [b], |Ps1(nonce)|;
    assert Ps1(nonce)[3] != Ps2(nonce)[3];
    if |q| > n {
      assert q[..n] == Ps1(nonce) <==> Ps1(nonce) <= q;
      assert q[n..][..|q[n..]| - 1] == q[n..|q| - 1];
      if |p| > n {
        assert p[n..] == q[n..|q| - 1];
      }
    }
  }

  /** Fed one byte at a time from partial markers, `check` decides exactly. */
  lemma CheckIsExact(nonce: seq<Byte>, p: seq<Byte>, b: Byte)
    requires IsPartial(nonce, p)
    ensures var q, v := p + [b], Check(nonce, p + [b]);
            && (v.Partial? <==> IsPartial(nonce, q))
            && (v.Continuation? <==> q == Ps2(nonce))
            && (v.Code? <==> IsCodeMarker(nonce, q))
            && (v.Code? ==> v.code == Decimal(q[|Ps1(nonce)|..|q| - 1]))
            && (v.NoMarker? <==> Dead(nonce, q))
  {
    CheckPartial(nonce, p, b);
    CheckContinuation(nonce, p + [b]);
    CheckCode(nonce, p, b);
    NoShorterMarker(nonce, p, b);
  }

  lemma NoShorterMarker(nonce: seq<Byte>, p: seq<Byte>, b: Byte)
    requires IsPartial(nonce, p)
    ensures StartsWithMarkerBounded(nonce, p + [b]) <==> IsMarker(nonce, p + [b])
  {
    var q := p + [b];
    assert q[..|q|] == q;
    forall n | 0 <= n < |q| ensures !IsMarker(nonce, q[..n]) {
      assert q[..n] == p[..n];
      PartialHasNoMarker(nonce, p, n);
    }
  }

  lemma PartialHasNoMarker(nonce: seq<Byte>, p: seq<Byte>, n: nat)
    requires IsPartial(nonce, p) && n <= |p|
    ensures !IsMarker(nonce, p[..n])
  {
    PartialMeansExtendable(nonce, p);
    var m :| IsMarker(nonce, m) && p < m;
    if IsMarker(nonce, p[..n]) {
      MarkersArePrefixFree(nonce, p[..n], m);
    }
  }

  class Parser {
    const nonce: seq<Byte>
    var pend: seq<Byte>

    ghost predicate Valid()
      reads this
    {
      pend == [] || IsPartial(nonce, pend)
    }

    constructor (nonce: seq<Byte>)
      ensures Valid() && this.nonce == nonce && pend == []
    {
      this.nonce := nonce;
      pend := [];
    }

    /** `check` on the held bytes, all but the last of which were a partial marker. */
    method Classify() returns (v: Verdict)
      requires |pend| > 1 && IsPartial(nonce, pend[..|pend| - 1])
      ensures v.Partial? <==> IsPartial(nonce, pend)
      ensures v.Continuation? <==> pend == Ps2(nonce)
      ensures v.Code? <==> IsCodeMarker(nonce, pend)
      ensures v.Code? ==> v.code == Decimal(pend[|Ps1(nonce)|..|pend| - 1])
      ensures v.NoMarker? <==> Dead(nonce, pend)
    {
      v := Check(nonce, pend);
      assert pend == pend[..|pend| - 1] + [pend[|pend| - 1]];
      CheckIsExact(nonce, pend[..|pend| - 1], pend[|pend| - 1]);
    }

    /** One turn of the loop of `feed`: byte `b` is taken off the queue and bytes of
        a broken marker are pushed back. `step` is the token that it completes, if any. */
    method TakeByte(b: Byte, rest: seq<Byte>, at: nat)
      returns (bytes: seq<Byte>, marks: seq<Marker>, queue: seq<Byte>, ghost step: seq<Token>)
      requires Valid()
      modifies this`pend
      ensures Valid()
      ensures Parse(nonce, old(pend) + [b] + rest) == Then(step, Parse(nonce, pend + queue))
      ensures |step| <= 1 && bytes == (if |step| == 1 && step[0].Data? then [step[0].b] else [])
      ensures marks == (if |step| == 1 && step[0].Mark? then [MarkerOf(nonce, step[0].raw, at)] else [])
      ensures |pend| + |queue| <= |old(pend)| + |rest| + 1
      ensures |pend| + |queue| == |old(pend)| + |rest| + 1 ==> |queue| <= |rest|
    {
      bytes, marks, queue, step := [], [], rest, [];
      if pend == [] {
        assert pend + [b] + rest == [b] + rest;
        if b == RS {
          pend := [b];
          assert [] + Parse(nonce, pend + queue).tokens == Parse(nonce, pend + queue).tokens;
        } else {
          bytes, step := [b], [Data(b)];
          ParseByteFirst(nonce, b, rest);
          assert pend + queue == rest;
        }
        return;
      }
      ghost var partial := pend;
      pend := pend + [b];
      assert pend[..|pend| - 1] == partial;
      var v := Classify();
      match v {
        case Partial =>
          assert [] + Parse(nonce, pend + queue).tokens == Parse(nonce, pend + queue).tokens;
        case Continuation =>
          ParseMarkerFirst(nonce, pend, queue);
          step, marks := [Mark(pend)], [Marker(at, 0, true)];
          assert Ps1(nonce)[3] != Ps2(nonce)[3];
          pend := [];
          assert pend + queue == queue;
        case Code(code) =>
          ParseMarkerFirst(nonce, pend, queue);
          step, marks := [Mark(pend)], [Marker(at, code, false)];
          pend := [];
          assert pend + queue == queue;
        case NoMarker =>
          ParseDeadFirst(nonce, pend, queue);
          step, bytes := [Data(pend[0])], [pend[0]];
          queue := pend[1..] + queue;
          pend := [];
          assert pend + queue == queue;
      }
    }

    /** The data and the markers of the stream so far, in stream order, are those
        of the declarative parse; what is held is its held tail. */
    method Feed(p: seq<Byte>) returns (data: seq<Byte>, marks: seq<Marker>)
      requires Valid()
      modifies this`pend
      ensures Valid()
      ensures var r := Parse(nonce, old(pend) + p);
              data == DataOf(r.tokens) && marks == MarkersOf(nonce, r.tokens) && pend == r.held
    {
      ghost var whole := Parse(nonce, pend + p);
      ghost var tokens: seq<Token> := [];
      assert [] + whole.tokens == whole.tokens;
      data, marks := [], [];
      var queue := p;
      while queue != []
        invariant Valid()
        invariant data == DataOf(tokens) && marks == MarkersOf(nonce, tokens)
        invariant whole == Then(tokens, Parse(nonce, pend + queue))
        decreases |pend| + |queue|, |queue|
      {
        assert pend + queue == pend + [queue[0]] + queue[1..];
        var bytes, found, left, step := TakeByte(queue[0], queue[1..], |data|);
        PushStep(nonce, tokens, step, Parse(nonce, pend + left));
        data, marks, queue, tokens := data + bytes, marks + found, left, tokens + step;
      }
      assert pend + queue == pend;
      HeldParsesToItself(nonce, pend);
      assert tokens + [] == tokens;
    }
  }

  // ----- one step of the loop -----

  lemma PushToken(nonce: seq<Byte>, tokens: seq<Token>, t: Token)
    ensures DataOf(tokens + [t]) == DataOf(tokens) + (if t.Data? then [t.b] else [])
    ensures MarkersOf(nonce, tokens + [t])
         == MarkersOf(nonce, tokens) + (if t.Mark? then [MarkerOf(nonce, t.raw, |DataOf(tokens)|)] else [])
  {
    assert (tokens + [t])[..|tokens|] == tokens;
  }

  lemma PushStep(nonce: seq<Byte>, tokens: seq<Token>, step: seq<Token>, r: Parsed)
    requires |step| <= 1
    ensures Then(tokens, Then(step, r)) == Then(tokens + step, r)
    ensures DataOf(tokens + step) == DataOf(tokens) + (if |step| == 1 && step[0].Data? then [step[0].b] else [])
    ensures MarkersOf(nonce, tokens + step)
         == MarkersOf(nonce, tokens)
            + (if |step| == 1 && step[0].Mark? then [MarkerOf(nonce, step[0].raw, |DataOf(tokens)|)] else [])
  {
    if |step| == 1 {
      assert step == [step[0]];
      ThenSnoc(tokens, step[0], r);
      PushToken(nonce, tokens, step[0]);
    } else {
      assert tokens + step == tokens && step + r.tokens == r.tokens;
    }
  }

  lemma ParseByteFirst(nonce: seq<Byte>, b: Byte, queue: seq<Byte>)
    requires b != RS
    ensures Parse(nonce, [b] + queue) == Then([Data(b)], Parse(nonce, queue))
  {
    assert Ps1(nonce)[0] == Ps2(nonce)[0] == RS;
    assert [b][0] == b;
    ParseDeadFirst(nonce, [b], queue);
    assert [b][1..] + queue == queue;
  }

  lemma HeldParsesToItself(nonce: seq<Byte>, p: seq<Byte>)
    requires p == [] || IsPartial(nonce, p)
    ensures Parse(nonce, p) == Parsed([], p)
  {
    if p != [] {
      forall n | 0 <= n <= |p| ensures !IsMarker(nonce, p[..n]) {
        PartialHasNoMarker(nonce, p, n);
      }
    }
  }

  // ----- any chunking -----

  /** What `Feed` returns over a list of chunks, as tokens and final held bytes. */
  ghost function FeedAll(nonce: seq<Byte>, held: seq<Byte>, chunks: seq<seq<Byte>>): Parsed
    decreases |chunks|
  {
    if chunks == [] then Parsed([], held)
    else
      var r := Parse(nonce, held + chunks[0]);
      Then(r.tokens, FeedAll(nonce, r.held, chunks[1..]))
  }

  lemma {:induction false} ChunkingDoesNotMatter(nonce: seq<Byte>, held: seq<Byte>, chunks: seq<seq<Byte>>)
    requires held == [] || IsPartial(nonce, held)
    ensures FeedAll(nonce, held, chunks) == Parse(nonce, held + Flatten(chunks))
    decreases |chunks|
  {
    if chunks == [] {
      assert held + Flatten(chunks) == held;
      HeldParsesToItself(nonce, held);
    } else {
      var first := held + chunks[0];
      var r := Parse(nonce, first);
      HeldIsPartial(nonce, first);
      ChunkingDoesNotMatter(nonce, r.held, chunks[1..]);
      ParseAppend(nonce, first, Flatten(chunks[1..]));
      FlattenFirst(held, chunks);
    }
  }

  // ----- aiInterleave: data and markers back in stream order -----

  datatype Item = ByteItem(b: Byte) | MarkItem(code: nat, continuation: bool)

  datatype Segment = DataSegment(data: seq<Byte>) | MarkSegment(mark: Marker)

  /** The stream order of the tokens, without the spelling of the markers. */
  function ItemsOf(nonce: seq<Byte>, tokens: seq<Token>): seq<Item> {
    if tokens == [] then []
    else
      var last := tokens[|tokens| - 1];
      ItemsOf(nonce, tokens[..|tokens| - 1]) + [match last
                                                case Data(b) => ByteItem(b)
                                                case Mark(raw) =>
                                                  var m := MarkerOf(nonce, raw, 0);
                                                  MarkItem(m.code, m.continuation)]
  }

  function BytesAsItems(data: seq<Byte>): seq<Item> {
    seq(|data|, i requires 0 <= i < |data| => ByteItem(data[i]))
  }

  function SegmentItems(segments: seq<Segment>): seq<Item> {
    if segments == [] then []
    else
      SegmentItems(segments[..|segments| - 1]) + (match segments[|segments| - 1]
                                                  case DataSegment(d) => BytesAsItems(d)
                                                  case MarkSegment(m) => [MarkItem(m.code, m.continuation)])
  }

  /** The order that positions describe: the bytes before each marker, then it. */
  function Woven(data: seq<Byte>, marks: seq<Marker>, k: nat): seq<Item>
    requires k <= |marks| && InOrder(data, marks)
  {
    if k == 0 then []
    else
      var prev := if k == 1 then 0 else marks[k - 2].at;
      Woven(data, marks, k - 1) + BytesAsItems(data[prev..marks[k - 1].at])
      + [MarkItem(marks[k - 1].code, marks[k - 1].continuation)]
  }

  predicate InOrder(data: seq<Byte>, marks: seq<Marker>) {
    && (forall i :: 0 <= i < |marks| ==> marks[i].at <= |data|)
    && (forall i, j :: 0 <= i < j < |marks| ==> marks[i].at <= marks[j].at)
  }

  function LastAt(marks: seq<Marker>): nat {
    if marks == [] then 0 else marks[|marks| - 1].at
  }

  function WovenAll(data: seq<Byte>, marks: seq<Marker>): seq<Item>
    requires InOrder(data, marks)
  {
    Woven(data, marks, |marks|) + BytesAsItems(data[LastAt(marks)..])
  }

  method Interleave(data: seq<Byte>, marks: seq<Marker>) returns (segments: seq<Segment>)
    requires InOrder(data, marks)
    ensures SegmentItems(segments) == WovenAll(data, marks)
    ensures NoEmptyData(segments)
  {
    segments := [];
    var prev := 0;
    for i := 0 to |marks|
      invariant prev == Before(marks, i) <= |data|
      invariant SegmentItems(segments) == Woven(data, marks, i)
      invariant NoEmptyData(segments)
    {
      BeforeGrows(data, marks, i);
      WovenNext(data, marks, i);
      segments := AddData(segments, data[prev..marks[i].at]);
      segments := AddMark(segments, marks[i]);
      prev := marks[i].at;
    }
    segments := AddData(segments, data[prev..]);
  }

  ghost predicate NoEmptyData(segments: seq<Segment>) {
    forall i :: 0 <= i < |segments| && segments[i].DataSegment? ==> segments[i].data != []
  }

  /** Where the bytes before marker `i` begin. */
  function Before(marks: seq<Marker>, i: nat): nat
    requires i <= |marks|
  {
    if i == 0 then 0 else marks[i - 1].at
  }

  lemma BeforeGrows(data: seq<Byte>, marks: seq<Marker>, i: nat)
    requires InOrder(data, marks) && i < |marks|
    ensures Before(marks, i) <= marks[i].at <= |data|
  {
  }

  lemma WovenNext(data: seq<Byte>, marks: seq<Marker>, i: nat)
    requires InOrder(data, marks) && i < |marks| && Before(marks, i) <= marks[i].at <= |data|
    ensures Woven(data, marks, i + 1)
         == Woven(data, marks, i) + BytesAsItems(data[Before(marks, i)..marks[i].at])
            + [MarkItem(marks[i].code, marks[i].continuation)]
  {
  }

  /** Bytes between two markers make a segment unless there are none. */
  function AddData(segments: seq<Segment>, d: seq<Byte>): (r: seq<Segment>)
    ensures SegmentItems(r) == SegmentItems(segments) + BytesAsItems(d)
    ensures NoEmptyData(segments) ==> NoEmptyData(r)
  {
    if d == [] then segments
    else
      AddSegment(segments, DataSegment(d));
      segments + [DataSegment(d)]
  }

  function AddMark(segments: seq<Segment>, m: Marker): (r: seq<Segment>)
    ensures SegmentItems(r) == SegmentItems(segments) + [MarkItem(m.code, m.continuation)]
    ensures NoEmptyData(segments) ==> NoEmptyData(r)
  {
    AddSegment(segments, MarkSegment(m));
    segments + [MarkSegment(m)]
  }

  lemma AddSegment(segments: seq<Segment>, s: Segment)
    ensures SegmentItems(segments + [s]) == SegmentItems(segments) + (match s
                                                                      case DataSegment(d) => BytesAsItems(d)
                                                                      case MarkSegment(m) => [MarkItem(m.code, m.continuation)])
  {
    assert (segments + [s])[..|segments|] == segments;
  }

  /** Whatever `Feed` returns, interleaving it restores the order of the stream. */
  lemma {:induction false} InterleavingRestoresOrder(nonce: seq<Byte>, tokens: seq<Token>)
    ensures InOrder(DataOf(tokens), MarkersOf(nonce, tokens))
    ensures WovenAll(DataOf(tokens), MarkersOf(nonce, tokens)) == ItemsOf(nonce, tokens)
  {
    if tokens != [] {
      var init, last := tokens[..|tokens| - 1], tokens[|tokens| - 1];
      InterleavingRestoresOrder(nonce, init);
      assert tokens == init + [last];
      PushToken(nonce, init, last);
      var data, marks := DataOf(init), MarkersOf(nonce, init);
      if last.Data? {
        AddByte(data, last.b, marks);
        assert marks + [] == marks;
      } else {
        AddMarker(data, marks, MarkerOf(nonce, last.raw, |data|));
        assert data + [] == data;
      }
    }
  }

  lemma AddByte(data: seq<Byte>, b: Byte, marks: seq<Marker>)
    requires InOrder(data, marks)
    ensures InOrder(data + [b], marks)
    ensures WovenAll(data + [b], marks) == WovenAll(data, marks) + [ByteItem(b)]
  {
    WovenKeepsPrefix(data, [b], marks, |marks|);
    var k := LastAt(marks);
    assert (data + [b])[k..] == data[k..] + [b];
    assert BytesAsItems(data[k..] + [b]) == BytesAsItems(data[k..]) + [ByteItem(b)];
  }

  lemma AddMarker(data: seq<Byte>, marks: seq<Marker>, m: Marker)
    requires InOrder(data, marks) && m.at == |data|
    ensures InOrder(data, marks + [m])
    ensures WovenAll(data, marks + [m]) == WovenAll(data, marks) + [MarkItem(m.code, m.continuation)]
  {
    WovenKeepsMarks(data, marks, m, |marks|);
    var k := LastAt(marks);
    assert data[k..|data|] == data[k..];
    assert data[|data|..] == [] && BytesAsItems(data[|data|..]) == [];
  }

  lemma {:induction false} WovenKeepsPrefix(data: seq<Byte>, more: seq<Byte>, marks: seq<Marker>, k: nat)
    requires k <= |marks| && InOrder(data, marks)
    ensures InOrder(data + more, marks)
    ensures Woven(data + more, marks, k) == Woven(data, marks, k)
  {
    if k > 0 {
      WovenKeepsPrefix(data, more, marks, k - 1);
      var prev := if k == 1 then 0 else marks[k - 2].at;
      assert (data + more)[prev..marks[k - 1].at] == data[prev..marks[k - 1].at];
    }
  }

  lemma {:induction false} WovenKeepsMarks(data: seq<Byte>, marks: seq<Marker>, m: Marker, k: nat)
    requires k <= |marks| && InOrder(data, marks) && m.at == |data|
    ensures InOrder(data, marks + [m])
    ensures Woven(data, marks + [m], k) == Woven(data, marks, k)
  {
    if k > 0 {
      WovenKeepsMarks(data, marks, m, k - 1);
      assert (marks + [m])[k - 1] == marks[k - 1];
      assert k > 1 ==> (marks + [m])[k - 2] == marks[k - 2];
    }
  }
}
