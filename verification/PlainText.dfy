/**
 The terminal stripper (`aiPlainText.Feed`, ai_session.go): raw terminal bytes
 in, text for the agent and the audit log out. It survives escape sequences and
 runes that are split across chunks.

 `Strip` is the stripper as a function of its state and of the whole input; the
 class keeps the state in place and loops, as the source does.
 */
module PlainText {
  import opened Bytes
  import opened Utf8

  const ESC: Byte := 0x1b
  const BEL: Byte := 0x07
  const LF: Byte := 0x0a
  const CR: Byte := 0x0d
  const TAB: Byte := 0x09
  const STRING_MAX := 4096

  function Ascii(s: string): (r: seq<Byte>)
    requires forall i :: 0 <= i < |s| ==> ' ' <= s[i] <= '~'
    ensures |r| == |s|
    ensures forall i :: 0 <= i < |r| ==> 0x20 <= r[i] <= 0x7e
  {
    seq(|s|, i requires 0 <= i < |s| => s[i] as int as Byte)
  }

  const NOTICE: seq<Byte> := Ascii("[ssh-gate: oversized escape dropped]")

  datatype Mode = Normal | Escape | Csi | Body | BodyEscape | Intermediate

  datatype State = State(mode: Mode, strLen: nat, dropped: bool, pendCR: bool)

  const INITIAL := State(Normal, 0, false, false)

  function StartBody(st: State): State {
    st.(mode := Body, strLen := 0, dropped := false)
  }

  /** One byte inside an escape sequence: what is written and the next state. */
  function EscapeByte(st: State, b: Byte): (seq<Byte>, State)
    requires st.mode != Normal
  {
    if st.mode == Escape then
      if b == 0x5b then ([], st.(mode := Csi))
      else if b == 0x5d || b == 0x50 || b == 0x58 || b == 0x5e || b == 0x5f then ([], StartBody(st))
      else if 0x20 <= b <= 0x2f then ([], st.(mode := Intermediate))
      else ([], st.(mode := Normal))
    else if st.mode == Intermediate then
      if b < 0x20 || b > 0x2f then ([], st.(mode := Normal)) else ([], st)
    else if st.mode == Csi then
      if 0x40 <= b <= 0x7e then ([], st.(mode := Normal)) else ([], st)
    else if b == BEL then ([], st.(mode := Normal))
    else if st.mode == BodyEscape && b == 0x5c then ([], st.(mode := Normal))
    else if b == ESC then ([], st.(mode := BodyEscape))
    else
      var st1 := st.(mode := Body, strLen := st.strLen + 1);
      if st1.strLen > STRING_MAX && !st1.dropped then (NOTICE, st1.(dropped := true)) else ([], st1)
  }

  /** A carriage return becomes a newline unless a newline follows. */
  function PendingCR(st: State, b: Byte): seq<Byte> {
    if st.pendCR && b != LF then [LF] else []
  }

  /** In the normal state, the bytes `p` start with an unfinished rune. */
  predicate Unfinished(st: State, p: seq<Byte>) {
    st.mode == Normal && p != [] && p[0] >= 0x80 && !FullRune(p)
  }

  datatype Took = Took(out: seq<Byte>, st: State, n: nat)

  /** A whole rune outside ASCII, or one undecodable byte. */
  function TakeRune(st: State, p: seq<Byte>): (t: Took)
    requires p != []
    ensures 1 <= t.n <= |p|
  {
    var (r, size) := DecodeRune(p);
    if r == RUNE_ERROR && size == 1 then Took([0xEF, 0xBF, 0xBD], st, size)
    else if r == 0x9b then Took([], st.(mode := Csi), size)
    else if r == 0x9d || r == 0x90 || r == 0x98 || r == 0x9e || r == 0x9f then Took([], StartBody(st), size)
    else if 0x80 <= r <= 0x9f then Took([], st, size)
    else Took(EncodeRune(r), st, size)
  }

  /** The normal state once a pending carriage return is written. */
  function TakeNormal(st: State, p: seq<Byte>): (t: Took)
    requires p != []
    ensures 1 <= t.n <= |p|
  {
    var b := p[0];
    if b == ESC then Took([], st.(mode := Escape), 1)
    else if b == CR then Took([], st.(pendCR := true), 1)
    else if b == LF || b == TAB then Took([b], st, 1)
    else if b < 0x20 || b == 0x7f then Took([], st, 1)
    else if b < 0x80 then Took([b], st, 1)
    else TakeRune(st, p)
  }

  function Take(st: State, p: seq<Byte>): (t: Took)
    requires p != []
    ensures 1 <= t.n <= |p|
  {
    if st.mode == Normal then
      var t := TakeNormal(st.(pendCR := false), p);
      Took(PendingCR(st, p[0]) + t.out, t.st, t.n)
    else
      var (out, st1) := EscapeByte(st, p[0]);
      Took(out, st1, 1)
  }

  datatype Stripped = Stripped(out: seq<Byte>, st: State, tail: seq<Byte>)

  function Prepend(out: seq<Byte>, r: Stripped): Stripped {
    r.(out := out + r.out)
  }

  /** The whole pipeline stage: text, next state, and the bytes of an unfinished rune. */
  function Strip(st: State, p: seq<Byte>): Stripped
    decreases |p|
  {
    if p == [] then Stripped([], st, [])
    else if Unfinished(st, p) then Stripped(PendingCR(st, p[0]), st.(pendCR := false), p)
    else
      var t := Take(st, p);
      Prepend(t.out, Strip(t.st, p[t.n..]))
  }

  // ----- chunk invariance -----

  lemma PrependTwice(a: seq<Byte>, b: seq<Byte>, r: Stripped)
    ensures Prepend(a, Prepend(b, r)) == Prepend(a + b, r)
  {
    assert a + (b + r.out) == (a + b) + r.out;
  }

  /** Bytes that come later do not change how the first unit is taken. */
  lemma TakeIsStable(st: State, a: seq<Byte>, b: seq<Byte>)
    requires a != [] && !Unfinished(st, a)
    ensures !Unfinished(st, a + b) && Take(st, a + b) == Take(st, a)
  {
    assert (a + b)[0] == a[0];
    if st.mode == Normal && a[0] >= 0x80 {
      FullRuneIsStable(a, b);
    }
  }

  /** A carriage return before a rune is written when the rune is first seen, even
      if the rune has to wait for more bytes. */
  lemma FlushedCR(st: State, s: seq<Byte>)
    requires st.mode == Normal && s != [] && s[0] >= 0x80
    ensures Strip(st, s) == Prepend(PendingCR(st, s[0]), Strip(st.(pendCR := false), s))
  {
    var st0 := st.(pendCR := false);
    var cr := PendingCR(st, s[0]);
    if Unfinished(st, s) {
      assert cr + [] == cr;
    } else {
      var t := TakeNormal(st0, s);
      assert [] + t.out == t.out;
      PrependTwice(cr, t.out, Strip(t.st, s[t.n..]));
    }
  }

  /** What the next call of Feed starts from is stable: no byte is processed twice. */
  lemma {:induction false} StripAppend(st: State, a: seq<Byte>, b: seq<Byte>)
    ensures var r := Strip(st, a);
            Strip(st, a + b) == Prepend(r.out, Strip(r.st, r.tail + b))
    decreases |a|
  {
    if a == [] {
      assert a + b == b == [] + b;
      PrependNothing(Strip(st, b));
    } else if Unfinished(st, a) {
      assert (a + b)[0] == a[0];
      FlushedCR(st, a + b);
    } else {
      var t := Take(st, a);
      StripAppend(t.st, a[t.n..], b);
      StripOneMore(st, a, b);
      var r := Strip(t.st, a[t.n..]);
      PrependTwice(t.out, r.out, Strip(r.st, r.tail + b));
    }
  }

  lemma PrependNothing(r: Stripped)
    ensures Prepend([], r) == r
  {
    assert [] + r.out == r.out;
  }

  lemma StripOneMore(st: State, a: seq<Byte>, b: seq<Byte>)
    requires a != [] && !Unfinished(st, a)
    ensures var t := Take(st, a);
            && Strip(st, a) == Prepend(t.out, Strip(t.st, a[t.n..]))
            && Strip(st, a + b) == Prepend(t.out, Strip(t.st, a[t.n..] + b))
  {
    TakeIsStable(st, a, b);
    var t := Take(st, a);
    assert (a + b)[t.n..] == a[t.n..] + b;
  }

  /** Feeding the chunks one after the other. */
  function FeedAll(st: State, tail: seq<Byte>, chunks: seq<seq<Byte>>): Stripped
    decreases |chunks|
  {
    if chunks == [] then Stripped([], st, tail)
    else
      var r := Strip(st, tail + chunks[0]);
      Prepend(r.out, FeedAll(r.st, r.tail, chunks[1..]))
  }

  /** The state between two calls. */
  predicate Between(st: State, tail: seq<Byte>) {
    tail != [] ==> Unfinished(st, tail) && !st.pendCR
  }

  lemma {:induction false} StripEndsBetween(st: State, p: seq<Byte>)
    ensures Between(Strip(st, p).st, Strip(st, p).tail)
    decreases |p|
  {
    if p != [] && !Unfinished(st, p) {
      StripEndsBetween(Take(st, p).st, p[Take(st, p).n..]);
    }
  }

  lemma TailStripsToItself(st: State, tail: seq<Byte>)
    requires Between(st, tail)
    ensures Strip(st, tail) == Stripped([], st, tail)
  {
  }

  /** Any chunking gives the same text, state and held bytes as one call. */
  lemma {:induction false} ChunkingDoesNotMatter(st: State, tail: seq<Byte>, chunks: seq<seq<Byte>>)
    requires Between(st, tail)
    ensures FeedAll(st, tail, chunks) == Strip(st, tail + Flatten(chunks))
    decreases |chunks|
  {
    if chunks == [] {
      assert tail + Flatten(chunks) == tail;
      TailStripsToItself(st, tail);
    } else {
      var first, rest := tail + chunks[0], Flatten(chunks[1..]);
      var r := Strip(st, first);
      StripEndsBetween(st, first);
      ChunkingDoesNotMatter(r.st, r.tail, chunks[1..]);
      StripAppend(st, first, rest);
      FlattenFirst(tail, chunks);
    }
  }

  // ----- the text is clean -----

  /** Newline, tab and everything that is neither C0, DEL nor C1. */
  predicate AllowedPoint(r: int) {
    r == LF || r == TAB || 0x20 <= r <= 0x7e || r >= 0xa0
  }

  ghost predicate Clean(s: seq<Byte>)
    decreases |s|
  {
    s == [] || (StartsRune(s) && AllowedPoint(DecodeRune(s).0) && Clean(s[RuneLen(s)..]))
  }

  /** Clean text is valid UTF-8 whose code points are all allowed. */
  lemma {:induction false} CleanMeaning(s: seq<Byte>)
    requires Clean(s)
    ensures ValidUtf8(s)
    ensures forall i :: 0 <= i < |CodePoints(s)| ==> AllowedPoint(CodePoints(s)[i])
    decreases |s|
  {
    if s != [] {
      DecodeExact(s);
      CleanMeaning(s[RuneLen(s)..]);
    }
  }

  lemma {:induction false} CleanAppend(a: seq<Byte>, b: seq<Byte>)
    requires Clean(a) && Clean(b)
    ensures Clean(a + b)
    decreases |a|
  {
    if a == [] {
      assert a + b == b;
    } else {
      CleanAppend(a[RuneLen(a)..], b);
      CleanStep(a, b);
    }
  }

  lemma CleanStep(a: seq<Byte>, b: seq<Byte>)
    requires StartsRune(a) && AllowedPoint(DecodeRune(a).0) && Clean(a[RuneLen(a)..] + b)
    ensures Clean(a + b)
  {
    DecodePrefix(a, b);
    assert (a + b)[RuneLen(a)..] == a[RuneLen(a)..] + b;
  }

  lemma DecodePrefix(a: seq<Byte>, b: seq<Byte>)
    requires StartsRune(a)
    ensures StartsRune(a + b) && RuneLen(a + b) == RuneLen(a) && DecodeRune(a + b) == DecodeRune(a)
  {
  }

  lemma {:induction false} CleanAscii(s: seq<Byte>)
    requires forall i :: 0 <= i < |s| ==> 0x20 <= s[i] <= 0x7e || s[i] == LF || s[i] == TAB
    ensures Clean(s)
    decreases |s|
  {
    if s != [] {
      CleanAscii(s[1..]);
    }
  }

  /** One whole rune, as the stripper appends it. */
  lemma CleanRune(p: seq<Byte>)
    requires StartsRune(p) && AllowedPoint(DecodeRune(p).0)
    ensures Clean(EncodeRune(DecodeRune(p).0))
  {
    EncodeDecode(p);
    DecodeExact(p);
    var q := p[..RuneLen(p)];
    assert p == q + p[RuneLen(p)..];
    DecodePrefix(q, p[RuneLen(p)..]);
    assert q[RuneLen(q)..] == [];
  }

  lemma TakeRuneIsClean(st: State, p: seq<Byte>)
    requires p != [] && p[0] >= 0x80
    ensures Clean(TakeRune(st, p).out)
  {
    DecodeExact(p);
    var bad: seq<Byte> := [0xEF, 0xBF, 0xBD];
    assert Clean(bad[3..]);
    if StartsRune(p) && AllowedPoint(DecodeRune(p).0) {
      CleanRune(p);
    }
  }

  lemma TakeIsClean(st: State, p: seq<Byte>)
    requires p != []
    ensures Clean(Take(st, p).out)
  {
    if st.mode == Normal {
      var t := TakeNormal(st.(pendCR := false), p);
      if p[0] >= 0x80 {
        TakeRuneIsClean(st.(pendCR := false), p);
      } else {
        CleanAscii(t.out);
      }
      CleanAscii(PendingCR(st, p[0]));
      CleanAppend(PendingCR(st, p[0]), t.out);
    } else {
      CleanAscii(EscapeByte(st, p[0]).0);
    }
  }

  /** Whatever the terminal sends, the text is valid UTF-8 without control characters. */
  lemma {:induction false} StrippedTextIsClean(st: State, p: seq<Byte>)
    ensures Clean(Strip(st, p).out)
    ensures ValidUtf8(Strip(st, p).out)
    ensures forall i :: 0 <= i < |CodePoints(Strip(st, p).out)| ==> AllowedPoint(CodePoints(Strip(st, p).out)[i])
    decreases |p|
  {
    if p != [] {
      if Unfinished(st, p) {
        CleanAscii(PendingCR(st, p[0]));
      } else {
        var t := Take(st, p);
        StrippedTextIsClean(t.st, p[t.n..]);
        TakeIsClean(st, p);
        CleanAppend(t.out, Strip(t.st, p[t.n..]).out);
      }
    }
    CleanMeaning(Strip(st, p).out);
  }

  // ----- stripping again changes nothing -----

  lemma TakeCleanUnit(s: seq<Byte>)
    requires s != [] && Clean(s)
    ensures !Unfinished(INITIAL, s)
    ensures Take(INITIAL, s) == Took(s[..RuneLen(s)], INITIAL, RuneLen(s))
  {
    DecodeExact(s);
    if s[0] < 0x80 {
      assert s[..1] == [s[0]];
    } else {
      EncodeDecode(s);
      assert EncodeRune(DecodeRune(s).0) == s[..RuneLen(s)];
    }
  }

  lemma {:induction false} CleanTextIsKept(s: seq<Byte>)
    requires Clean(s)
    ensures Strip(INITIAL, s) == Stripped(s, INITIAL, [])
    decreases |s|
  {
    if s != [] {
      TakeCleanUnit(s);
      var n := RuneLen(s);
      CleanTextIsKept(s[n..]);
      assert s == s[..n] + s[n..];
    }
  }

  lemma StrippingTwiceChangesNothing(st: State, p: seq<Byte>)
    ensures Strip(INITIAL, Strip(st, p).out) == Stripped(Strip(st, p).out, INITIAL, [])
  {
    StrippedTextIsClean(st, p);
    CleanTextIsKept(Strip(st, p).out);
  }

  // ----- the stripper in place -----

  class Stripper {
    var mode: Mode
    var strLen: nat
    var dropped: bool
    var pendCR: bool
    var utf8Tail: seq<Byte>

    function View(): State
      reads this
    {
      State(mode, strLen, dropped, pendCR)
    }

    ghost predicate Valid()
      reads this
    {
      Between(View(), utf8Tail)
    }

    constructor ()
      ensures Valid() && View() == INITIAL && utf8Tail == []
    {
      mode, strLen, dropped, pendCR, utf8Tail := Normal, 0, false, false, [];
    }

    /** One byte of an escape sequence. */
    method InsideEscape(b: Byte) returns (out: seq<Byte>)
      requires mode != Normal
      modifies this`mode, this`strLen, this`dropped
      ensures (out, View()) == EscapeByte(old(View()), b)
    {
      out := [];
      if mode == Escape {
        if b == 0x5b {
          mode := Csi;
        } else if b == 0x5d || b == 0x50 || b == 0x58 || b == 0x5e || b == 0x5f {
          mode, strLen, dropped := Body, 0, false;
        } else if 0x20 <= b <= 0x2f {
          mode := Intermediate;
        } else {
          mode := Normal;
        }
      } else if mode == Intermediate {
        if b < 0x20 || b > 0x2f {
          mode := Normal;
        }
      } else if mode == Csi {
        if 0x40 <= b <= 0x7e {
          mode := Normal;
        }
      } else if b == BEL {
        mode := Normal;
      } else if mode == BodyEscape && b == 0x5c {
        mode := Normal;
      } else if b == ESC {
        mode := BodyEscape;
      } else {
        mode := Body;
        strLen := strLen + 1;
        if strLen > STRING_MAX && !dropped {
          dropped := true;
          out := NOTICE;
        }
      }
    }

    /** A rune, in the normal state. */
    method WholeRune(p: seq<Byte>) returns (out: seq<Byte>, n: nat)
      requires p != []
      modifies this`mode, this`strLen, this`dropped
      ensures Took(out, View(), n) == TakeRune(old(View()), p)
    {
      var (r, size) := DecodeRune(p);
      out, n := [], size;
      if r == RUNE_ERROR && size == 1 {
        out := [0xEF, 0xBF, 0xBD];
      } else if r == 0x9b {
        mode := Csi;
      } else if r == 0x9d || r == 0x90 || r == 0x98 || r == 0x9e || r == 0x9f {
        mode, strLen, dropped := Body, 0, false;
      } else if !(0x80 <= r <= 0x9f) {
        out := EncodeRune(r);
      }
    }

    /** The bytes `p` in the normal state; `n` is 0 when they are an unfinished rune. */
    method InText(p: seq<Byte>) returns (out: seq<Byte>, n: nat)
      requires p != [] && mode == Normal
      modifies this`mode, this`strLen, this`dropped, this`pendCR
      ensures n == 0 <==> Unfinished(old(View()), p)
      ensures n == 0 ==> out == PendingCR(old(View()), p[0]) && View() == old(View()).(pendCR := false)
      ensures n > 0 ==> Took(out, View(), n) == Take(old(View()), p)
    {
      var b := p[0];
      out, n := [], 1;
      if pendCR {
        pendCR := false;
        if b != LF {
          out := [LF];
        }
      }
      if b == ESC {
        mode := Escape;
      } else if b == CR {
        pendCR := true;
      } else if b == LF || b == TAB {
        out := out + [b];
      } else if b < 0x20 || b == 0x7f {
      } else if b < 0x80 {
        out := out + [b];
      } else if !FullRune(p) {
        n := 0;
      } else {
        var rune: seq<Byte>;
        rune, n := WholeRune(p);
        out := out + rune;
      }
    }

    method Feed(chunk: seq<Byte>) returns (out: seq<Byte>)
      requires Valid()
      modifies this
      ensures Valid()
      ensures Stripped(out, View(), utf8Tail) == Strip(old(View()), old(utf8Tail) + chunk)
    {
      var p := utf8Tail + chunk;
      utf8Tail := [];
      ghost var whole := Strip(View(), p);
      StripEndsBetween(View(), p);
      PrependNothing(whole);
      out := [];
      while p != []
        invariant utf8Tail == []
        invariant whole == Prepend(out, Strip(View(), p))
        decreases |p|
      {
        var more, n := TakeOne(p, whole, out);
        out := out + more;
        if n == 0 {
          utf8Tail := p;
          return;
        }
        p := p[n..];
      }
      assert out + [] == out;
    }

    /** One turn of the loop; `n` is 0 when the rest is an unfinished rune. */
    method TakeOne(rest: seq<Byte>, ghost whole: Stripped, ghost out: seq<Byte>) returns (more: seq<Byte>, n: nat)
      requires rest != [] && whole == Prepend(out, Strip(View(), rest))
      modifies this`mode, this`strLen, this`dropped, this`pendCR
      ensures n <= |rest|
      ensures n == 0 ==> whole == Stripped(out + more, View(), rest)
      ensures n > 0 ==> whole == Prepend(out + more, Strip(View(), rest[n..]))
    {
      if mode == Normal {
        more, n := InText(rest);
      } else {
        more := InsideEscape(rest[0]);
        n := 1;
      }
      PrependTwice(out, more, Strip(View(), rest[n..]));
    }
  }
}
