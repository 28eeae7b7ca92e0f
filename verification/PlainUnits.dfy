/**
 What the stripper takes out, as a grammar of units: every byte stream is a list of
 whole units and at most one unfinished unit, and the text is what its units show.
 */
module PlainUnits {
  import opened Bytes
  import opened Utf8
  import opened PlainText

  // ----- the grammar -----

  /** `Shown` and `Hidden` are a rune or control, `Broken` a byte that begins no rune,
      `Csi`, `Str` and `Esc` the escape sequences. */
  datatype Unit =
    | Shown(rune: seq<Byte>)
    | Hidden(rune: seq<Byte>)
    | Broken(b: Byte)
    | Return
    | ReturnFeed
    | Csi(intro: seq<Byte>, body: seq<Byte>, final: Byte)
    | Str(intro: seq<Byte>, body: seq<Byte>, end: seq<Byte>)
    | Esc(mid: seq<Byte>, final: Byte)

  function Spell(u: Unit): seq<Byte> {
    match u
    case Shown(r) => r
    case Hidden(r) => r
    case Broken(b) => [b]
    case Return => [0x0d]
    case ReturnFeed => [0x0d, 0x0a]
    case Csi(intro, body, final) => intro + body + [final]
    case Str(intro, body, end) => intro + body + end
    case Esc(mid, final) => [0x1b] + mid + [final]
  }

  /** ESC `[` or C1 0x9b. */
  predicate CsiIntro(p: seq<Byte>) {
    p == [0x1b, 0x5b] || p == [0xc2, 0x9b]
  }

  /** ESC and one of `]`, `P`, `X`, `^`, `_`, or its C1 form. */
  predicate StrIntro(p: seq<Byte>) {
    || p == [0x1b, 0x5d] || p == [0x1b, 0x50] || p == [0x1b, 0x58] || p == [0x1b, 0x5e] || p == [0x1b, 0x5f]
    || p == [0xc2, 0x9d] || p == [0xc2, 0x90] || p == [0xc2, 0x98] || p == [0xc2, 0x9e] || p == [0xc2, 0x9f]
  }

  predicate CsiFinal(b: Byte) {
    0x40 <= b <= 0x7e
  }

  predicate Mid(b: Byte) {
    0x20 <= b <= 0x2f
  }

  /** Neither BEL nor ESC `\` in it. */
  predicate StrBody(p: seq<Byte>) {
    && (forall i :: 0 <= i < |p| ==> p[i] != 0x07)
    && (forall i :: 0 < i < |p| ==> !(p[i - 1] == 0x1b && p[i] == 0x5c))
  }

  /** The byte behind ESC that makes neither a CSI nor a string. */
  predicate EscFinal(mid: seq<Byte>, b: Byte) {
    !Mid(b) && (mid == [] ==> b != 0x5b && b != 0x5d && b != 0x50 && b != 0x58 && b != 0x5e && b != 0x5f)
  }

  predicate HiddenControl(r: seq<Byte>) {
    || (|r| == 1 && (r[0] == 0x7f || (r[0] < 0x20 && r[0] != 0x09 && r[0] != 0x0a && r[0] != 0x0d && r[0] != 0x1b)))
    || (|r| == 2 && r[0] == 0xc2 && 0x80 <= r[1] <= 0x9f && !CsiIntro(r) && !StrIntro(r))
  }

  /** A whole rune that is newline, tab, or neither C0, DEL nor C1. */
  predicate ShownRune(r: seq<Byte>) {
    && StartsRune(r) && RuneLen(r) == |r|
    && (|r| == 1 ==> r[0] == 0x0a || r[0] == 0x09 || 0x20 <= r[0] <= 0x7e)
    && !(|r| == 2 && r[0] == 0xc2 && 0x80 <= r[1] <= 0x9f)
  }

  /** The unit stands in front of `rest`. */
  predicate Fits(u: Unit, rest: seq<Byte>) {
    match u
    case Shown(r) => ShownRune(r)
    case Hidden(r) => HiddenControl(r)
    case Broken(b) => b >= 0x80 && !StartsRune([b] + rest) && FullRune([b] + rest)
    case Return => rest != [] && rest[0] != 0x0a
    case ReturnFeed => true
    case Csi(intro, body, final) => CsiIntro(intro) && CsiFinal(final) && forall i :: 0 <= i < |body| ==> !CsiFinal(body[i])
    case Str(intro, body, end) => StrIntro(intro) && StrBody(body) && (end == [0x07] || end == [0x1b, 0x5c])
    case Esc(mid, final) => EscFinal(mid, final) && forall i :: 0 <= i < |mid| ==> Mid(mid[i])
  }

  /** The bytes of a string that count for its size: all but ESC. */
  function Counted(body: seq<Byte>): nat {
    if body == [] then 0 else (if body[0] == 0x1b then 0 else 1) + Counted(body[1..])
  }

  /** A string of more than 4096 bytes is replaced by a notice. */
  function NoticeFor(body: seq<Byte>): seq<Byte> {
    if Counted(body) > 4096 then Ascii("[ssh-gate: oversized escape dropped]") else []
  }

  /** What the unit shows: itself, nothing, the replacement character, or a newline. */
  function Text(u: Unit): seq<Byte> {
    match u
    case Shown(r) => r
    case Hidden(_) => []
    case Broken(_) => [0xEF, 0xBF, 0xBD]
    case Return => [0x0a]
    case ReturnFeed => [0x0a]
    case Csi(_, _, _) => []
    case Str(_, body, _) => NoticeFor(body)
    case Esc(_, _) => []
  }

  function SpellAll(us: seq<Unit>): seq<Byte> {
    if us == [] then [] else Spell(us[0]) + SpellAll(us[1..])
  }

  function TextAll(us: seq<Unit>): seq<Byte> {
    if us == [] then [] else Text(us[0]) + TextAll(us[1..])
  }

  predicate FitAll(us: seq<Unit>, tail: seq<Byte>) {
    us == [] || (Fits(us[0], SpellAll(us[1..]) + tail) && FitAll(us[1..], tail))
  }

  // ----- states that behave alike -----

  predicate InString(st: State) {
    st.mode == Body || st.mode == BodyEscape
  }

  /** Only a string looks at its size. */
  predicate Alike(st: State, st': State) {
    st.mode == st'.mode && st.pendCR == st'.pendCR && (InString(st) ==> st == st')
  }

  lemma AlikeEscape(st: State, st': State, b: Byte)
    requires Alike(st, st') && st.mode != Normal
    ensures EscapeByte(st, b).0 == EscapeByte(st', b).0 && Alike(EscapeByte(st, b).1, EscapeByte(st', b).1)
  {
  }

  lemma AlikeRune(st: State, st': State, p: seq<Byte>)
    requires Alike(st, st') && st.mode == Normal && p != []
    ensures TakeRune(st, p).out == TakeRune(st', p).out && TakeRune(st, p).n == TakeRune(st', p).n
    ensures Alike(TakeRune(st, p).st, TakeRune(st', p).st)
  {
  }

  lemma AlikeNormal(st: State, st': State, p: seq<Byte>)
    requires Alike(st, st') && st.mode == Normal && p != []
    ensures TakeNormal(st, p).out == TakeNormal(st', p).out && TakeNormal(st, p).n == TakeNormal(st', p).n
    ensures Alike(TakeNormal(st, p).st, TakeNormal(st', p).st)
  {
    AlikeRune(st, st', p);
  }

  lemma AlikeTake(st: State, st': State, p: seq<Byte>)
    requires Alike(st, st') && p != []
    ensures Take(st, p).out == Take(st', p).out && Take(st, p).n == Take(st', p).n
    ensures Alike(Take(st, p).st, Take(st', p).st)
  {
    if st.mode == Normal {
      AlikeNormal(st.(pendCR := false), st'.(pendCR := false), p);
    } else {
      AlikeEscape(st, st', p[0]);
    }
  }

  lemma {:induction false} AlikeStrip(st: State, st': State, p: seq<Byte>)
    requires Alike(st, st')
    ensures Strip(st, p).out == Strip(st', p).out
    decreases |p|
  {
    if p != [] && !Unfinished(st, p) {
      AlikeTake(st, st', p);
      AlikeStrip(Take(st, p).st, Take(st', p).st, p[Take(st, p).n..]);
    }
  }

  /** One turn of the stripper. */
  lemma Turn(st: State, p: seq<Byte>, rest: seq<Byte>)
    requires p != [] && !Unfinished(st, p) && rest == p[Take(st, p).n..]
    ensures Strip(st, p).out == Take(st, p).out + Strip(Take(st, p).st, rest).out
  {
  }

  /** What the stripper makes of `p` from the start. */
  function Stripping(p: seq<Byte>): seq<Byte> {
    Strip(INITIAL, p).out
  }

  predicate Ready(st: State) {
    st.mode == Normal && !st.pendCR
  }

  lemma ReadyStrips(st: State, p: seq<Byte>)
    requires Ready(st)
    ensures Strip(st, p).out == Stripping(p)
  {
    AlikeStrip(st, INITIAL, p);
  }

  // ----- a unit in front -----

  /** One byte of an escape sequence. */
  lemma EscapeTurn(st: State, b: Byte, rest: seq<Byte>)
    requires st.mode != Normal
    ensures Strip(st, [b] + rest).out == EscapeByte(st, b).0 + Strip(EscapeByte(st, b).1, rest).out
  {
    assert ([b] + rest)[1..] == rest;
    Turn(st, [b] + rest, rest);
  }

  lemma {:induction false} CsiStrips(st: State, body: seq<Byte>, final: Byte, rest: seq<Byte>)
    requires st.mode == Mode.Csi && !st.pendCR && CsiFinal(final) && forall i :: 0 <= i < |body| ==> !CsiFinal(body[i])
    ensures Strip(st, body + ([final] + rest)).out == Stripping(rest)
    decreases |body|
  {
    if body == [] {
      assert body + ([final] + rest) == [final] + rest;
      EscapeTurn(st, final, rest);
      ReadyStrips(st.(mode := Normal), rest);
    } else {
      assert body + ([final] + rest) == [body[0]] + (body[1..] + ([final] + rest));
      EscapeTurn(st, body[0], body[1..] + ([final] + rest));
      CsiStrips(st, body[1..], final, rest);
    }
  }

  lemma {:induction false} MidStrips(st: State, mid: seq<Byte>, final: Byte, rest: seq<Byte>)
    requires st.mode == Intermediate && !st.pendCR && !Mid(final) && forall i :: 0 <= i < |mid| ==> Mid(mid[i])
    ensures Strip(st, mid + ([final] + rest)).out == Stripping(rest)
    decreases |mid|
  {
    if mid == [] {
      assert mid + ([final] + rest) == [final] + rest;
      EscapeTurn(st, final, rest);
      ReadyStrips(st.(mode := Normal), rest);
    } else {
      assert mid + ([final] + rest) == [mid[0]] + (mid[1..] + ([final] + rest));
      EscapeTurn(st, mid[0], mid[1..] + ([final] + rest));
      MidStrips(st, mid[1..], final, rest);
    }
  }

  /** Whether the notice is still to come: `more` bytes of the string count from here on. */
  function NoticeFrom(st: State, more: nat): seq<Byte> {
    if !st.dropped && st.strLen + more > 4096 then Ascii("[ssh-gate: oversized escape dropped]") else []
  }

  /** A string's state: its notice was given exactly when it is oversized. */
  predicate StringState(st: State) {
    InString(st) && !st.pendCR && (st.dropped <==> st.strLen > 4096)
  }

  /** The body of a string has no BEL and no ESC `\` in it, nor one that the ESC in front completes. */
  predicate BodyFrom(st: State, body: seq<Byte>) {
    StrBody(body) && (st.mode == BodyEscape && body != [] ==> body[0] != 0x5c)
  }

  lemma BodyByte(st: State, body: seq<Byte>)
    requires StringState(st) && BodyFrom(st, body) && body != []
    ensures var (out, st1) := EscapeByte(st, body[0]);
            && StringState(st1) && BodyFrom(st1, body[1..])
            && out + NoticeFrom(st1, Counted(body[1..])) == NoticeFrom(st, Counted(body))
  {
    assert forall i :: 0 < i < |body[1..]| ==> body[1..][i - 1] == body[i] && body[1..][i] == body[i + 1];
  }

  /** A string to its end, BEL or ESC `\`. */
  lemma {:induction false} StrStrips(st: State, body: seq<Byte>, end: seq<Byte>, rest: seq<Byte>)
    requires StringState(st) && BodyFrom(st, body) && (end == [0x07] || end == [0x1b, 0x5c])
    ensures Strip(st, body + (end + rest)).out == NoticeFrom(st, Counted(body)) + Stripping(rest)
    decreases |body|
  {
    if body == [] {
      assert body + (end + rest) == end + rest;
      StrEnds(st, end, rest);
    } else {
      var (out, st1) := EscapeByte(st, body[0]);
      var behind := body[1..] + (end + rest);
      assert body + (end + rest) == [body[0]] + behind;
      BodyByte(st, body);
      EscapeTurn(st, body[0], behind);
      StrStrips(st1, body[1..], end, rest);
      Assoc(out, NoticeFrom(st1, Counted(body[1..])), Stripping(rest));
    }
  }

  lemma StrEnds(st: State, end: seq<Byte>, rest: seq<Byte>)
    requires StringState(st) && (end == [0x07] || end == [0x1b, 0x5c])
    ensures Strip(st, end + rest).out == Stripping(rest)
  {
    if end == [0x07] {
      BelEnds(st, rest);
    } else {
      assert end + rest == [0x1b] + ([0x5c] + rest);
      EscapeInString(st, [0x5c] + rest);
      TerminatorEnds(st.(mode := BodyEscape), rest);
    }
  }

  lemma EscapeInString(st: State, rest: seq<Byte>)
    requires StringState(st)
    ensures Strip(st, [0x1b] + rest).out == Strip(st.(mode := BodyEscape), rest).out
  {
    var st1 := st.(mode := BodyEscape);
    assert EscapeByte(st, 0x1b) == ([], st1);
    EscapeTurn(st, 0x1b, rest);
    NothingInFront(Strip(st1, rest).out);
  }

  lemma NothingInFront(p: seq<Byte>)
    ensures [] + p == p
  {
  }

  lemma BelEnds(st: State, rest: seq<Byte>)
    requires StringState(st)
    ensures Strip(st, [0x07] + rest).out == Stripping(rest)
  {
    EscapeTurn(st, 0x07, rest);
    ReadyStrips(st.(mode := Normal), rest);
    assert [] + Stripping(rest) == Stripping(rest);
  }

  lemma TerminatorEnds(st: State, rest: seq<Byte>)
    requires StringState(st) && st.mode == BodyEscape
    ensures Strip(st, [0x5c] + rest).out == Stripping(rest)
  {
    EscapeTurn(st, 0x5c, rest);
    ReadyStrips(st.(mode := Normal), rest);
    assert [] + Stripping(rest) == Stripping(rest);
  }

  // ----- the first byte of a unit -----

  lemma EscOpens(rest: seq<Byte>)
    ensures Stripping([0x1b] + rest) == Strip(INITIAL.(mode := Escape), rest).out
  {
    assert ([0x1b] + rest)[1..] == rest;
    Turn(INITIAL, [0x1b] + rest, rest);
  }

  /** A C1 control in its two bytes. */
  lemma C1Opens(c: Byte, rest: seq<Byte>)
    requires 0x80 <= c <= 0x9f
    ensures var p := [0xc2, c] + rest;
            && !Unfinished(INITIAL, p) && Take(INITIAL, p).n == 2 && Take(INITIAL, p).out == []
            && Take(INITIAL, p).st == (if c == 0x9b then INITIAL.(mode := Mode.Csi)
                                       else if StrIntro([0xc2, c]) then StartBody(INITIAL) else INITIAL)
  {
    var p := [0xc2, c] + rest;
    assert p[0] == 0xc2 && p[1] == c;
    assert DecodeRune(p) == (c as int, 2);
  }

  lemma C1Strips(c: Byte, rest: seq<Byte>)
    requires 0x80 <= c <= 0x9f
    ensures Stripping([0xc2, c] + rest)
         == Strip(if c == 0x9b then INITIAL.(mode := Mode.Csi)
                  else if StrIntro([0xc2, c]) then StartBody(INITIAL) else INITIAL, rest).out
  {
    C1Opens(c, rest);
    assert ([0xc2, c] + rest)[2..] == rest;
    Turn(INITIAL, [0xc2, c] + rest, rest);
  }

  lemma CsiOpens(intro: seq<Byte>, rest: seq<Byte>)
    requires CsiIntro(intro)
    ensures Stripping(intro + rest) == Strip(INITIAL.(mode := Mode.Csi), rest).out
  {
    if intro[0] == 0x1b {
      assert intro + rest == [0x1b] + ([0x5b] + rest);
      EscOpens([0x5b] + rest);
      EscapeTurn(INITIAL.(mode := Escape), 0x5b, rest);
    } else {
      C1Strips(0x9b, rest);
    }
  }

  lemma StrOpens(intro: seq<Byte>, rest: seq<Byte>)
    requires StrIntro(intro)
    ensures Stripping(intro + rest) == Strip(StartBody(INITIAL), rest).out
  {
    if intro[0] == 0x1b {
      assert intro + rest == [0x1b] + ([intro[1]] + rest);
      EscOpens([intro[1]] + rest);
      EscapeTurn(INITIAL.(mode := Escape), intro[1], rest);
    } else {
      assert intro == [0xc2, intro[1]];
      C1Strips(intro[1], rest);
    }
  }

  // ----- every kind of unit -----

  lemma ShownStrips(r: seq<Byte>, rest: seq<Byte>)
    requires ShownRune(r)
    ensures Stripping(r + rest) == r + Stripping(rest)
  {
    var p := r + rest;
    DecodePrefix(r, rest);
    ShownTakes(p);
    assert p[|r|..] == rest && p[..|r|] == r;
    Turn(INITIAL, p, rest);
  }

  lemma ShownTakes(p: seq<Byte>)
    requires StartsRune(p) && ShownRune(p[..RuneLen(p)])
    ensures !Unfinished(INITIAL, p) && Take(INITIAL, p) == Took(p[..RuneLen(p)], INITIAL, RuneLen(p))
  {
    var r := p[..RuneLen(p)];
    assert r[0] == p[0];
    if p[0] < 0x80 {
      assert r == [p[0]];
    } else {
      DecodeExact(p);
      EncodeDecode(p);
      C1Range(p);
    }
  }

  /** The code points 0x80 to 0x9f are the runes of two bytes that begin with 0xc2. */
  lemma C1Range(p: seq<Byte>)
    requires StartsRune(p) && p[0] >= 0x80
    ensures DecodeRune(p).0 >= 0x80
    ensures DecodeRune(p).0 <= 0x9f <==> p[0] == 0xc2 && p[1] <= 0x9f
  {
  }

  lemma HiddenStrips(r: seq<Byte>, rest: seq<Byte>)
    requires HiddenControl(r)
    ensures Stripping(r + rest) == Stripping(rest)
  {
    if |r| == 1 {
      assert (r + rest)[1..] == rest;
      Turn(INITIAL, r + rest, rest);
    } else {
      assert r == [0xc2, r[1]];
      C1Strips(r[1], rest);
    }
  }

  lemma BrokenStrips(b: Byte, rest: seq<Byte>)
    requires b >= 0x80 && !StartsRune([b] + rest) && FullRune([b] + rest)
    ensures Stripping([b] + rest) == [0xEF, 0xBF, 0xBD] + Stripping(rest)
  {
    var p := [b] + rest;
    DecodeExact(p);
    assert p[1..] == rest;
    Turn(INITIAL, p, rest);
  }

  /** A newline stands for the carriage return as soon as another byte follows. */
  lemma PendingStrips(rest: seq<Byte>)
    requires rest != []
    ensures Strip(INITIAL.(pendCR := true), rest).out
         == (if rest[0] == 0x0a then [] else [0x0a]) + Stripping(rest)
  {
    var st := INITIAL.(pendCR := true);
    if Unfinished(st, rest) {
      PendingBeforeTail(rest);
    } else {
      PendingTakes(rest);
      PendingTurn(st, rest, Take(INITIAL, rest));
    }
  }

  lemma PendingBeforeTail(rest: seq<Byte>)
    requires Unfinished(INITIAL, rest)
    ensures Strip(INITIAL.(pendCR := true), rest).out == [0x0a] && Stripping(rest) == [] && rest[0] != 0x0a
  {
  }

  lemma PendingTakes(rest: seq<Byte>)
    requires rest != []
    ensures var t, t' := Take(INITIAL, rest), Take(INITIAL.(pendCR := true), rest);
            && t'.st == t.st && t'.n == t.n
            && t'.out == (if rest[0] == 0x0a then [] else [0x0a]) + t.out
  {
    assert [] + TakeNormal(INITIAL, rest).out == TakeNormal(INITIAL, rest).out;
  }

  lemma PendingTurn(st: State, rest: seq<Byte>, t: Took)
    requires st == INITIAL.(pendCR := true) && rest != [] && !Unfinished(st, rest) && t == Take(INITIAL, rest)
    requires Take(st, rest) == Took((if rest[0] == 0x0a then [] else [0x0a]) + t.out, t.st, t.n)
    ensures Strip(st, rest).out == (if rest[0] == 0x0a then [] else [0x0a]) + Stripping(rest)
  {
    Turn(st, rest, rest[t.n..]);
    Turn(INITIAL, rest, rest[t.n..]);
    Assoc(if rest[0] == 0x0a then [] else [0x0a], t.out, Strip(t.st, rest[t.n..]).out);
  }

  lemma ReturnStrips(rest: seq<Byte>)
    requires rest != []
    ensures Stripping([0x0d] + rest) == (if rest[0] == 0x0a then [] else [0x0a]) + Stripping(rest)
  {
    assert ([0x0d] + rest)[1..] == rest;
    Turn(INITIAL, [0x0d] + rest, rest);
    PendingStrips(rest);
  }

  lemma FeedStrips(rest: seq<Byte>)
    ensures Stripping([0x0a] + rest) == [0x0a] + Stripping(rest)
  {
    assert ([0x0a] + rest)[1..] == rest;
    Turn(INITIAL, [0x0a] + rest, rest);
  }

  lemma EscStrips(mid: seq<Byte>, final: Byte, rest: seq<Byte>)
    requires EscFinal(mid, final) && forall i :: 0 <= i < |mid| ==> Mid(mid[i])
    ensures Stripping([0x1b] + (mid + ([final] + rest))) == Stripping(rest)
  {
    EscOpens(mid + ([final] + rest));
    if mid == [] {
      assert mid + ([final] + rest) == [final] + rest;
      ShortEscStrips(final, rest);
    } else {
      assert mid + ([final] + rest) == [mid[0]] + (mid[1..] + ([final] + rest));
      MidOpens(mid[0], mid[1..] + ([final] + rest));
      MidStrips(INITIAL.(mode := Intermediate), mid[1..], final, rest);
    }
  }

  lemma ShortEscStrips(final: Byte, rest: seq<Byte>)
    requires EscFinal([], final)
    ensures Strip(INITIAL.(mode := Escape), [final] + rest).out == Stripping(rest)
  {
    EscapeTurn(INITIAL.(mode := Escape), final, rest);
    assert [] + Stripping(rest) == Stripping(rest);
  }

  lemma MidOpens(b: Byte, rest: seq<Byte>)
    requires Mid(b)
    ensures Strip(INITIAL.(mode := Escape), [b] + rest).out == Strip(INITIAL.(mode := Intermediate), rest).out
  {
    var out := Strip(INITIAL.(mode := Intermediate), rest).out;
    EscapeTurn(INITIAL.(mode := Escape), b, rest);
    assert [] + out == out;
  }

  lemma Three(a: seq<Byte>, b: seq<Byte>, c: seq<Byte>, d: seq<Byte>)
    ensures a + b + c + d == a + (b + (c + d))
  {
  }

  /** A whole unit in front of `rest` strips to what it shows, and then what `rest` strips to. */
  lemma UnitStrips(u: Unit, rest: seq<Byte>)
    requires Fits(u, rest)
    ensures Stripping(Spell(u) + rest) == Text(u) + Stripping(rest)
  {
    assert [] + Stripping(rest) == Stripping(rest);
    match u
    case Shown(r) => ShownStrips(r, rest);
    case Hidden(r) => HiddenStrips(r, rest);
    case Broken(b) => BrokenStrips(b, rest);
    case Return => ReturnStrips(rest);
    case ReturnFeed =>
      assert [0x0d, 0x0a] + rest == [0x0d] + ([0x0a] + rest);
      ReturnStrips([0x0a] + rest);
      FeedStrips(rest);
      assert [] + Stripping([0x0a] + rest) == Stripping([0x0a] + rest);
    case Csi(intro, body, final) =>
      Three(intro, body, [final], rest);
      CsiOpens(intro, body + ([final] + rest));
      CsiStrips(INITIAL.(mode := Mode.Csi), body, final, rest);
    case Str(intro, body, end) =>
      Three(intro, body, end, rest);
      StrOpens(intro, body + (end + rest));
      StrStrips(StartBody(INITIAL), body, end, rest);
    case Esc(mid, final) =>
      Three([0x1b], mid, [final], rest);
      EscStrips(mid, final, rest);
  }

  /** The units of a stream one after the other. */
  lemma {:induction false} UnitsStrip(us: seq<Unit>, tail: seq<Byte>)
    requires FitAll(us, tail)
    ensures Stripping(SpellAll(us) + tail) == TextAll(us) + Stripping(tail)
    decreases |us|
  {
    if us == [] {
      assert SpellAll(us) + tail == tail && TextAll(us) + Stripping(tail) == Stripping(tail);
    } else {
      var rest := SpellAll(us[1..]) + tail;
      UnitsStrip(us[1..], tail);
      UnitStrips(us[0], rest);
      Assoc(Spell(us[0]), SpellAll(us[1..]), tail);
      Assoc(Text(us[0]), TextAll(us[1..]), Stripping(tail));
    }
  }

  // ----- the end of a stream -----

  /** A unit that is not whole: a carriage return whose next byte is not known, the
      beginning of a rune, or an escape sequence without its end. */
  predicate Unended(s: seq<Byte>) {
    || s == [] || s == [0x0d]
    || (s[0] >= 0x80 && !FullRune(s))
    || (s[0] == 0x1b && forall i :: 0 < i < |s| ==> Mid(s[i]))
    || (|s| >= 2 && CsiIntro(s[..2]) && forall i :: 2 <= i < |s| ==> !CsiFinal(s[i]))
    || (|s| >= 2 && StrIntro(s[..2]) && StrBody(s[2..]))
  }

  /** It shows nothing, unless it is a string that is oversized already. */
  function UnendedText(s: seq<Byte>): seq<Byte> {
    if |s| >= 2 && StrIntro(s[..2]) then NoticeFor(s[2..]) else []
  }

  lemma {:induction false} OpenCsi(st: State, body: seq<Byte>)
    requires st.mode == Mode.Csi && forall i :: 0 <= i < |body| ==> !CsiFinal(body[i])
    ensures Strip(st, body).out == []
    decreases |body|
  {
    if body != [] {
      assert body == [body[0]] + body[1..];
      EscapeTurn(st, body[0], body[1..]);
      OpenCsi(st, body[1..]);
    }
  }

  lemma {:induction false} OpenMid(st: State, mid: seq<Byte>)
    requires (st.mode == Escape || st.mode == Intermediate) && forall i :: 0 <= i < |mid| ==> Mid(mid[i])
    ensures Strip(st, mid).out == []
    decreases |mid|
  {
    if mid != [] {
      assert mid == [mid[0]] + mid[1..];
      EscapeTurn(st, mid[0], mid[1..]);
      OpenMid(st.(mode := Intermediate), mid[1..]);
    }
  }

  lemma {:induction false} OpenStr(st: State, body: seq<Byte>)
    requires StringState(st) && BodyFrom(st, body)
    ensures Strip(st, body).out == NoticeFrom(st, Counted(body))
    decreases |body|
  {
    if body != [] {
      assert body == [body[0]] + body[1..];
      BodyByte(st, body);
      EscapeTurn(st, body[0], body[1..]);
      OpenStr(EscapeByte(st, body[0]).1, body[1..]);
    }
  }

  lemma UnendedStrips(s: seq<Byte>)
    requires Unended(s)
    ensures Stripping(s) == UnendedText(s)
  {
    if |s| >= 2 && StrIntro(s[..2]) && StrBody(s[2..]) {
      assert s == s[..2] + s[2..];
      StrOpens(s[..2], s[2..]);
      OpenStr(StartBody(INITIAL), s[2..]);
    } else if |s| >= 2 && CsiIntro(s[..2]) && (forall i :: 2 <= i < |s| ==> !CsiFinal(s[i])) {
      assert s == s[..2] + s[2..];
      CsiOpens(s[..2], s[2..]);
      OpenCsi(INITIAL.(mode := Mode.Csi), s[2..]);
    } else if s != [] && s[0] == 0x1b && (forall i :: 0 < i < |s| ==> Mid(s[i])) {
      assert s == [0x1b] + s[1..];
      EscOpens(s[1..]);
      OpenMid(INITIAL.(mode := Escape), s[1..]);
    } else if s == [0x0d] {
      assert s[1..] == [];
      Turn(INITIAL, s, []);
    }
  }

  // ----- every stream is such a list -----

  /** Where the CSI's final byte is. */
  lemma {:induction false} FindFinal(s: seq<Byte>, from: nat) returns (k: nat)
    requires from <= |s|
    ensures from <= k <= |s| && (forall i :: from <= i < k ==> !CsiFinal(s[i])) && (k < |s| ==> CsiFinal(s[k]))
    decreases |s| - from
  {
    if from == |s| || CsiFinal(s[from]) {
      k := from;
    } else {
      k := FindFinal(s, from + 1);
    }
  }

  lemma {:induction false} FindMid(s: seq<Byte>, from: nat) returns (k: nat)
    requires from <= |s|
    ensures from <= k <= |s| && (forall i :: from <= i < k ==> Mid(s[i])) && (k < |s| ==> !Mid(s[k]))
    decreases |s| - from
  {
    if from == |s| || !Mid(s[from]) {
      k := from;
    } else {
      k := FindMid(s, from + 1);
    }
  }

  predicate EndsAt(p: seq<Byte>, k: nat) {
    k < |p| && (p[k] == 0x07 || (k + 1 < |p| && p[k] == 0x1b && p[k + 1] == 0x5c))
  }

  /** Where the string's end begins. */
  lemma {:induction false} FindEnd(p: seq<Byte>, from: nat) returns (k: nat)
    requires from <= |p| && forall i :: 0 <= i < from ==> !EndsAt(p, i)
    ensures from <= k <= |p| && (forall i :: 0 <= i < k ==> !EndsAt(p, i)) && (k < |p| ==> EndsAt(p, k))
    decreases |p| - from
  {
    if from == |p| || EndsAt(p, from) {
      k := from;
    } else {
      k := FindEnd(p, from + 1);
    }
  }

  lemma NoEndIsBody(p: seq<Byte>, k: nat)
    requires k <= |p| && (forall i :: 0 <= i < k ==> !EndsAt(p, i))
    ensures StrBody(p[..k])
  {
    forall i | 0 < i < k ensures !(p[..k][i - 1] == 0x1b && p[..k][i] == 0x5c) {
      assert !EndsAt(p, i - 1);
    }
    forall i | 0 <= i < k ensures p[..k][i] != 0x07 {
      assert !EndsAt(p, i);
    }
  }

  /** The stream begins with a whole unit, or is one that is not whole. */
  ghost predicate Begins(s: seq<Byte>, u: Unit, rest: seq<Byte>) {
    s == Spell(u) + rest && Fits(u, rest) && |rest| < |s|
  }

  ghost predicate HasUnit(s: seq<Byte>) {
    exists u, rest :: Begins(s, u, rest)
  }

  lemma CsiHead(s: seq<Byte>)
    requires |s| >= 2 && CsiIntro(s[..2])
    ensures Unended(s) || HasUnit(s)
  {
    var k := FindFinal(s, 2);
    if k < |s| {
      var u := Unit.Csi(s[..2], s[2..k], s[k]);
      assert s == s[..2] + s[2..k] + [s[k]] + s[k + 1..];
      assert Begins(s, u, s[k + 1..]);
    }
  }

  lemma StrHead(s: seq<Byte>)
    requires |s| >= 2 && StrIntro(s[..2])
    ensures Unended(s) || HasUnit(s)
  {
    var p := s[2..];
    var k := FindEnd(p, 0);
    NoEndIsBody(p, k);
    if k == |p| {
      assert p[..k] == p;
    } else if p[k] == 0x07 {
      assert p == p[..k] + ([0x07] + p[k + 1..]);
      StrBegins(s, s[..2], p[..k], [0x07], p[k + 1..]);
    } else {
      assert p == p[..k] + ([0x1b, 0x5c] + p[k + 2..]);
      StrBegins(s, s[..2], p[..k], [0x1b, 0x5c], p[k + 2..]);
    }
  }

  lemma StrBegins(s: seq<Byte>, intro: seq<Byte>, body: seq<Byte>, end: seq<Byte>, rest: seq<Byte>)
    requires StrIntro(intro) && StrBody(body) && (end == [0x07] || end == [0x1b, 0x5c])
    requires |s| >= 2 && s[..2] == intro && s[2..] == body + (end + rest)
    ensures HasUnit(s)
  {
    assert s == intro + (body + (end + rest));
    Three(intro, body, end, rest);
    assert Begins(s, Unit.Str(intro, body, end), rest);
  }

  lemma EscHead(s: seq<Byte>)
    requires s != [] && s[0] == 0x1b && (|s| >= 2 ==> !CsiIntro(s[..2]) && !StrIntro(s[..2]))
    ensures Unended(s) || HasUnit(s)
  {
    var k := FindMid(s, 1);
    if k < |s| {
      var u := Unit.Esc(s[1..k], s[k]);
      if k == 1 {
        assert s[..2] == [0x1b, s[1]];
      }
      assert s == [0x1b] + s[1..k] + [s[k]] + s[k + 1..];
      assert Begins(s, u, s[k + 1..]);
    }
  }

  lemma ControlHead(s: seq<Byte>)
    requires s != [] && s[0] < 0x80 && s[0] != 0x1b
    ensures Unended(s) || HasUnit(s)
  {
    assert s == [s[0]] + s[1..];
    if s[0] == 0x0d {
      if |s| > 1 && s[1] == 0x0a {
        assert s == [0x0d, 0x0a] + s[2..];
        assert Begins(s, ReturnFeed, s[2..]);
      } else if |s| > 1 {
        assert Begins(s, Return, s[1..]);
      } else {
        assert s == [0x0d];
      }
    } else if HiddenControl([s[0]]) {
      assert Begins(s, Hidden([s[0]]), s[1..]);
    } else {
      assert Begins(s, Unit.Shown([s[0]]), s[1..]);
    }
  }

  lemma RuneHead(s: seq<Byte>)
    requires s != [] && s[0] >= 0x80 && (|s| >= 2 ==> !CsiIntro(s[..2]) && !StrIntro(s[..2]))
    ensures Unended(s) || HasUnit(s)
  {
    assert s == [s[0]] + s[1..];
    if StartsRune(s) {
      var r := s[..RuneLen(s)];
      assert s == r + s[RuneLen(s)..] && r[0] == s[0];
      if |r| == 2 && r[0] == 0xc2 && r[1] <= 0x9f {
        assert r == s[..2] && HiddenControl(r);
        assert Begins(s, Hidden(r), s[RuneLen(s)..]);
      } else {
        WholeRune(s);
        assert Begins(s, Unit.Shown(r), s[RuneLen(s)..]);
      }
    } else if FullRune(s) {
      assert Begins(s, Broken(s[0]), s[1..]);
    }
  }

  lemma WholeRune(s: seq<Byte>)
    requires StartsRune(s)
    ensures StartsRune(s[..RuneLen(s)]) && RuneLen(s[..RuneLen(s)]) == RuneLen(s)
  {
  }

  lemma Head(s: seq<Byte>)
    ensures Unended(s) || HasUnit(s)
  {
    if s != [] {
      if |s| >= 2 && CsiIntro(s[..2]) {
        CsiHead(s);
      } else if |s| >= 2 && StrIntro(s[..2]) {
        StrHead(s);
      } else if s[0] == 0x1b {
        EscHead(s);
      } else if s[0] < 0x80 {
        ControlHead(s);
      } else {
        RuneHead(s);
      }
    }
  }

  lemma {:induction false} Units(s: seq<Byte>) returns (us: seq<Unit>, tail: seq<Byte>)
    ensures s == SpellAll(us) + tail && FitAll(us, tail) && Unended(tail)
    decreases |s|
  {
    Head(s);
    if Unended(s) {
      us, tail := [], s;
      assert SpellAll(us) + tail == s;
    } else {
      var u, rest :| Begins(s, u, rest);
      var more;
      more, tail := Units(rest);
      us := [u] + more;
      assert us[1..] == more;
      Assoc(Spell(u), SpellAll(more), tail);
    }
  }

  /** For every byte stream: it is a list of whole units and at most one that has not ended,
      and the stripped text is exactly what these show, one after the other. */
  lemma TextIsWhatTheUnitsShow(s: seq<Byte>) returns (us: seq<Unit>, tail: seq<Byte>)
    ensures s == SpellAll(us) + tail && FitAll(us, tail) && Unended(tail)
    ensures Strip(INITIAL, s).out == TextAll(us) + UnendedText(tail)
  {
    us, tail := Units(s);
    UnitsStrip(us, tail);
    UnendedStrips(tail);
  }
}
