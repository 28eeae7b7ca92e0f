/**
 Reading the text ring (`aiOutput.ReadText`, `trimIncompleteRune`, ai_session.go).

 A reader passes each returned cursor back as the next `since`. Between two
 reads the stream may grow and the ring may drop its head; the reader then sees
 the lost part as missed bytes.
 */
module Reader {
  import opened Bytes
  import opened Utf8
  import opened Ring
  import opened LineTypes

  const DEFAULT_MAX := 16384

  // ----- trimIncompleteRune -----

  /** Look back from index `i`, at most four bytes from the end, for a rune start. */
  function TrimFrom(p: seq<Byte>, i: int): seq<Byte>
    requires -1 <= i < |p|
    decreases i + 1
  {
    if i < 0 || i < |p| - 4 then p
    else if RuneStart(p[i]) then (if FullRune(p[i..]) then p else p[..i])
    else TrimFrom(p, i - 1)
  }

  function TrimIncompleteRune(p: seq<Byte>): seq<Byte> {
    TrimFrom(p, |p| - 1)
  }

  method TrimTail(p: seq<Byte>) returns (r: seq<Byte>)
    ensures r == TrimIncompleteRune(p)
  {
    var i := |p| - 1;
    while i >= 0 && i >= |p| - 4
      invariant -1 <= i < |p|
      invariant TrimFrom(p, i) == TrimIncompleteRune(p)
    {
      if RuneStart(p[i]) {
        return if FullRune(p[i..]) then p else p[..i];
      }
      i := i - 1;
    }
    return p;
  }

  // ----- one read -----

  datatype TextRead = TextRead(text: seq<Byte>, start: nat, cursor: nat, end: nat, missed: nat, more: bool)

  /** The first position from `c` on that does not continue a rune. */
  function SkipTail(stream: seq<Byte>, c: nat): (n: nat)
    requires c <= |stream|
    ensures c <= n <= |stream| && Boundary(stream, n)
    decreases |stream| - c
  {
    if c == |stream| || RuneStart(stream[c]) then c else SkipTail(stream, c + 1)
  }

  function Limit(max: int): (n: nat)
    ensures n > 0
  {
    if max <= 0 then DEFAULT_MAX else max
  }

  /** Where a read begins: behind what the ring has dropped, at a rune. */
  function FirstCursor(stream: seq<Byte>, start: nat, since: nat): (c: nat)
    requires start <= |stream| && since <= |stream|
    ensures since <= c <= |stream|
    ensures since < start ==> Boundary(stream, c)
  {
    if since < start then SkipTail(stream, start) else since
  }

  /** Where the text ends that begins at `from` and is at most `limit` bytes long;
      a rune is cut off when the limit splits it. */
  function TextEnd(stream: seq<Byte>, from: nat, limit: nat): (end: nat)
    requires from <= |stream|
    ensures from <= end <= |stream| && end <= from + limit
  {
    if from + limit >= |stream| then |stream|
    else
      TrimShortens(stream[from..from + limit]);
      from + |TrimIncompleteRune(stream[from..from + limit])|
  }

  /** None is the invalid_cursor error. `start` is the oldest cursor that the ring holds. */
  function ReadTextOf(stream: seq<Byte>, start: nat, since: nat, max: int): Option<TextRead>
    requires start <= |stream|
  {
    if since > |stream| then None
    else
      var from := FirstCursor(stream, start, since);
      var end := TextEnd(stream, from, Limit(max));
      Some(TextRead(stream[from..end], from, end, |stream|, from - since, end < |stream|))
  }

  lemma TrimShortens(p: seq<Byte>)
    ensures TrimIncompleteRune(p) <= p
  {
    TrimFromShortens(p, |p| - 1);
  }

  lemma {:induction false} TrimFromShortens(p: seq<Byte>, i: int)
    requires -1 <= i < |p|
    ensures TrimFrom(p, i) <= p
    decreases i + 1
  {
    if !(i < 0 || i < |p| - 4) && !RuneStart(p[i]) {
      TrimFromShortens(p, i - 1);
    }
  }

  method ReadText(text: RingBuffer, since: nat, max: int) returns (r: Option<TextRead>)
    requires text.Valid()
    ensures r == ReadTextOf(text.stream, |text.stream| - text.held, since, max)
  {
    var limit := if max <= 0 then DEFAULT_MAX else max;
    if since > text.end {
      return None;
    }
    var from, missed := FindStart(text, since);
    var data := ReadAt(text, from, limit);
    var next := from + |data|;
    r := Some(TextRead(data, from, next, text.end, missed, next < text.end));
  }

  method FindStart(text: RingBuffer, since: nat) returns (from: nat, missed: nat)
    requires text.Valid() && since <= text.end
    ensures from == FirstCursor(text.stream, text.Start(), since) && missed == from - since
    ensures text.Start() <= from <= text.end
  {
    from, missed := since, 0;
    if from < text.Start() {
      missed := text.Start() - from;
      var skipped := SkipToRune(text);
      from := text.Start() + skipped;
      missed := missed + skipped;
    }
  }

  /** The dropped head may end inside a rune; its tail counts as missed. */
  method SkipToRune(text: RingBuffer) returns (skipped: nat)
    requires text.Valid()
    ensures text.Start() + skipped == SkipTail(text.stream, text.Start())
  {
    var from := text.Start();
    skipped := 0;
    while from < text.end
      invariant text.Start() <= from <= text.end && from == text.Start() + skipped
      invariant SkipTail(text.stream, from) == SkipTail(text.stream, text.Start())
    {
      var b := text.Read(from, 1);
      assert b == [text.stream[from]];
      if RuneStart(b[0]) {
        break;
      }
      from := from + 1;
      skipped := skipped + 1;
    }
  }

  method ReadAt(text: RingBuffer, from: nat, limit: nat) returns (data: seq<Byte>)
    requires text.Valid() && text.Start() <= from <= text.end && limit > 0
    ensures from + |data| == TextEnd(text.stream, from, limit)
    ensures data == text.stream[from..TextEnd(text.stream, from, limit)]
  {
    data := text.Read(from, limit);
    ghost var raw := data;
    assert raw == text.stream[from..from + Min(limit, |text.stream| - from)];
    if |data| == limit && from + |data| < text.end {
      data := TrimTail(data);
    }
    ReadEnds(text.stream, from, limit, raw, data);
  }

  lemma ReadEnds(stream: seq<Byte>, from: nat, limit: nat, raw: seq<Byte>, data: seq<Byte>)
    requires from <= |stream| && limit > 0 && raw == stream[from..from + Min(limit, |stream| - from)]
    requires data == if |raw| == limit && from + |raw| < |stream| then TrimIncompleteRune(raw) else raw
    ensures from + |data| == TextEnd(stream, from, limit)
    ensures data == stream[from..TextEnd(stream, from, limit)]
  {
    TrimShortens(raw);
    assert data == raw[..|data|];
  }

  // ----- whole runes -----

  /** The start of the rune that covers position `c`. */
  lemma {:induction false} CoveringRune(s: seq<Byte>, c: nat) returns (i: nat)
    requires ValidUtf8(s) && c < |s|
    ensures i <= c < |s| && RuneStart(s[i])
    ensures StartsRune(s[i..]) && c < i + RuneLen(s[i..]) <= |s|
    ensures forall j :: i < j < i + RuneLen(s[i..]) ==> IsCont(s[j])
    ensures Boundary(s, i + RuneLen(s[i..]))
    decreases |s|
  {
    var n := RuneLen(s);
    if c < n {
      i := 0;
      assert s[0..] == s;
      if n < |s| {
        assert s[n..][0] == s[n] && StartsRune(s[n..]);
      }
    } else {
      var k := CoveringRune(s[n..], c - n);
      i := k + n;
      assert s[i..] == s[n..][k..];
      forall j | i < j < i + RuneLen(s[i..]) ensures IsCont(s[j]) {
        assert s[n..][j - n] == s[j];
      }
      assert k + RuneLen(s[i..]) < |s[n..]| ==> s[n..][k + RuneLen(s[i..])] == s[i + RuneLen(s[i..])];
    }
  }

  /** Trimming drops the rune that the cut splits, and nothing else. */
  lemma TrimResult(s: seq<Byte>, from: nat, end: nat, i: nat)
    requires from <= i < end <= |s| && StartsRune(s[i..]) && RuneStart(s[i])
    requires end <= i + RuneLen(s[i..])
    requires forall j :: i < j < i + RuneLen(s[i..]) ==> IsCont(s[j])
    ensures TrimIncompleteRune(s[from..end]) == if end == i + RuneLen(s[i..]) then s[from..end] else s[from..i]
  {
    var p := s[from..end];
    TrimFinds(p, i - from, |p| - 1);
    CutRuneIsFull(s, i, end);
    assert p[i - from..] == s[i..end] && p[..i - from] == s[from..i];
  }

  /** Trimming a cut stream leaves the longest run of whole runes. */
  lemma TrimKeepsWholeRunes(s: seq<Byte>, from: nat, m: nat)
    requires ValidUtf8(s) && Boundary(s, from) && m > 0 && from + m < |s|
    ensures var t := TrimIncompleteRune(s[from..from + m]);
            && t <= s[from..from + m]
            && Boundary(s, from + |t|)
            && (forall c :: from + |t| < c <= from + m ==> !Boundary(s, c))
  {
    var i := CoveringRune(s, from + m - 1);
    assert i >= from;
    TrimResult(s, from, from + m, i);
    KeptByTrim(s, from, from + m, i, TrimIncompleteRune(s[from..from + m]));
  }

  lemma KeptByTrim(s: seq<Byte>, from: nat, end: nat, i: nat, t: seq<Byte>)
    requires from <= i < end < |s| && RuneStart(s[i]) && StartsRune(s[i..])
    requires end <= i + RuneLen(s[i..]) && Boundary(s, i + RuneLen(s[i..]))
    requires forall j :: i < j < i + RuneLen(s[i..]) ==> IsCont(s[j])
    requires t == if end == i + RuneLen(s[i..]) then s[from..end] else s[from..i]
    ensures t <= s[from..end] && Boundary(s, from + |t|)
    ensures forall c :: from + |t| < c <= end ==> !Boundary(s, c)
  {
  }

  /** A rune cut at `end` is full exactly when it ends there. */
  lemma CutRuneIsFull(s: seq<Byte>, i: nat, end: nat)
    requires i < end <= |s| && StartsRune(s[i..]) && end <= i + RuneLen(s[i..])
    ensures FullRune(s[i..end]) <==> end == i + RuneLen(s[i..])
  {
    var q := s[i..end];
    assert q == s[i..][..end - i];
    NotFullIsPrefix(q);
  }

  /** The search stops at the last rune start. */
  lemma {:induction false} TrimFinds(p: seq<Byte>, i: nat, k: nat)
    requires i <= k < |p| && k - i <= 3 && i >= |p| - 4
    requires RuneStart(p[i]) && forall j :: i < j <= k ==> IsCont(p[j])
    ensures TrimFrom(p, k) == if FullRune(p[i..]) then p else p[..i]
    decreases k
  {
    if k > i {
      TrimFinds(p, i, k - 1);
    }
  }

  /** The text ends at a boundary, and at the last one within the limit. */
  lemma TextEndsAtBoundary(stream: seq<Byte>, from: nat, limit: nat)
    requires ValidUtf8(stream) && Boundary(stream, from) && limit > 0
    ensures var end := TextEnd(stream, from, limit);
            && Boundary(stream, end)
            && (end < |stream| ==> forall c :: end < c <= from + limit ==> !Boundary(stream, c))
  {
    if from + limit < |stream| {
      TrimKeepsWholeRunes(stream, from, limit);
    }
  }

  /** What one read promises: the text is the stream between the two returned
      cursors and consists of whole runes, every byte between `since` and the text
      is reported as missed, and the next cursor is again a boundary. */
  ghost predicate Faithful(stream: seq<Byte>, since: nat, max: int, r: TextRead) {
    && since <= r.start <= r.cursor <= |stream| == r.end
    && r.text == stream[r.start..r.cursor] && ValidUtf8(r.text)
    && r.missed == r.start - since
    && |r.text| <= Limit(max)
    && Boundary(stream, r.cursor)
    && (r.more <==> r.cursor < |stream|)
  }

  /** A reader at a rune boundary, or behind the ring, gets a faithful read. */
  lemma ReadsWholeRunes(stream: seq<Byte>, start: nat, since: nat, max: int)
    requires ValidUtf8(stream) && start <= |stream| && since <= |stream|
    requires since < start || Boundary(stream, since)
    ensures ReadTextOf(stream, start, since, max).Some?
    ensures Faithful(stream, since, max, ReadTextOf(stream, start, since, max).value)
    ensures ReadTextOf(stream, start, since, max).value.missed > 0 ==> since < start
  {
    var from := FirstCursor(stream, start, since);
    var end := TextEnd(stream, from, Limit(max));
    TextEndsAtBoundary(stream, from, Limit(max));
    SliceIsValid(stream, from, end);
  }

  /** Where the read begins and ends: at the reader's cursor, or, when the ring has dropped
      that, at the first rune that it still holds whole; and at the last rune boundary
      within the limit, which is 16384 bytes unless the reader asks for another one. */
  lemma ReadIsAsLargeAsItCan(stream: seq<Byte>, start: nat, since: nat, max: int)
    requires ValidUtf8(stream) && start <= |stream| && since <= |stream|
    requires since < start || Boundary(stream, since)
    ensures var r, limit := ReadTextOf(stream, start, since, max).value, if max <= 0 then 16384 else max;
            && (since >= start ==> r.start == since)
            && (since < start ==> r.start >= start && forall c :: start <= c < r.start ==> !Boundary(stream, c))
            && |r.text| <= limit
            && (r.cursor < |stream| ==> forall c :: r.cursor < c <= r.start + limit ==> !Boundary(stream, c))
  {
    if since < start {
      SkipsToFirst(stream, start);
    }
    TextEndsAtBoundary(stream, FirstCursor(stream, start, since), Limit(max));
  }

  lemma {:induction false} SkipsToFirst(stream: seq<Byte>, c: nat)
    requires c <= |stream|
    ensures forall k :: c <= k < SkipTail(stream, c) ==> !Boundary(stream, k)
    decreases |stream| - c
  {
    if c < |stream| && !RuneStart(stream[c]) {
      SkipsToFirst(stream, c + 1);
    }
  }

  lemma SliceIsValid(s: seq<Byte>, a: nat, b: nat)
    requires ValidUtf8(s) && Boundary(s, a) && Boundary(s, b) && a <= b
    ensures ValidUtf8(s[a..b])
  {
    CutAtBoundary(s, b);
    if a < b {
      assert s[..b][a] == s[a];
    }
    CutAtBoundary(s[..b], a);
    assert s[..b][a..] == s[a..b];
  }

  /** A read that says "more" moves the cursor exactly when bytes were missed or
      the next rune fits into the limit. */
  lemma ReadAdvancesIff(stream: seq<Byte>, start: nat, since: nat, max: int)
    requires ValidUtf8(stream) && start <= |stream| && since <= |stream|
    requires since < start || Boundary(stream, since)
    requires ReadTextOf(stream, start, since, max).value.more
    ensures var r := ReadTextOf(stream, start, since, max).value;
            && r.start < |stream| && StartsRune(stream[r.start..])
            && (r.cursor > since <==> r.missed > 0 || RuneLen(stream[r.start..]) <= Limit(max))
  {
    var from := FirstCursor(stream, start, since);
    TextEndsAtBoundary(stream, from, Limit(max));
    CutAtBoundary(stream, from);
    NextBoundary(stream, from);
    TextNotEmptyIff(stream, from, Limit(max));
  }

  lemma TextNotEmptyIff(stream: seq<Byte>, from: nat, limit: nat)
    requires ValidUtf8(stream) && Boundary(stream, from) && limit > 0
    requires TextEnd(stream, from, limit) < |stream|
    requires StartsRune(stream[from..])
    ensures TextEnd(stream, from, limit) > from <==> RuneLen(stream[from..]) <= limit
  {
    CutAtBoundary(stream, from);
    NextBoundary(stream, from);
    TextEndsAtBoundary(stream, from, limit);
    var n := RuneLen(stream[from..]);
    if n <= limit {
      assert Boundary(stream, from + n);
    }
  }

  lemma NextBoundary(s: seq<Byte>, c: nat)
    requires c < |s| && ValidUtf8(s[c..])
    ensures StartsRune(s[c..]) && Boundary(s, c + RuneLen(s[c..]))
    ensures forall j :: c < j < c + RuneLen(s[c..]) ==> !Boundary(s, j)
  {
    var n := RuneLen(s[c..]);
    forall j | c < j < c + n ensures !Boundary(s, j) {
      InsideRune(s[c..], j - c);
    }
    if c + n < |s| {
      assert s[c..][n..] == s[c + n..] && s[c + n..][0] == s[c + n];
    }
  }

  /** With room for four bytes, and with the default limit, a reader always gets on. */
  lemma ReaderNeverStalls(stream: seq<Byte>, start: nat, since: nat, max: int)
    requires ValidUtf8(stream) && start <= |stream| && since <= |stream|
    requires since < start || Boundary(stream, since)
    requires max >= 4 || max <= 0
    requires ReadTextOf(stream, start, since, max).value.more
    ensures ReadTextOf(stream, start, since, max).value.cursor > since
  {
    ReadAdvancesIff(stream, start, since, max);
  }

  /** With a limit of 1 to 3 bytes a reader can stall: the euro sign needs three bytes. */
  lemma SmallLimitStalls()
    ensures var s: seq<Byte> := [0xE2, 0x82, 0xAC, 0x0A];
            && ValidUtf8(s)
            && ReadTextOf(s, 0, 0, 2) == Some(TextRead([], 0, 0, 4, 0, true))
  {
    var s: seq<Byte> := [0xE2, 0x82, 0xAC, 0x0A];
    assert s[3..] == [0x0A] && s[3..][1..] == [];
    var p := s[0..2];
    assert TrimFrom(p, 1) == TrimFrom(p, 0) == p[..0] by {
      assert p[0..] == p;
    }
  }

  // ----- a whole series of reads -----

  /** What the ring holds at one read, and the limit that the reader asks for. */
  datatype Moment = Moment(stream: seq<Byte>, start: nat, max: int)

  ghost predicate Growing(moments: seq<Moment>) {
    && (forall i :: 0 <= i < |moments| ==> moments[i].start <= |moments[i].stream| && ValidUtf8(moments[i].stream))
    && (forall i :: 0 < i < |moments| ==> moments[i - 1].stream <= moments[i].stream)
  }

  /** The reads of a reader that starts at `since` and passes each cursor back. */
  function ReadAll(moments: seq<Moment>, since: nat): seq<TextRead>
    requires forall i :: 0 <= i < |moments| ==> moments[i].start <= |moments[i].stream|
  {
    if moments == [] then []
    else
      match ReadTextOf(moments[0].stream, moments[0].start, since, moments[0].max)
      case None => []
      case Some(r) => [r] + ReadAll(moments[1..], r.cursor)
  }

  function Accounted(slices: seq<TextRead>): nat {
    if slices == [] then 0 else |slices[0].text| + slices[0].missed + Accounted(slices[1..])
  }

  function LastCursor(slices: seq<TextRead>, since: nat): nat {
    if slices == [] then since else slices[|slices| - 1].cursor
  }

  /** Every read is faithful, and each begins where the one before ended. */
  ghost predicate AllFaithful(moments: seq<Moment>, since: nat, slices: seq<TextRead>) {
    if moments == [] then slices == []
    else
      && slices != []
      && Faithful(moments[0].stream, since, moments[0].max, slices[0])
      && AllFaithful(moments[1..], slices[0].cursor, slices[1..])
  }

  /** Appending whole runes keeps old boundaries. */
  lemma BoundaryStays(s: seq<Byte>, t: seq<Byte>, c: nat)
    requires s <= t && ValidUtf8(s) && ValidUtf8(t) && Boundary(s, c)
    ensures Boundary(t, c)
  {
    if c == |s| < |t| {
      EndOfValidPrefix(s, t);
    }
  }

  lemma {:induction false} EndOfValidPrefix(s: seq<Byte>, t: seq<Byte>)
    requires s < t && ValidUtf8(s) && ValidUtf8(t)
    ensures RuneStart(t[|s|])
    decreases |s|
  {
    if s == [] {
      assert StartsRune(t);
    } else {
      var n := RuneLen(s);
      assert SeqLen(t[0]) == n;
      EndOfValidPrefix(s[n..], t[n..]);
      assert t[n..][|s| - n] == t[|s|];
    }
  }

  /** Over any series of reads with any growth and any drops in between: no read
      fails, every one is faithful, consecutive reads meet, and text plus missed
      bytes account for every byte. */
  lemma {:induction false} EveryByteIsReadOrMissed(moments: seq<Moment>, since: nat)
    requires Growing(moments)
    requires moments != [] ==> since <= |moments[0].stream| && Boundary(moments[0].stream, since)
    ensures var slices := ReadAll(moments, since);
            && LastCursor(slices, since) - since == Accounted(slices)
            && AllFaithful(moments, since, slices)
    decreases |moments|
  {
    if moments != [] {
      var m, rest := moments[0], moments[1..];
      ReadsWholeRunes(m.stream, m.start, since, m.max);
      var r := ReadTextOf(m.stream, m.start, since, m.max).value;
      RestGrows(moments, r.cursor);
      EveryByteIsReadOrMissed(rest, r.cursor);
      OneMoreRead(moments, since, r, ReadAll(rest, r.cursor));
    }
  }

  lemma {:induction false} OneMoreRead(moments: seq<Moment>, since: nat, r: TextRead, tail: seq<TextRead>)
    requires moments != [] && Faithful(moments[0].stream, since, moments[0].max, r)
    requires AllFaithful(moments[1..], r.cursor, tail) && LastCursor(tail, r.cursor) - r.cursor == Accounted(tail)
    requires r.cursor - since == |r.text| + r.missed
    ensures AllFaithful(moments, since, [r] + tail)
    ensures LastCursor([r] + tail, since) - since == Accounted([r] + tail)
  {
    assert ([r] + tail)[1..] == tail;
  }

  lemma RestGrows(moments: seq<Moment>, c: nat)
    requires Growing(moments) && moments != [] && Boundary(moments[0].stream, c)
    ensures Growing(moments[1..])
    ensures |moments| > 1 ==> c <= |moments[1].stream| && Boundary(moments[1].stream, c)
  {
    var rest := moments[1..];
    assert forall i :: 0 <= i < |rest| ==> rest[i] == moments[i + 1];
    forall i | 0 < i < |rest| ensures rest[i - 1].stream <= rest[i].stream {
      assert moments[i + 1 - 1].stream <= moments[i + 1].stream;
    }
    if |moments| > 1 {
      assert moments[1 - 1].stream <= moments[1].stream;
      BoundaryStays(moments[0].stream, moments[1].stream, c);
    }
  }
}
