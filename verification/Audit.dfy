/**
 The audited output of a session (`aiAuditWriter`, ai_session_app.go;
 `appendAISessionOutput`, `aiStoreTruncateUTF8`, ai_session_store.go).

 The writer batches what the text ring gets, merging neighbours; the store cuts
 the text at the session's limit. Times are not part of this model.
 */
module Audit {
  import opened Bytes
  import opened Utf8

  const FLUSH_BYTES := 0x1_0000

  /** Text at an absolute cursor. */
  datatype Chunk = Chunk(start: nat, text: seq<Byte>)

  function Texts(chunks: seq<Chunk>): seq<Byte> {
    if chunks == [] then [] else chunks[0].text + Texts(chunks[1..])
  }

  datatype Cell = Cell(cursor: nat, byte: Byte)

  function At(start: nat, text: seq<Byte>): seq<Cell>
    decreases |text|
  {
    if text == [] then [] else [Cell(start, text[0])] + At(start + 1, text[1..])
  }

  /** Every byte with its cursor. */
  function Cells(chunks: seq<Chunk>): seq<Cell> {
    if chunks == [] then [] else At(chunks[0].start, chunks[0].text) + Cells(chunks[1..])
  }

  lemma {:induction false} AtAppend(start: nat, a: seq<Byte>, b: seq<Byte>)
    ensures At(start, a + b) == At(start, a) + At(start + |a|, b)
    decreases |a|
  {
    if a == [] {
      assert a + b == b;
    } else {
      AtAppend(start + 1, a[1..], b);
      ConcatTail(a, b);
      Assoc([Cell(start, a[0])], At(start + 1, a[1..]), At(start + |a|, b));
    }
  }

  lemma {:induction false} TextsAppend(a: seq<Chunk>, b: seq<Chunk>)
    ensures Texts(a + b) == Texts(a) + Texts(b)
  {
    if a == [] {
      assert a + b == b;
    } else {
      TextsAppend(a[1..], b);
      ConcatTail(a, b);
      Assoc(a[0].text, Texts(a[1..]), Texts(b));
    }
  }

  lemma {:induction false} CellsAppend(a: seq<Chunk>, b: seq<Chunk>)
    ensures Cells(a + b) == Cells(a) + Cells(b)
  {
    if a == [] {
      assert a + b == b;
    } else {
      CellsAppend(a[1..], b);
      ConcatTail(a, b);
      Assoc(At(a[0].start, a[0].text), Cells(a[1..]), Cells(b));
    }
  }

  // ----- the writer -----

  predicate Merges(pending: seq<Chunk>, start: nat) {
    pending != [] &&
    var last := pending[|pending| - 1];
    last.start + |last.text| == start && |last.text| < FLUSH_BYTES
  }

  function Added(pending: seq<Chunk>, start: nat, p: seq<Byte>): seq<Chunk> {
    if Merges(pending, start) then
      var last := pending[|pending| - 1];
      pending[..|pending| - 1] + [Chunk(last.start, last.text + p)]
    else pending + [Chunk(start, p)]
  }

  /** Merging keeps every byte at its cursor. */
  lemma AddedCells(pending: seq<Chunk>, start: nat, p: seq<Byte>)
    ensures Cells(Added(pending, start, p)) == Cells(pending) + At(start, p)
    ensures Texts(Added(pending, start, p)) == Texts(pending) + p
  {
    if Merges(pending, start) {
      var n := |pending| - 1;
      assert pending == pending[..n] + [pending[n]];
      MergedCells(pending[..n], pending[n], p);
    } else {
      CellsSnoc(pending, Chunk(start, p));
    }
  }

  lemma MergedCells(front: seq<Chunk>, last: Chunk, p: seq<Byte>)
    ensures var merged := front + [Chunk(last.start, last.text + p)];
            && Cells(merged) == Cells(front + [last]) + At(last.start + |last.text|, p)
            && Texts(merged) == Texts(front + [last]) + p
  {
    CellsSnoc(front, last);
    CellsSnoc(front, Chunk(last.start, last.text + p));
    AtAppend(last.start, last.text, p);
    Assoc(Cells(front), At(last.start, last.text), At(last.start + |last.text|, p));
    Assoc(Texts(front), last.text, p);
  }

  lemma CellsSnoc(a: seq<Chunk>, c: Chunk)
    ensures Cells(a + [c]) == Cells(a) + At(c.start, c.text)
    ensures Texts(a + [c]) == Texts(a) + c.text
  {
    CellsAppend(a, [c]);
    TextsAppend(a, [c]);
    SingleChunk(c);
  }

  lemma SingleChunk(c: Chunk)
    ensures Cells([c]) == At(c.start, c.text) && Texts([c]) == c.text
  {
    assert Cells([c]) == At(c.start, c.text) + Cells([]);
    assert Texts([c]) == c.text + Texts([]);
  }

  lemma AddedToBatches(done: seq<Chunk>, pending: seq<Chunk>, start: nat, p: seq<Byte>)
    ensures Cells(done + Added(pending, start, p)) == Cells(done + pending) + At(start, p)
  {
    AddedCells(pending, start, p);
    CellsAppend(done, pending);
    CellsAppend(done, Added(pending, start, p));
    Assoc(Cells(done), Cells(pending), At(start, p));
  }

  class Writer {
    var pending: seq<Chunk>
    var size: nat
    var closed: bool
    /** The batches handed to the store. */
    ghost var batches: seq<seq<Chunk>>
    /** What was added before the close, byte by byte. */
    ghost var added: seq<Cell>

    ghost predicate Valid()
      reads this
    {
      && Cells(Flatten(batches) + pending) == added
      && size == |Texts(pending)|
    }

    constructor ()
      ensures Valid() && !closed && added == [] && batches == []
    {
      pending, size, closed, batches, added := [], 0, false, [], [];
    }

    /** True when the loop should flush now. */
    method Add(start: nat, p: seq<Byte>) returns (full: bool)
      requires Valid()
      modifies this`pending, this`size, this`added
      ensures Valid()
      ensures added == old(added) + (if closed then [] else At(start, p))
      ensures pending == if closed then old(pending) else Added(old(pending), start, p)
      ensures full <==> !closed && |Texts(pending)| >= 65536
      ensures !closed ==>
                var n := |old(pending)|;
                var merges := n > 0 && old(pending)[n - 1].start + |old(pending)[n - 1].text| == start
                              && |old(pending)[n - 1].text| < 65536;
                |pending| == if merges then n else n + 1
    {
      if closed {
        return false;
      }
      AddedCells(pending, start, p);
      AddedToBatches(Flatten(batches), pending, start, p);
      added := added + At(start, p);
      var n := |pending|;
      if n > 0 {
        var last := pending[n - 1];
        if last.start + |last.text| == start && |last.text| < FLUSH_BYTES {
          pending := pending[..n - 1] + [Chunk(last.start, last.text + p)];
          size := size + |p|;
          return size >= FLUSH_BYTES;
        }
      }
      pending := pending + [Chunk(start, p)];
      size := size + |p|;
      full := size >= FLUSH_BYTES;
    }

    /** An empty batch is not written. `ok` is the store's answer; a batch that it
        refuses is given up and reported, and the writer goes on. */
    method Flush(ok: bool) returns (batch: seq<Chunk>, failed: bool)
      requires Valid()
      modifies this`pending, this`size, this`batches
      ensures Valid() && pending == [] && batch == old(pending)
      ensures batches == if batch == [] then old(batches) else old(batches) + [batch]
      ensures Cells(Flatten(batches)) == added
      ensures failed <==> old(pending) != [] && !ok
    {
      failed := pending != [] && !ok;
      batch := pending;
      pending, size := [], 0;
      assert Flatten(batches) + [] == Flatten(batches);
      if batch != [] {
        FlattenSnoc(batches, batch);
        batches := batches + [batch];
      } else {
        assert Flatten(batches) + batch == Flatten(batches);
      }
      assert Flatten(batches) + pending == Flatten(batches);
    }

    /** The loop's last flush belongs to the close. After it the batches hold
        everything that was added before, at its cursors. */
    method Close(ok: bool) returns (last: seq<Chunk>, failed: bool)
      requires Valid()
      modifies this
      ensures Valid() && closed && added == old(added)
      ensures !old(closed) ==> pending == [] && last == old(pending) && Cells(Flatten(batches)) == added
      ensures old(closed) ==> last == [] && pending == old(pending) && batches == old(batches)
      ensures failed <==> last != [] && !ok
    {
      if closed {
        return [], false;
      }
      closed := true;
      last, failed := Flush(ok);
    }
  }

  // ----- cutting at the limit -----

  /** The last rune start at or before `n`, or 0. */
  function CutPoint(s: seq<Byte>, n: nat): (c: nat)
    requires n < |s|
    ensures c <= n
  {
    if n == 0 || RuneStart(s[n]) then n else CutPoint(s, n - 1)
  }

  function Truncated(s: seq<Byte>, n: int): seq<Byte> {
    if n <= 0 then [] else if |s| <= n then s else s[..CutPoint(s, n)]
  }

  method TruncateUtf8(s: seq<Byte>, limit: int) returns (t: seq<Byte>)
    ensures t == Truncated(s, limit)
  {
    if limit <= 0 {
      return [];
    }
    if |s| <= limit {
      return s;
    }
    var n := limit;
    while n > 0 && !RuneStart(s[n])
      invariant 0 <= n <= limit
      invariant CutPoint(s, n) == CutPoint(s, limit)
    {
      n := n - 1;
    }
    t := s[..n];
  }

  lemma {:induction false} CutPointIsBoundary(s: seq<Byte>, n: nat)
    requires n < |s| && ValidUtf8(s)
    ensures Boundary(s, CutPoint(s, n))
    ensures forall c :: CutPoint(s, n) < c <= n ==> !RuneStart(s[c])
  {
    if n == 0 {
      ValidStartsAtBoundary(s);
    } else if !RuneStart(s[n]) {
      CutPointIsBoundary(s, n - 1);
    }
  }

  /** Cutting valid text keeps its longest valid prefix within the limit. */
  lemma TruncatedIsLongestValidPrefix(s: seq<Byte>, n: int)
    requires ValidUtf8(s)
    ensures var t := Truncated(s, n);
            && ValidUtf8(t) && |t| <= (if n > 0 then n else 0)
            && (forall c :: |t| < c <= |s| && c <= n ==> !ValidUtf8(s[..c]))
  {
    if 0 < n < |s| {
      CutPointIsBoundary(s, n);
      CutAtBoundary(s, CutPoint(s, n));
      forall c | CutPoint(s, n) < c <= n ensures !ValidUtf8(s[..c]) {
        if ValidUtf8(s[..c]) {
          ValidPrefixEnds(s, c);
        }
      }
    }
  }

  lemma {:induction false} ValidPrefixEnds(s: seq<Byte>, c: nat)
    requires c < |s| && ValidUtf8(s) && ValidUtf8(s[..c])
    ensures RuneStart(s[c])
    decreases |s|
  {
    if c > 0 {
      var n := RuneLen(s[..c]);
      assert SeqLen(s[0]) == n;
      assert s[n..][..c - n] == s[..c][n..];
      ValidPrefixEnds(s[n..], c - n);
      assert s[n..][c - n] == s[c];
    }
  }

  // ----- the store -----

  datatype Row = Row(number: nat, start: nat, text: seq<Byte>)

  /** One session's audit: its rows, the cursors of its output_truncated events,
      and its two totals. */
  datatype Log = Log(rows: seq<Row>, cuts: seq<nat>, stored: nat, total: nat)

  const EMPTY := Log([], [], 0, 0)

  /** The part of a chunk that fits into `room` bytes. */
  function Fitting(text: seq<Byte>, room: int): seq<Byte> {
    if |text| > room then Truncated(text, room) else text
  }

  function Stored(rows: seq<Row>, start: nat, text: seq<Byte>): seq<Row> {
    if text == [] then rows else rows + [Row(|rows| + 1, start, text)]
  }

  function Append1(log: Log, c: Chunk, limit: int): Log {
    var counted := log.(total := log.total + |c.text|);
    if log.cuts != [] then counted
    else
      var room := limit - log.stored;
      var text := Fitting(c.text, room);
      counted.(rows := Stored(log.rows, c.start, text), stored := log.stored + |text|,
               cuts := if |c.text| > room then [c.start + |text|] else [])
  }

  function Append(log: Log, chunks: seq<Chunk>, limit: int): Log
    decreases |chunks|
  {
    if chunks == [] then log else Append(Append1(log, chunks[0], limit), chunks[1..], limit)
  }

  ghost predicate Numbered(rows: seq<Row>) {
    forall i :: 0 <= i < |rows| ==> rows[i].number == i + 1
  }

  /** One transaction: all of the batch, or nothing when the store refuses. */
  class AuditStore {
    var rows: seq<Row>
    var cuts: seq<nat>
    var storedBytes: nat
    var outputBytes: nat

    ghost predicate Valid()
      reads this
    {
      Numbered(rows)
    }

    ghost function View(): Log
      reads this
    {
      Log(rows, cuts, storedBytes, outputBytes)
    }

    constructor ()
      ensures Valid() && View() == EMPTY
    {
      rows, cuts, storedBytes, outputBytes := [], [], 0, 0;
    }

    /** `COALESCE(MAX(chunk_seq), 0) + 1`. */
    method NextNumber() returns (n: nat)
      requires Valid()
      ensures n == |rows| + 1
    {
      n := 1;
      for i := 0 to |rows|
        invariant n == i + 1
      {
        if rows[i].number >= n {
          n := rows[i].number + 1;
        }
      }
    }

    method AppendOutput(chunks: seq<Chunk>, limit: int, commits: bool) returns (ok: bool)
      requires Valid()
      modifies this
      ensures Valid() && (ok <==> commits || chunks == [])
      ensures View() == if commits then Append(old(View()), chunks, limit) else old(View())
    {
      if chunks == [] {
        return true;
      }
      if !commits {
        return false;
      }
      var next := NextNumber();
      var log := Log(rows, cuts, storedBytes, outputBytes);
      for i := 0 to |chunks|
        invariant Numbered(log.rows) && next == |log.rows| + 1
        invariant Append(log, chunks[i..], limit) == Append(old(View()), chunks, limit)
      {
        assert chunks[i..][0] == chunks[i] && chunks[i..][1..] == chunks[i + 1..];
        log, next := AppendChunk(log, next, chunks[i], limit);
      }
      rows, cuts, storedBytes, outputBytes := log.rows, log.cuts, log.stored, log.total;
      ok := true;
    }
  }

  method AppendChunk(log: Log, next: nat, c: Chunk, limit: int) returns (log': Log, next': nat)
    requires Numbered(log.rows) && next == |log.rows| + 1
    ensures Numbered(log'.rows) && next' == |log'.rows| + 1
    ensures log' == Append1(log, c, limit)
  {
    log', next' := log.(total := log.total + |c.text|), next;
    if log.cuts == [] {
      var text, over := Fit(c.text, limit - log.stored);
      if text != [] {
        log' := log'.(rows := log.rows + [Row(next, c.start, text)], stored := log.stored + |text|);
        next' := next + 1;
      }
      if over {
        log' := log'.(cuts := log.cuts + [c.start + |text|]);
      }
    }
  }

  method Fit(text: seq<Byte>, room: int) returns (kept: seq<Byte>, over: bool)
    ensures over <==> |text| > room
    ensures kept == Fitting(text, room)
  {
    kept, over := text, false;
    if |text| > room {
      kept := TruncateUtf8(text, if room > 0 then room else 0);
      over := true;
    }
  }

  /** How the text is split into batches does not matter. */
  lemma {:induction false} BatchingDoesNotMatter(log: Log, a: seq<Chunk>, b: seq<Chunk>, limit: int)
    ensures Append(log, a + b, limit) == Append(Append(log, a, limit), b, limit)
    decreases |a|
  {
    if a == [] {
      assert a + b == b;
    } else {
      assert (a + b)[1..] == a[1..] + b;
      BatchingDoesNotMatter(Append1(log, a[0], limit), a[1..], b, limit);
    }
  }

  function AppendAll(log: Log, batches: seq<seq<Chunk>>, limit: int): Log
    decreases |batches|
  {
    if batches == [] then log else AppendAll(Append(log, batches[0], limit), batches[1..], limit)
  }

  lemma {:induction false} BatchesAreOneBatch(log: Log, batches: seq<seq<Chunk>>, limit: int)
    ensures AppendAll(log, batches, limit) == Append(log, Flatten(batches), limit)
    decreases |batches|
  {
    if batches != [] {
      BatchingDoesNotMatter(log, batches[0], Flatten(batches[1..]), limit);
      BatchesAreOneBatch(Append(log, batches[0], limit), batches[1..], limit);
    }
  }

  // ----- a faithful prefix -----

  function RowTexts(rows: seq<Row>): seq<Byte> {
    if rows == [] then [] else RowTexts(rows[..|rows| - 1]) + rows[|rows| - 1].text
  }

  /** Row `i` has number `i + 1`, is not empty and holds whole runes. */
  ghost predicate RowAt(rows: seq<Row>, i: nat)
    requires i < |rows|
  {
    rows[i].number == i + 1 && rows[i].text != [] && ValidUtf8(rows[i].text)
  }

  ghost predicate Proper(rows: seq<Row>) {
    forall i :: 0 <= i < |rows| ==> RowAt(rows, i)
  }

  /** What the log holds of the offered text `whole`, wherever it came from;
      `offered` says that there was a chunk at all. */
  ghost predicate Content(log: Log, whole: seq<Byte>, limit: int, offered: bool) {
    && RowTexts(log.rows) == Truncated(whole, limit)
    && Proper(log.rows)
    && log.stored == |Truncated(whole, limit)|
    && log.total == |whole|
    && |log.cuts| == (if offered && |whole| > limit then 1 else 0)
    && (!offered ==> whole == [])
  }

  ghost predicate StartAt(rows: seq<Row>, i: nat)
    requires i < |rows|
  {
    rows[i].start == |RowTexts(rows[..i])|
  }

  /** Every row begins where the row before it ended, the first at cursor 0, and the
      cut is at the end of the last. */
  ghost predicate Gapless(log: Log) {
    && (forall i :: 0 <= i < |log.rows| ==> StartAt(log.rows, i))
    && (log.cuts != [] ==> log.cuts[0] == |RowTexts(log.rows)|)
  }

  ghost predicate Faithful(log: Log, whole: seq<Byte>, limit: int, offered: bool) {
    Content(log, whole, limit, offered) && Gapless(log)
  }

  lemma {:induction false} CutPointOfPrefix(s: seq<Byte>, t: seq<Byte>, n: nat)
    requires n < |s|
    ensures CutPoint(s + t, n) == CutPoint(s, n)
  {
    assert (s + t)[n] == s[n];
    if n > 0 && !RuneStart(s[n]) {
      CutPointOfPrefix(s, t, n - 1);
    }
  }

  lemma {:induction false} CutPointShift(s: seq<Byte>, t: seq<Byte>, n: nat)
    requires n < |t| && RuneStart(t[0])
    ensures CutPoint(s + t, |s| + n) == |s| + CutPoint(t, n)
  {
    assert (s + t)[|s| + n] == t[n];
    if n > 0 && !RuneStart(t[n]) {
      CutPointShift(s, t, n - 1);
    }
  }

  /** Text behind the limit does not change what is kept. */
  lemma TruncatedStays(s: seq<Byte>, t: seq<Byte>, limit: int)
    requires |s| > limit
    ensures Truncated(s + t, limit) == Truncated(s, limit)
  {
    if limit > 0 {
      CutPointOfPrefix(s, t, limit);
    }
  }

  lemma TruncatedShift(s: seq<Byte>, t: seq<Byte>, limit: int)
    requires |s| <= limit && ValidUtf8(t)
    ensures Truncated(s + t, limit) == s + Truncated(t, limit - |s|)
  {
    var room := limit - |s|;
    if |t| > room && limit > 0 {
      CutPointShift(s, t, room);
      TakeOfConcat(s, t, CutPoint(t, room));
    }
  }

  lemma TakeOfConcat(s: seq<Byte>, t: seq<Byte>, n: nat)
    requires n <= |t|
    ensures (s + t)[..|s| + n] == s + t[..n]
  {
  }

  lemma RowsSnoc(rows: seq<Row>, r: Row)
    requires Proper(rows) && r.number == |rows| + 1 && r.text != [] && ValidUtf8(r.text)
    ensures Proper(rows + [r]) && RowTexts(rows + [r]) == RowTexts(rows) + r.text
  {
    assert (rows + [r])[..|rows|] == rows;
    forall i | 0 <= i < |rows + [r]| ensures RowAt(rows + [r], i) {
      if i < |rows| {
        assert RowAt(rows, i);
      }
    }
  }

  lemma Append1Content(log: Log, c: Chunk, whole: seq<Byte>, limit: int, offered: bool)
    requires Content(log, whole, limit, offered) && ValidUtf8(c.text)
    ensures Content(Append1(log, c, limit), whole + c.text, limit, true)
  {
    if offered && |whole| > limit {
      TruncatedStays(whole, c.text, limit);
    } else if |whole| <= limit {
      ContentWithinLimit(log, c, whole, limit, offered);
    } else {
      NothingFits(log, c, limit);
      assert whole == [] && whole + c.text == c.text;
    }
  }

  lemma ContentWithinLimit(log: Log, c: Chunk, whole: seq<Byte>, limit: int, offered: bool)
    requires Content(log, whole, limit, offered) && |whole| <= limit && ValidUtf8(c.text)
    ensures Content(Append1(log, c, limit), whole + c.text, limit, true)
  {
    NotCutYet(log, whole, limit, offered);
    KeptRows(log, c, whole, limit);
    KeptCounts(log, c, whole, limit);
    TruncatedShift(whole, c.text, limit);
    MakeContent(Append1(log, c, limit), whole + c.text, limit, whole + Truncated(c.text, limit - |whole|));
  }

  lemma KeptRows(log: Log, c: Chunk, whole: seq<Byte>, limit: int)
    requires log.cuts == [] && log.stored == |whole| <= limit
    requires RowTexts(log.rows) == whole && Proper(log.rows) && ValidUtf8(c.text)
    ensures Proper(Append1(log, c, limit).rows)
    ensures RowTexts(Append1(log, c, limit).rows) == whole + Truncated(c.text, limit - |whole|)
  {
    StoredKept(log.rows, c.start, c.text, limit - |whole|);
  }

  lemma KeptCounts(log: Log, c: Chunk, whole: seq<Byte>, limit: int)
    requires log.cuts == [] && log.stored == |whole| == log.total && |whole| <= limit && ValidUtf8(c.text)
    ensures var l, kept := Append1(log, c, limit), whole + Truncated(c.text, limit - |whole|);
            && l.stored == |kept| && l.total == |whole + c.text|
            && |l.cuts| == (if |whole + c.text| > limit then 1 else 0)
  {
    FittingIsTruncated(c.text, limit - |whole|);
  }

  lemma MakeContent(l: Log, whole: seq<Byte>, limit: int, kept: seq<Byte>)
    requires kept == Truncated(whole, limit) && RowTexts(l.rows) == kept && Proper(l.rows)
    requires l.stored == |kept| && l.total == |whole|
    requires |l.cuts| == if |whole| > limit then 1 else 0
    ensures Content(l, whole, limit, true)
  {
  }

  lemma NotCutYet(log: Log, whole: seq<Byte>, limit: int, offered: bool)
    requires Content(log, whole, limit, offered) && |whole| <= limit
    ensures RowTexts(log.rows) == whole && Proper(log.rows)
    ensures log.cuts == [] && log.stored == |whole| == log.total
  {
  }

  /** The first chunk, when the limit is negative. */
  lemma NothingFits(log: Log, c: Chunk, limit: int)
    requires log.cuts == [] && log.stored == 0 > limit
    ensures Append1(log, c, limit) == log.(total := log.total + |c.text|, cuts := [c.start])
  {
  }

  /** What is stored of a chunk offered before the limit was exceeded. */
  lemma StoredKept(rows: seq<Row>, start: nat, s: seq<Byte>, room: nat)
    requires Proper(rows) && ValidUtf8(s)
    ensures Fitting(s, room) == Truncated(s, room)
    ensures Proper(Stored(rows, start, Fitting(s, room)))
    ensures RowTexts(Stored(rows, start, Fitting(s, room))) == RowTexts(rows) + Truncated(s, room)
  {
    FittingIsTruncated(s, room);
    RowKept(rows, start, Fitting(s, room));
  }

  lemma FittingIsTruncated(s: seq<Byte>, room: nat)
    requires ValidUtf8(s)
    ensures Fitting(s, room) == Truncated(s, room) && ValidUtf8(Fitting(s, room))
  {
    TruncatedIsLongestValidPrefix(s, room);
  }

  lemma RowKept(rows: seq<Row>, start: nat, text: seq<Byte>)
    requires Proper(rows) && ValidUtf8(text)
    ensures Proper(Stored(rows, start, text)) && RowTexts(Stored(rows, start, text)) == RowTexts(rows) + text
  {
    if text == [] {
      assert RowTexts(rows) + text == RowTexts(rows);
    } else {
      RowsSnoc(rows, Row(|rows| + 1, start, text));
    }
  }

  lemma UncutIsWhole(log: Log, whole: seq<Byte>, limit: int, offered: bool)
    requires Content(log, whole, limit, offered) && log.cuts == []
    ensures RowTexts(log.rows) == whole
  {
  }

  /** A chunk that follows the offered text leaves no gap. */
  lemma Append1Gapless(log: Log, c: Chunk, limit: int)
    requires Gapless(log) && (log.cuts == [] ==> |RowTexts(log.rows)| == c.start)
    ensures Gapless(Append1(log, c, limit))
  {
    if log.cuts == [] {
      StoredGapless(log.rows, c.start, Fitting(c.text, limit - log.stored));
    }
  }

  lemma StoredGapless(rows: seq<Row>, start: nat, text: seq<Byte>)
    requires forall i :: 0 <= i < |rows| ==> StartAt(rows, i)
    requires start == |RowTexts(rows)|
    ensures var r := Stored(rows, start, text);
            && (forall i :: 0 <= i < |r| ==> StartAt(r, i))
            && |RowTexts(r)| == start + |text|
  {
    var r := Stored(rows, start, text);
    assert r[..|rows|] == rows;
    forall i | 0 <= i < |r| ensures StartAt(r, i) {
      if i < |rows| {
        assert StartAt(rows, i);
        assert r[..i] == rows[..i];
      }
    }
  }

  /** The chunks follow one another from cursor `from` on and hold whole runes. */
  ghost predicate Contiguous(chunks: seq<Chunk>, from: nat) {
    chunks == [] ||
    (chunks[0].start == from && ValidUtf8(chunks[0].text) && Contiguous(chunks[1..], from + |chunks[0].text|))
  }

  /** The chunks are parts of `whole` at their cursors, in order and from `from` on, and
      hold whole runes. */
  ghost predicate Placed(chunks: seq<Chunk>, whole: seq<Byte>, from: nat) {
    chunks == []
    || (PlacedOne(chunks[0], whole, from) && Placed(chunks[1..], whole, chunks[0].start + |chunks[0].text|))
  }

  ghost predicate PlacedOne(c: Chunk, whole: seq<Byte>, from: nat) {
    && from <= c.start && c.start + |c.text| <= |whole| && whole[c.start..c.start + |c.text|] == c.text
    && ValidUtf8(c.text)
  }

  /** Each row is the slice of `whole` at its own cursor, behind the row before it,
      and rows and cut end by `upto`. */
  ghost predicate InPlace(log: Log, whole: seq<Byte>, upto: nat) {
    && (forall i :: 0 <= i < |log.rows| ==> SliceAt(log.rows[i], whole) && RowEnd(log.rows[i]) <= upto)
    && (forall i, j :: 0 <= i < j < |log.rows| ==> RowEnd(log.rows[i]) <= log.rows[j].start)
    && (forall k :: 0 <= k < |log.cuts| ==> log.cuts[k] <= upto)
    && (forall i, k :: 0 <= i < |log.rows| && 0 <= k < |log.cuts| ==> RowEnd(log.rows[i]) <= log.cuts[k])
  }

  function RowEnd(r: Row): nat {
    r.start + |r.text|
  }

  predicate SliceAt(r: Row, whole: seq<Byte>) {
    RowEnd(r) <= |whole| && whole[r.start..RowEnd(r)] == r.text
  }

  lemma FittingIsPrefix(text: seq<Byte>, room: int)
    ensures Fitting(text, room) <= text
  {
  }

  lemma PrefixSlice(whole: seq<Byte>, start: nat, text: seq<Byte>, part: seq<Byte>, n: nat)
    requires start + |text| <= |whole| && whole[start..start + |text|] == text && part <= text
    ensures SliceAt(Row(n, start, part), whole)
  {
    assert text[..|part|] == part;
  }

  lemma OneMoreInPlace(log: Log, log': Log, whole: seq<Byte>, upto: nat, r: Row)
    requires InPlace(log, whole, upto) && log.cuts == [] && log'.cuts == []
    requires log'.rows == log.rows + [r] && SliceAt(r, whole) && upto <= r.start
    ensures InPlace(log', whole, RowEnd(r))
  {
  }

  lemma CutInPlace(log: Log, log': Log, whole: seq<Byte>, upto: nat, later: nat)
    requires InPlace(log, whole, upto) && upto <= later && log'.rows == log.rows
    requires log'.cuts == log.cuts || (upto <= later && |log'.cuts| == 1 && upto <= log'.cuts[0] <= later)
    ensures InPlace(log', whole, later)
  {
  }

  lemma Append1InPlace(log: Log, c: Chunk, whole: seq<Byte>, limit: int, upto: nat)
    requires InPlace(log, whole, upto) && upto <= c.start
    requires c.start + |c.text| <= |whole| && whole[c.start..c.start + |c.text|] == c.text
    ensures InPlace(Append1(log, c, limit), whole, c.start + |c.text|)
  {
    var part := Fitting(c.text, limit - log.stored);
    FittingIsPrefix(c.text, limit - log.stored);
    if log.cuts == [] && part != [] {
      var r := Row(|log.rows| + 1, c.start, part);
      PrefixSlice(whole, c.start, c.text, part, r.number);
      var kept := log.(rows := log.rows + [r]);
      OneMoreInPlace(log, kept, whole, upto, r);
      CutInPlace(kept, Append1(log, c, limit), whole, RowEnd(r), c.start + |c.text|);
    } else {
      CutInPlace(log, Append1(log, c, limit), whole, upto, c.start + |c.text|);
    }
  }

  lemma {:induction false} AppendInPlace(log: Log, chunks: seq<Chunk>, whole: seq<Byte>, limit: int, upto: nat)
    requires InPlace(log, whole, upto) && upto <= |whole| && Placed(chunks, whole, upto)
    ensures InPlace(Append(log, chunks, limit), whole, |whole|)
    decreases |chunks|
  {
    if chunks != [] {
      Append1InPlace(log, chunks[0], whole, limit, upto);
      AppendInPlace(Append1(log, chunks[0], limit), chunks[1..], whole, limit, chunks[0].start + |chunks[0].text|);
    }
  }

  lemma {:induction false} AppendContent(log: Log, chunks: seq<Chunk>, whole: seq<Byte>, limit: int, offered: bool)
    requires Content(log, whole, limit, offered)
    requires forall i :: 0 <= i < |chunks| ==> ValidUtf8(chunks[i].text)
    ensures Content(Append(log, chunks, limit), whole + Texts(chunks), limit, offered || chunks != [])
    decreases |chunks|
  {
    if chunks == [] {
      assert whole + [] == whole;
    } else {
      var c := chunks[0];
      Append1Content(log, c, whole, limit, offered);
      AppendContent(Append1(log, c, limit), chunks[1..], whole + c.text, limit, true);
      Assoc(whole, c.text, Texts(chunks[1..]));
    }
  }

  lemma {:induction false} AppendFaithful(log: Log, chunks: seq<Chunk>, whole: seq<Byte>, limit: int, offered: bool)
    requires Faithful(log, whole, limit, offered) && Contiguous(chunks, |whole|)
    ensures Faithful(Append(log, chunks, limit), whole + Texts(chunks), limit, offered || chunks != [])
    decreases |chunks|
  {
    if chunks == [] {
      assert whole + [] == whole;
    } else {
      var c := chunks[0];
      Append1Content(log, c, whole, limit, offered);
      if log.cuts == [] {
        UncutIsWhole(log, whole, limit, offered);
      }
      Append1Gapless(log, c, limit);
      AppendFaithful(Append1(log, c, limit), chunks[1..], whole + c.text, limit, true);
      Assoc(whole, c.text, Texts(chunks[1..]));
    }
  }

  /** Whatever the batches: for contiguous whole-rune chunks the stored rows are the
      text cut at the limit, contiguous from cursor 0, numbered from 1, each of
      whole runes; all text is counted, and one output_truncated event tells the
      cursor where storing stopped exactly when the text exceeds the limit. */
  lemma RowsAreAFaithfulPrefix(batches: seq<seq<Chunk>>, limit: int)
    requires Contiguous(Flatten(batches), 0)
    ensures Faithful(AppendAll(EMPTY, batches, limit), Texts(Flatten(batches)), limit, Flatten(batches) != [])
    ensures |RowTexts(AppendAll(EMPTY, batches, limit).rows)| <= (if limit > 0 then limit else 0)
  {
    BatchesAreOneBatch(EMPTY, batches, limit);
    AppendFaithful(EMPTY, Flatten(batches), [], limit, false);
    assert [] + Texts(Flatten(batches)) == Texts(Flatten(batches));
  }

  // ----- writer and store together -----

  /** Adding behind the last cursor keeps the pending chunks contiguous. */
  lemma {:induction false} AddedContiguous(pending: seq<Chunk>, from: nat, p: seq<Byte>)
    requires Contiguous(pending, from) && ValidUtf8(p)
    ensures Contiguous(Added(pending, from + |Texts(pending)|, p), from)
    decreases |pending|
  {
    var start := from + |Texts(pending)|;
    if pending == [] {
      LoneChunk(Chunk(start, p));
    } else if |pending| == 1 {
      AddedToOne(pending[0], p);
      assert pending == [pending[0]];
      SingleChunk(pending[0]);
    } else {
      AddedContiguous(pending[1..], from + |pending[0].text|, p);
      AddedToTail(pending, start, p);
    }
  }

  lemma LoneChunk(c: Chunk)
    requires ValidUtf8(c.text)
    ensures Contiguous([c], c.start)
  {
    assert Contiguous([c][1..], c.start + |c.text|);
  }

  lemma AddedToOne(c: Chunk, p: seq<Byte>)
    requires ValidUtf8(c.text) && ValidUtf8(p)
    ensures Contiguous(Added([c], c.start + |c.text|, p), c.start)
  {
    var start := c.start + |c.text|;
    if Merges([c], start) {
      ValidAppend(c.text, p);
      LoneChunk(Chunk(c.start, c.text + p));
      assert Added([c], start, p) == [Chunk(c.start, c.text + p)];
    } else {
      LoneChunk(Chunk(start, p));
      assert ([c] + [Chunk(start, p)])[1..] == [Chunk(start, p)];
    }
  }

  lemma AddedToTail(pending: seq<Chunk>, start: nat, p: seq<Byte>)
    requires |pending| > 1
    ensures Added(pending, start, p) == [pending[0]] + Added(pending[1..], start, p)
    ensures Added(pending, start, p)[1..] == Added(pending[1..], start, p)
  {
    var rest := pending[1..];
    assert rest[|rest| - 1] == pending[|pending| - 1];
    assert Added(pending, start, p) == [pending[0]] + Added(rest, start, p);
  }

  lemma {:induction false} ContiguousAppend(a: seq<Chunk>, b: seq<Chunk>, from: nat)
    ensures Contiguous(a + b, from) <==> Contiguous(a, from) && Contiguous(b, from + |Texts(a)|)
    decreases |a|
  {
    if a == [] {
      assert a + b == b;
    } else {
      assert (a + b)[1..] == a[1..] + b && (a + b)[0] == a[0];
      ContiguousAppend(a[1..], b, from + |a[0].text|);
    }
  }

  /** What the text ring and the loop do with the writer: text arrives at the ring's
      end, and now and then the loop flushes; `took` says whether the store committed
      the batch. */
  datatype Op = Arrive(p: seq<Byte>) | FlushNow(took: bool)

  datatype State = State(pending: seq<Chunk>, batches: seq<seq<Chunk>>, took: seq<bool>, end: nat)

  function Apply(s: State, op: Op): State {
    match op
    case Arrive(p) => s.(pending := Added(s.pending, s.end, p), end := s.end + |p|)
    case FlushNow(took) =>
      if s.pending == [] then s
      else s.(pending := [], batches := s.batches + [s.pending], took := s.took + [took])
  }

  function Run(s: State, ops: seq<Op>): State
    decreases |ops|
  {
    if ops == [] then s else Run(Apply(s, ops[0]), ops[1..])
  }

  function Arrived(ops: seq<Op>): seq<Byte> {
    if ops == [] then [] else (if ops[0].Arrive? then ops[0].p else []) + Arrived(ops[1..])
  }

  function Chunks(s: State): seq<Chunk> {
    Flatten(s.batches) + s.pending
  }

  ghost predicate InOrder(s: State, whole: seq<Byte>) {
    Contiguous(Chunks(s), 0) && Texts(Chunks(s)) == whole && s.end == |whole| && |s.took| == |s.batches|
  }

  lemma ArriveContiguous(done: seq<Chunk>, pending: seq<Chunk>, p: seq<Byte>)
    requires Contiguous(done + pending, 0) && ValidUtf8(p)
    ensures Contiguous(done + Added(pending, |Texts(done)| + |Texts(pending)|, p), 0)
  {
    var from := |Texts(done)|;
    ContiguousAppend(done, pending, 0);
    AddedContiguous(pending, from, p);
    ContiguousAppend(done, Added(pending, from + |Texts(pending)|, p), 0);
  }

  lemma ArriveTexts(done: seq<Chunk>, pending: seq<Chunk>, start: nat, p: seq<Byte>)
    ensures Texts(done + Added(pending, start, p)) == Texts(done + pending) + p
  {
    TextsAppend(done, pending);
    AddedCells(pending, start, p);
    TextsAppend(done, Added(pending, start, p));
    Assoc(Texts(done), Texts(pending), p);
  }

  lemma ApplyInOrder(s: State, op: Op, whole: seq<Byte>)
    requires InOrder(s, whole) && (op.Arrive? ==> ValidUtf8(op.p))
    ensures InOrder(Apply(s, op), whole + (if op.Arrive? then op.p else []))
  {
    match op {
      case Arrive(p) =>
        TextsAppend(Flatten(s.batches), s.pending);
        ArriveContiguous(Flatten(s.batches), s.pending, p);
        ArriveTexts(Flatten(s.batches), s.pending, s.end, p);
      case FlushNow(_) =>
        FlattenSnoc(s.batches, s.pending);
        assert Chunks(Apply(s, op)) == Chunks(s);
        assert whole + [] == whole;
    }
  }

  lemma {:induction false} RunInOrder(s: State, ops: seq<Op>, whole: seq<Byte>)
    requires InOrder(s, whole)
    requires forall i :: 0 <= i < |ops| && ops[i].Arrive? ==> ValidUtf8(ops[i].p)
    ensures InOrder(Run(s, ops), whole + Arrived(ops))
    decreases |ops|
  {
    if ops == [] {
      assert whole + [] == whole;
    } else {
      var p := if ops[0].Arrive? then ops[0].p else [];
      ApplyInOrder(s, ops[0], whole);
      RunInOrder(Apply(s, ops[0]), ops[1..], whole + p);
      Assoc(whole, p, Arrived(ops[1..]));
    }
  }

  /** The batches that the store committed. */
  function Committed(batches: seq<seq<Chunk>>, took: seq<bool>): seq<seq<Chunk>>
    requires |took| == |batches|
  {
    if batches == [] then []
    else (if took[0] then [batches[0]] else []) + Committed(batches[1..], took[1..])
  }

  function EndOf(chunks: seq<Chunk>, from: nat): nat {
    if chunks == [] then from else EndOf(chunks[1..], chunks[0].start + |chunks[0].text|)
  }

  lemma {:induction false} PlacedAppend(a: seq<Chunk>, b: seq<Chunk>, whole: seq<Byte>, from: nat)
    ensures Placed(a + b, whole, from) <==> Placed(a, whole, from) && Placed(b, whole, EndOf(a, from))
    ensures Placed(a, whole, from) ==> from <= EndOf(a, from)
    decreases |a|
  {
    if a == [] {
      assert a + b == b;
    } else {
      ConcatTail(a, b);
      PlacedAppend(a[1..], b, whole, a[0].start + |a[0].text|);
    }
  }

  lemma PlacedLater(chunks: seq<Chunk>, whole: seq<Byte>, from: nat, later: nat)
    requires Placed(chunks, whole, later) && from <= later
    ensures Placed(chunks, whole, from)
  {
  }

  lemma SplitSlice(whole: seq<Byte>, from: nat, a: seq<Byte>, b: seq<Byte>)
    requires from + |a| + |b| <= |whole| && whole[from..from + |a| + |b|] == a + b
    ensures whole[from..from + |a|] == a && whole[from + |a|..from + |a| + |b|] == b
  {
    assert whole[from..from + |a|] == (a + b)[..|a|];
    assert whole[from + |a|..from + |a| + |b|] == (a + b)[|a|..];
  }

  lemma {:induction false} ContiguousIsPlaced(chunks: seq<Chunk>, whole: seq<Byte>, from: nat)
    requires Contiguous(chunks, from) && from + |Texts(chunks)| <= |whole|
    requires whole[from..from + |Texts(chunks)|] == Texts(chunks)
    ensures Placed(chunks, whole, from)
    decreases |chunks|
  {
    if chunks != [] {
      SplitSlice(whole, from, chunks[0].text, Texts(chunks[1..]));
      ContiguousIsPlaced(chunks[1..], whole, from + |chunks[0].text|);
    }
  }

  /** What the store refuses leaves the rest where it was. */
  lemma {:induction false} CommittedPlaced(batches: seq<seq<Chunk>>, took: seq<bool>, whole: seq<Byte>, from: nat)
    requires |took| == |batches| && Placed(Flatten(batches), whole, from)
    ensures Placed(Flatten(Committed(batches, took)), whole, from)
    decreases |batches|
  {
    if batches != [] {
      var rest, kept := Flatten(batches[1..]), Committed(batches[1..], took[1..]);
      var mid := EndOf(batches[0], from);
      PlacedAppend(batches[0], rest, whole, from);
      CommittedPlaced(batches[1..], took[1..], whole, mid);
      if took[0] {
        PlacedAppend(batches[0], Flatten(kept), whole, from);
        assert ([batches[0]] + kept)[1..] == kept;
      } else {
        PlacedLater(Flatten(kept), whole, from, mid);
        assert [] + kept == kept;
      }
    }
  }

  lemma {:induction false} PlacedIsValid(chunks: seq<Chunk>, whole: seq<Byte>, from: nat)
    requires Placed(chunks, whole, from)
    ensures forall i :: 0 <= i < |chunks| ==> ValidUtf8(chunks[i].text)
    decreases |chunks|
  {
    if chunks != [] {
      PlacedIsValid(chunks[1..], whole, chunks[0].start + |chunks[0].text|);
      forall i | 0 <= i < |chunks| ensures ValidUtf8(chunks[i].text) {
        assert i > 0 ==> chunks[i] == chunks[1..][i - 1];
      }
    }
  }

  /** Every batch that the store refused was without text. */
  ghost predicate NothingLost(batches: seq<seq<Chunk>>, took: seq<bool>)
    requires |took| == |batches|
  {
    forall i :: 0 <= i < |took| && !took[i] ==> Texts(batches[i]) == []
  }

  lemma NothingLostFirst(batches: seq<seq<Chunk>>, took: seq<bool>)
    requires |took| == |batches| && batches != []
    ensures NothingLost(batches, took) <==>
              (took[0] || Texts(batches[0]) == []) && NothingLost(batches[1..], took[1..])
  {
    if NothingLost(batches, took) {
      forall i | 0 <= i < |took[1..]| && !took[1..][i] ensures Texts(batches[1..][i]) == [] {
        assert !took[i + 1] && batches[1..][i] == batches[i + 1];
      }
    }
    if (took[0] || Texts(batches[0]) == []) && NothingLost(batches[1..], took[1..]) {
      forall i | 0 <= i < |took| && !took[i] ensures Texts(batches[i]) == [] {
        assert i > 0 ==> !took[1..][i - 1] && batches[i] == batches[1..][i - 1];
      }
    }
  }

  lemma CommittedFirst(batches: seq<seq<Chunk>>, took: seq<bool>)
    requires |took| == |batches| && batches != []
    ensures var rest := Flatten(Committed(batches[1..], took[1..]));
            Flatten(Committed(batches, took)) == if took[0] then batches[0] + rest else rest
  {
    var kept := Committed(batches[1..], took[1..]);
    if took[0] {
      assert ([batches[0]] + kept)[1..] == kept;
    } else {
      assert [] + kept == kept;
    }
  }

  /** The committed text is as long as all the text exactly when nothing was lost. */
  lemma {:induction false} LostTextIsMissing(batches: seq<seq<Chunk>>, took: seq<bool>)
    requires |took| == |batches|
    ensures var kept, all := |Texts(Flatten(Committed(batches, took)))|, |Texts(Flatten(batches))|;
            kept <= all && (kept == all <==> NothingLost(batches, took))
    decreases |batches|
  {
    if batches != [] {
      LostTextIsMissing(batches[1..], took[1..]);
      NothingLostFirst(batches, took);
      CommittedFirst(batches, took);
      TextsAppend(batches[0], Flatten(batches[1..]));
      TextsAppend(batches[0], Flatten(Committed(batches[1..], took[1..])));
    }
  }

  /** Refused batches without text leave no gap. */
  lemma {:induction false} CommittedContiguous(batches: seq<seq<Chunk>>, took: seq<bool>, from: nat)
    requires |took| == |batches| && Contiguous(Flatten(batches), from) && NothingLost(batches, took)
    ensures Contiguous(Flatten(Committed(batches, took)), from)
    ensures Texts(Flatten(Committed(batches, took))) == Texts(Flatten(batches))
    decreases |batches|
  {
    if batches != [] {
      var first, all, kept := batches[0], Flatten(batches[1..]), Flatten(Committed(batches[1..], took[1..]));
      NothingLostFirst(batches, took);
      CommittedFirst(batches, took);
      ContiguousAppend(first, all, from);
      CommittedContiguous(batches[1..], took[1..], from + |Texts(first)|);
      if took[0] {
        SameBehind(first, all, kept, from);
      } else {
        NothingBefore(first, all, from);
      }
    }
  }

  lemma SameBehind(first: seq<Chunk>, all: seq<Chunk>, kept: seq<Chunk>, from: nat)
    requires Contiguous(first, from) && Contiguous(kept, from + |Texts(first)|) && Texts(kept) == Texts(all)
    ensures Contiguous(first + kept, from) && Texts(first + kept) == Texts(first + all)
  {
    ContiguousAppend(first, kept, from);
    TextsAppend(first, all);
    TextsAppend(first, kept);
  }

  lemma NothingBefore(first: seq<Chunk>, all: seq<Chunk>, from: nat)
    requires Texts(first) == []
    ensures Texts(first + all) == Texts(all)
  {
    TextsAppend(first, all);
  }

  lemma LastFlush(ops: seq<Op>, last: bool) returns (s: State)
    requires forall i :: 0 <= i < |ops| && ops[i].Arrive? ==> ValidUtf8(ops[i].p)
    ensures s == Apply(Run(State([], [], [], 0), ops), FlushNow(last))
    ensures s.pending == [] && |s.took| == |s.batches|
    ensures Contiguous(Flatten(s.batches), 0) && Texts(Flatten(s.batches)) == Arrived(ops)
  {
    var s0 := State([], [], [], 0);
    assert Chunks(s0) == [];
    RunInOrder(s0, ops, []);
    assert [] + Arrived(ops) == Arrived(ops);
    s := Apply(Run(s0, ops), FlushNow(last));
    ApplyInOrder(Run(s0, ops), FlushNow(last), Arrived(ops));
    assert Arrived(ops) + [] == Arrived(ops);
    assert Chunks(s) == Flatten(s.batches);
  }

  /** From the text ring to the stored rows, however the text arrives, whenever the loop
      flushes and whichever batches the store commits: after the last flush the rows
      spell the committed text cut at the limit, in whole runes, numbered from 1; each
      row is the slice of all the text at its own cursor; all committed text is counted,
      and there is one output_truncated event exactly when it exceeds the limit. The log
      accounts for all the text, and then without a gap, exactly when every batch that
      the store refused was without text. */
  lemma AuditHoldsTheText(ops: seq<Op>, limit: int, last: bool)
    requires forall i :: 0 <= i < |ops| && ops[i].Arrive? ==> ValidUtf8(ops[i].p)
    ensures var s := Apply(Run(State([], [], [], 0), ops), FlushNow(last));
            && s.pending == [] && |s.took| == |s.batches|
            && var kept := Committed(s.batches, s.took);
               var log := AppendAll(EMPTY, kept, limit);
               && Content(log, Texts(Flatten(kept)), limit, Flatten(kept) != [])
               && InPlace(log, Arrived(ops), |Arrived(ops)|)
               && (Content(log, Arrived(ops), limit, Flatten(kept) != []) <==> NothingLost(s.batches, s.took))
               && (Faithful(log, Arrived(ops), limit, Flatten(kept) != []) <==> NothingLost(s.batches, s.took))
  {
    var s := LastFlush(ops, last);
    CommittedLog(s.batches, s.took, Arrived(ops), limit);
    CompleteExactlyWhen(s.batches, s.took, Arrived(ops), limit);
  }

  lemma CompleteExactlyWhen(batches: seq<seq<Chunk>>, took: seq<bool>, whole: seq<Byte>, limit: int)
    requires |took| == |batches| && Contiguous(Flatten(batches), 0) && Texts(Flatten(batches)) == whole
    requires var kept := Committed(batches, took);
             Content(AppendAll(EMPTY, kept, limit), Texts(Flatten(kept)), limit, Flatten(kept) != [])
    ensures var kept := Committed(batches, took);
            var log, offered := AppendAll(EMPTY, kept, limit), Flatten(kept) != [];
            && (Content(log, whole, limit, offered) <==> NothingLost(batches, took))
            && (Faithful(log, whole, limit, offered) <==> NothingLost(batches, took))
  {
    LostTextIsMissing(batches, took);
    if NothingLost(batches, took) {
      CommittedContiguous(batches, took, 0);
      RowsAreAFaithfulPrefix(Committed(batches, took), limit);
    } else {
      TotalDiffers(AppendAll(EMPTY, Committed(batches, took), limit), Texts(Flatten(Committed(batches, took))), whole,
                   limit, Flatten(Committed(batches, took)) != []);
    }
  }

  lemma TotalDiffers(log: Log, kept: seq<Byte>, whole: seq<Byte>, limit: int, offered: bool)
    requires Content(log, kept, limit, offered) && |kept| != |whole|
    ensures !Content(log, whole, limit, offered)
  {
  }

  lemma CommittedLog(batches: seq<seq<Chunk>>, took: seq<bool>, whole: seq<Byte>, limit: int)
    requires |took| == |batches| && Contiguous(Flatten(batches), 0) && Texts(Flatten(batches)) == whole
    ensures var kept := Committed(batches, took);
            var log := AppendAll(EMPTY, kept, limit);
            Content(log, Texts(Flatten(kept)), limit, Flatten(kept) != []) && InPlace(log, whole, |whole|)
  {
    var kept := Flatten(Committed(batches, took));
    ContiguousIsPlaced(Flatten(batches), whole, 0);
    CommittedPlaced(batches, took, whole, 0);
    PlacedIsValid(kept, whole, 0);
    BatchesAreOneBatch(EMPTY, Committed(batches, took), limit);
    LogOfPlaced(kept, whole, limit);
  }

  lemma LogOfPlaced(kept: seq<Chunk>, whole: seq<Byte>, limit: int)
    requires Placed(kept, whole, 0) && forall i :: 0 <= i < |kept| ==> ValidUtf8(kept[i].text)
    ensures Content(Append(EMPTY, kept, limit), Texts(kept), limit, kept != [])
    ensures InPlace(Append(EMPTY, kept, limit), whole, |whole|)
  {
    AppendContent(EMPTY, kept, [], limit, false);
    assert [] + Texts(kept) == Texts(kept);
    AppendInPlace(EMPTY, kept, whole, limit, 0);
  }

  /** The gap is real: the first batch is refused, and the first stored row begins at
      cursor 1. */
  lemma RefusedBatchLeavesAGap(limit: int) returns (ops: seq<Op>)
    requires limit >= 1
    ensures ops == [Arrive([97]), FlushNow(false), Arrive([98])]
    ensures var s := Apply(Run(State([], [], [], 0), ops), FlushNow(true));
            && |s.took| == |s.batches|
            && var log := AppendAll(EMPTY, Committed(s.batches, s.took), limit);
               log.rows == [Row(1, 1, [98])] && !Gapless(log)
  {
    ops := [Arrive([97]), FlushNow(false), Arrive([98])];
    var a, b := Chunk(0, [97]), Chunk(1, [98]);
    var s1, s2 := State([a], [], [], 1), State([], [[a]], [false], 1);
    assert Apply(State([], [], [], 0), ops[0]) == s1;
    assert Apply(s1, ops[1]) == s2;
    assert Run(s2, ops[2..]) == State([b], [[a]], [false], 2) by {
      assert ops[2..][1..] == [];
    }
    assert ops[1..][1..] == ops[2..];
    assert Apply(State([b], [[a]], [false], 2), FlushNow(true)) == State([], [[a], [b]], [false, true], 2);
    OneOfTwoCommitted([a], [b]);
    OneRow(b, limit);
  }

  lemma OneOfTwoCommitted(a: seq<Chunk>, b: seq<Chunk>)
    ensures Committed([a, b], [false, true]) == [b]
  {
    assert Committed([b], [true]) == [b] + Committed([b][1..], [true][1..]) == [b];
    assert [a, b][1..] == [b] && [false, true][1..] == [true];
    assert Committed([a, b], [false, true]) == [] + Committed([b], [true]);
  }

  lemma OneRow(c: Chunk, limit: int)
    requires 1 <= |c.text| <= limit && c.start > 0
    ensures var log := AppendAll(EMPTY, [[c]], limit); log.rows == [Row(1, c.start, c.text)] && !Gapless(log)
  {
    BatchesAreOneBatch(EMPTY, [[c]], limit);
    assert Flatten([[c]]) == [c];
    assert [c][1..] == [];
    assert Append(EMPTY, [c], limit) == Append1(EMPTY, c, limit);
    var log := Append1(EMPTY, c, limit);
    assert log.rows[..0] == [];
    assert !StartAt(log.rows, 0);
  }
}
