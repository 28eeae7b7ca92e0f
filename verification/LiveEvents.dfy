/**
 The live view of a session's raw output (`outputBuffer`, terminal.go;
 `aiOutput.Write`, `aiOutput.Close`, `aiOutput.ReadRaw` and the emitter of
 `newAIOutput`, ai_session.go).

 A writer appends, one goroutine drains in chunks; when too much is pending the
 oldest bytes are dropped and only counted. Each section under the buffer's lock
 is one operation; taking a chunk and emitting it is one operation too, because
 only the draining goroutine emits and counts.
 */
module LiveEvents {
  import opened Bytes
  import opened LineTypes
  import opened Ring

  const FLUSH_BYTES := 0x8000
  const PENDING_CAP := 0x40_0000
  const RAW_MAX := 0x4_0000

  /** An event that the viewer gets: `cursor` is the raw cursor after the chunk. */
  datatype Event = Event(data: seq<Byte>, cursor: nat, dropped: nat)

  /** `accepted` is everything written before the close; the buffer itself holds
      only `buf`, `dropped` and `closed`, the emitter counts `emitted`. */
  datatype Buffer = Buffer(buf: seq<Byte>, dropped: nat, closed: bool, emitted: nat, events: seq<Event>, accepted: seq<Byte>)

  const EMPTY := Buffer([], 0, false, 0, [], [])

  function Suffix(s: seq<Byte>, n: nat): seq<Byte> {
    if |s| <= n then s else s[|s| - n..]
  }

  /** `outputBuffer.Write`: the newest bytes stay, what does not fit is counted. */
  function Written(b: Buffer, p: seq<Byte>): Buffer {
    if b.closed then b
    else
      var kept := Suffix(b.buf + p, PENDING_CAP);
      b.(buf := kept, dropped := b.dropped + (|b.buf| + |p| - |kept|), accepted := b.accepted + p)
  }

  /** At most 4 MiB wait: of what waited and what comes the newest bytes, and exactly
      the others are counted as dropped. */
  lemma WriteMeans(b: Buffer, p: seq<Byte>)
    ensures var b', all := Written(b, p), b.buf + p;
            if b.closed then b' == b
            else
              && |b'.buf| == Min(0x40_0000, |b.buf| + |p|) && b'.buf == all[|all| - |b'.buf|..]
              && b'.dropped - b.dropped == |b.buf| + |p| - |b'.buf|
              && b' == b.(buf := b'.buf, dropped := b'.dropped, accepted := b.accepted + p)
  {
  }

  /** One turn of `drain`, with the emitter of `newAIOutput`. */
  function Drained1(b: Buffer): Buffer {
    if b.buf == [] && b.dropped == 0 then b
    else
      var size := Min(|b.buf|, FLUSH_BYTES);
      var emitted := b.emitted + b.dropped + size;
      b.(buf := b.buf[size..], dropped := 0, emitted := emitted,
         events := b.events + [Event(b.buf[..size], emitted, b.dropped)])
  }

  function Drained(b: Buffer): Buffer
    decreases |b.buf|, b.dropped
  {
    if b.buf == [] && b.dropped == 0 then b else Drained(Drained1(b))
  }

  lemma DrainedTurn(b: Buffer)
    requires b.buf != [] || b.dropped != 0
    ensures Drained(b) == Drained(Drained1(b))
  {
  }

  function ClosedOf(b: Buffer): Buffer {
    Drained(b.(closed := true))
  }

  class OutputBuffer {
    var buf: seq<Byte>
    var dropped: nat
    var closed: bool
    var emitted: nat
    /** What was sent to the viewer so far. */
    var events: seq<Event>
    ghost var accepted: seq<Byte>

    ghost function View(): Buffer
      reads this
    {
      Buffer(buf, dropped, closed, emitted, events, accepted)
    }

    constructor ()
      ensures View() == EMPTY
    {
      buf, dropped, closed, emitted, events, accepted := [], 0, false, 0, [], [];
    }

    method Write(p: seq<Byte>)
      requires |buf| <= PENDING_CAP
      modifies this
      ensures View() == Written(old(View()), p)
      ensures closed == old(closed) && events == old(events) && emitted == old(emitted)
      ensures closed ==> buf == old(buf) && dropped == old(dropped) && accepted == old(accepted)
      ensures !closed ==>
                && |buf| == Min(0x40_0000, |old(buf)| + |p|)
                && buf == (old(buf) + p)[|old(buf)| + |p| - |buf|..]
                && dropped - old(dropped) == |old(buf)| + |p| - |buf|
                && accepted == old(accepted) + p
    {
      WriteMeans(View(), p);
      if closed {
        return;
      }
      if |p| >= PENDING_CAP {
        dropped := dropped + (|buf| + |p| - PENDING_CAP);
        assert Suffix(buf + p, PENDING_CAP) == p[|p| - PENDING_CAP..];
        buf := p[|p| - PENDING_CAP..];
      } else {
        var over := |buf| + |p| - PENDING_CAP;
        assert over > 0 ==> Suffix(buf + p, PENDING_CAP) == buf[over..] + p;
        if over > 0 {
          buf := buf[over..];
          dropped := dropped + over;
        }
        buf := buf + p;
      }
      accepted := accepted + p;
    }

    method Drain()
      modifies this
      ensures View() == Drained(old(View()))
      ensures buf == [] && dropped == 0
    {
      while buf != [] || dropped != 0
        invariant Drained(View()) == Drained(old(View()))
        decreases |buf|, dropped
      {
        DrainedTurn(View());
        DrainTurn();
      }
    }

    /** One turn of the loop: the next chunk, with the count of what was lost. */
    method DrainTurn()
      requires buf != [] || dropped != 0
      modifies this
      ensures View() == Drained1(old(View()))
      ensures |buf| < |old(buf)| || (|buf| == |old(buf)| && dropped < old(dropped))
    {
      var size := Min(|buf|, FLUSH_BYTES);
      var chunk, lost := buf[..size], dropped;
      buf, dropped := buf[size..], 0;
      emitted := emitted + lost + |chunk|;
      events := events + [Event(chunk, emitted, lost)];
    }

    /** Returns once the rest has been sent. */
    method Close()
      modifies this
      ensures View() == ClosedOf(old(View()))
    {
      closed := true;
      Drain();
    }
  }

  // ----- agreement with the stream -----

  /** The event is the stream's slice that ends at its cursor, and its dropped
      count is the gap to the event before. */
  predicate EventOk(events: seq<Event>, accepted: seq<Byte>, i: nat)
    requires i < |events|
  {
    var e := events[i];
    && |e.data| <= FLUSH_BYTES
    && |e.data| <= e.cursor <= |accepted|
    && e.cursor == (if i == 0 then 0 else events[i - 1].cursor) + e.dropped + |e.data|
    && e.data == accepted[e.cursor - |e.data|..e.cursor]
  }

  ghost predicate Agree(events: seq<Event>, accepted: seq<Byte>) {
    forall i :: 0 <= i < |events| ==> EventOk(events, accepted, i)
  }

  function Total(events: seq<Event>): nat {
    if events == [] then 0 else |events[0].data| + events[0].dropped + Total(events[1..])
  }

  lemma {:induction false} TotalSnoc(events: seq<Event>, e: Event)
    ensures Total(events + [e]) == Total(events) + |e.data| + e.dropped
  {
    if events == [] {
      assert events + [e] == [e];
    } else {
      TotalSnoc(events[1..], e);
      assert (events + [e])[1..] == events[1..] + [e];
    }
  }

  ghost predicate Good(b: Buffer) {
    && |b.buf| <= PENDING_CAP
    && b.emitted + b.dropped + |b.buf| == |b.accepted|
    && b.buf == b.accepted[|b.accepted| - |b.buf|..]
    && b.emitted == (if b.events == [] then 0 else b.events[|b.events| - 1].cursor)
    && b.emitted == Total(b.events)
    && Agree(b.events, b.accepted)
  }

  lemma EmptyGood()
    ensures Good(EMPTY)
  {
  }

  lemma WriteGood(b: Buffer, p: seq<Byte>)
    requires Good(b)
    ensures Good(Written(b, p))
  {
    if !b.closed {
      var b' := Written(b, p);
      AgreeGrows(b.events, b.accepted, b'.accepted);
      assert b'.buf == b'.accepted[|b'.accepted| - |b'.buf|..];
    }
  }

  lemma AgreeGrows(events: seq<Event>, a: seq<Byte>, a': seq<Byte>)
    requires Agree(events, a) && a <= a'
    ensures Agree(events, a')
  {
    forall i | 0 <= i < |events| ensures EventOk(events, a', i) {
      assert EventOk(events, a, i);
      var e := events[i];
      assert a'[e.cursor - |e.data|..e.cursor] == a[e.cursor - |e.data|..e.cursor];
    }
  }

  lemma AgreeSnoc(events: seq<Event>, e: Event, a: seq<Byte>)
    requires Agree(events, a) && EventOk(events + [e], a, |events|)
    ensures Agree(events + [e], a)
  {
    forall i | 0 <= i < |events| ensures EventOk(events + [e], a, i) {
      assert EventOk(events, a, i);
    }
  }

  lemma DrainGood1(b: Buffer)
    requires Good(b)
    ensures Good(Drained1(b))
  {
    if b.buf != [] || b.dropped != 0 {
      var b' := Drained1(b);
      var e := b'.events[|b.events|];
      TotalSnoc(b.events, e);
      assert e.data == b.accepted[e.cursor - |e.data|..e.cursor];
      AgreeSnoc(b.events, e, b.accepted);
    }
  }

  lemma {:induction false} DrainGood(b: Buffer)
    requires Good(b)
    ensures Good(Drained(b)) && Drained(b).buf == [] && Drained(b).dropped == 0
    ensures Drained(b).accepted == b.accepted && Drained(b).closed == b.closed
    ensures b.events <= Drained(b).events
    decreases |b.buf|, b.dropped
  {
    if b.buf != [] || b.dropped != 0 {
      DrainGood1(b);
      DrainGood(Drained1(b));
    }
  }

  // ----- any sequence of operations -----

  datatype Op = Write(p: seq<Byte>) | Drain1 | Close

  function Apply(b: Buffer, op: Op): Buffer {
    match op
    case Write(p) => Written(b, p)
    case Drain1 => Drained1(b)
    case Close => ClosedOf(b)
  }

  function Run(b: Buffer, ops: seq<Op>): Buffer
    decreases |ops|
  {
    if ops == [] then b else Run(Apply(b, ops[0]), ops[1..])
  }

  /** What was written up to the first close. */
  function Input(ops: seq<Op>): seq<Byte> {
    if ops == [] || ops[0].Close? then []
    else (if ops[0].Write? then ops[0].p else []) + Input(ops[1..])
  }

  lemma EventsChain(a: seq<Event>, b: seq<Event>, c: seq<Event>)
    requires a <= b <= c
    ensures a <= c
  {
  }

  lemma ApplyGood(b: Buffer, op: Op)
    requires Good(b)
    ensures var r := Apply(b, op);
            && Good(r) && b.events <= r.events
            && r.accepted == b.accepted + (if op.Write? && !b.closed then op.p else [])
            && (r.closed <==> b.closed || op.Close?)
  {
    match op
    case Write(p) => WriteGood(b, p);
    case Drain1 => DrainGood1(b);
    case Close => DrainGood(b.(closed := true));
  }

  /** Over any sequence of writes, drains and closes, also after a close: every
      event agrees with the stream that was written up to the close, what waits is
      bounded and is the stream's newest part, and emitted, dropped and waiting
      bytes together are all bytes. */
  lemma {:induction false} EventsAgreeWithTheStream(b: Buffer, ops: seq<Op>)
    requires Good(b)
    ensures Good(Run(b, ops)) && b.events <= Run(b, ops).events
    ensures Run(b, ops).accepted == b.accepted + (if b.closed then [] else Input(ops))
    decreases |ops|
  {
    if ops != [] {
      var b1, p := Apply(b, ops[0]), if ops[0].Write? then ops[0].p else [];
      ApplyGood(b, ops[0]);
      EventsAgreeWithTheStream(b1, ops[1..]);
      Assoc(b.accepted, p, Input(ops[1..]));
      EventsChain(b.events, b1.events, Run(b, ops).events);
    }
  }

  /** After a close nothing is pending, and nothing comes any more: the events and
      the dropped bytes account for every byte written before the close. */
  lemma CloseAccountsForEveryByte(ops: seq<Op>, more: seq<Op>)
    ensures var closed := Run(EMPTY, ops + [Close]);
            && Total(closed.events) == |Input(ops + [Close])|
            && closed.buf == [] && closed.dropped == 0
            && Run(closed, more) == closed
  {
    CloseEmpties(ops);
    EmptyGood();
    EventsAgreeWithTheStream(EMPTY, ops + [Close]);
    ClosedIsQuiet(Run(EMPTY, ops + [Close]), more);
    AllEmitted(Run(EMPTY, ops + [Close]));
    assert [] + Input(ops + [Close]) == Input(ops + [Close]);
  }

  lemma AllEmitted(b: Buffer)
    requires Good(b) && b.buf == [] && b.dropped == 0
    ensures Total(b.events) == |b.accepted|
  {
  }

  lemma CloseEmpties(ops: seq<Op>)
    ensures var b := Run(EMPTY, ops + [Close]); b.closed && b.buf == [] && b.dropped == 0
  {
    EmptyGood();
    EventsAgreeWithTheStream(EMPTY, ops);
    RunAppend(EMPTY, ops, [Close]);
    LastClose(Run(EMPTY, ops));
    ClosedEmpty(Run(EMPTY, ops));
  }

  lemma ClosedEmpty(b: Buffer)
    requires Good(b)
    ensures ClosedOf(b).closed && ClosedOf(b).buf == [] && ClosedOf(b).dropped == 0
  {
    DrainGood(b.(closed := true));
  }

  lemma LastClose(b: Buffer)
    ensures Run(b, [Close]) == ClosedOf(b)
  {
    assert [Close][1..] == [];
    assert Run(ClosedOf(b), []) == ClosedOf(b);
  }

  lemma {:induction false} RunAppend(b: Buffer, ops: seq<Op>, more: seq<Op>)
    ensures Run(b, ops + more) == Run(Run(b, ops), more)
    decreases |ops|
  {
    if ops == [] {
      assert ops + more == more;
    } else {
      assert (ops + more)[1..] == ops[1..] + more;
      RunAppend(Apply(b, ops[0]), ops[1..], more);
    }
  }

  lemma {:induction false} ClosedIsQuiet(b: Buffer, ops: seq<Op>)
    requires b.closed && b.buf == [] && b.dropped == 0
    ensures Run(b, ops) == b
    decreases |ops|
  {
    if ops != [] {
      assert Apply(b, ops[0]) == b;
      ClosedIsQuiet(b, ops[1..]);
    }
  }

  // ----- what is dropped -----

  function LostIn(events: seq<Event>): nat {
    if events == [] then 0 else LostIn(events[..|events| - 1]) + events[|events| - 1].dropped
  }

  /** All bytes that were dropped, told to the viewer or not yet. */
  function Lost(b: Buffer): nat {
    LostIn(b.events) + b.dropped
  }

  /** By how much each write exceeds the 4 MiB that may wait. */
  function Overflow(b: Buffer, ops: seq<Op>): nat
    decreases |ops|
  {
    if ops == [] then 0
    else
      var over := if ops[0].Write? && !b.closed && |b.buf| + |ops[0].p| > 0x40_0000
                  then |b.buf| + |ops[0].p| - 0x40_0000 else 0;
      over + Overflow(Apply(b, ops[0]), ops[1..])
  }

  lemma Drain1Loses(b: Buffer)
    ensures Lost(Drained1(b)) == Lost(b)
  {
    if b.buf != [] || b.dropped != 0 {
      var e := Drained1(b).events[|b.events|];
      assert (b.events + [e])[..|b.events|] == b.events;
    }
  }

  lemma {:induction false} DrainLoses(b: Buffer)
    ensures Lost(Drained(b)) == Lost(b)
    decreases |b.buf|, b.dropped
  {
    if b.buf != [] || b.dropped != 0 {
      Drain1Loses(b);
      DrainLoses(Drained1(b));
    }
  }

  lemma ApplyLoses(b: Buffer, op: Op)
    ensures Lost(Apply(b, op)) - Lost(b)
         == if op.Write? && !b.closed && |b.buf| + |op.p| > 0x40_0000 then |b.buf| + |op.p| - 0x40_0000 else 0
  {
    match op
    case Write(p) => WriteMeans(b, p);
    case Drain1 => Drain1Loses(b);
    case Close => DrainLoses(b.(closed := true));
  }

  /** Over any operations exactly the overflow is dropped, so nothing is as long as no more
      than 4 MiB ever wait. */
  lemma {:induction false} LostIsTheOverflow(b: Buffer, ops: seq<Op>)
    ensures Lost(Run(b, ops)) == Lost(b) + Overflow(b, ops)
    decreases |ops|
  {
    if ops != [] {
      ApplyLoses(b, ops[0]);
      LostIsTheOverflow(Apply(b, ops[0]), ops[1..]);
    }
  }

  function DataOf(events: seq<Event>): seq<Byte> {
    if events == [] then [] else DataOf(events[..|events| - 1]) + events[|events| - 1].data
  }

  /** The events without a loss spell the stream up to the last cursor. */
  lemma {:induction false} EventsSpell(events: seq<Event>, accepted: seq<Byte>)
    requires Agree(events, accepted) && LostIn(events) == 0
    ensures forall i :: 0 <= i < |events| ==> events[i].dropped == 0
    ensures var c := if events == [] then 0 else events[|events| - 1].cursor;
            c <= |accepted| && DataOf(events) == accepted[..c]
    decreases |events|
  {
    if events != [] {
      var n := |events| - 1;
      AgreeInit(events, accepted);
      EventsSpell(events[..n], accepted);
      assert EventOk(events, accepted, n);
      var e := events[n];
      assert accepted[..e.cursor] == accepted[..e.cursor - |e.data|] + accepted[e.cursor - |e.data|..e.cursor];
      forall i | 0 <= i < |events| ensures events[i].dropped == 0 {
        assert i < n ==> events[i] == events[..n][i];
      }
    }
  }

  lemma AgreeInit(events: seq<Event>, accepted: seq<Byte>)
    requires events != [] && Agree(events, accepted)
    ensures Agree(events[..|events| - 1], accepted)
  {
    var init := events[..|events| - 1];
    forall i | 0 <= i < |init| ensures EventOk(init, accepted, i) {
      assert EventOk(events, accepted, i);
    }
  }

  /** As long as no more than 4 MiB ever wait, the viewer is told of no loss, and what it
      got and what still waits spell everything that was written before the close. */
  lemma NothingIsLostWithinTheCap(ops: seq<Op>)
    requires Overflow(EMPTY, ops) == 0
    ensures var b := Run(EMPTY, ops);
            && b.dropped == 0 && (forall i :: 0 <= i < |b.events| ==> b.events[i].dropped == 0)
            && DataOf(b.events) + b.buf == Input(ops)
  {
    EmptyGood();
    assert LostIn([]) == 0;
    NothingIsLostFrom(EMPTY, ops);
  }

  lemma NothingIsLostFrom(b: Buffer, ops: seq<Op>)
    requires Good(b) && Lost(b) == 0 && !b.closed && b.accepted == [] && Overflow(b, ops) == 0
    ensures var r := Run(b, ops);
            && r.dropped == 0 && (forall i :: 0 <= i < |r.events| ==> r.events[i].dropped == 0)
            && DataOf(r.events) + r.buf == Input(ops)
  {
    EventsAgreeWithTheStream(b, ops);
    LostIsTheOverflow(b, ops);
    NothingLost(Run(b, ops));
    assert [] + Input(ops) == Input(ops);
  }

  lemma NothingLost(b: Buffer)
    requires Good(b) && Lost(b) == 0
    ensures b.dropped == 0 && forall i :: 0 <= i < |b.events| ==> b.events[i].dropped == 0
    ensures DataOf(b.events) + b.buf == b.accepted
  {
    EventsSpell(b.events, b.accepted);
    WholeStream(b.accepted, b.emitted, b.buf);
  }

  lemma WholeStream(accepted: seq<Byte>, emitted: nat, buf: seq<Byte>)
    requires emitted + |buf| == |accepted| && buf == accepted[|accepted| - |buf|..]
    ensures accepted[..emitted] + buf == accepted
  {
  }

  /** No chunk is longer than 32 KiB, and none is empty but one that only tells a loss. */
  lemma {:induction false} ChunksAreSmall(b: Buffer, ops: seq<Op>)
    requires forall i :: 0 <= i < |b.events| ==> ChunkOk(b.events[i])
    ensures forall i :: 0 <= i < |Run(b, ops).events| ==> ChunkOk(Run(b, ops).events[i])
    decreases |ops|
  {
    if ops != [] {
      if ops[0].Close? {
        DrainChunks(b.(closed := true));
      }
      ChunksAreSmall(Apply(b, ops[0]), ops[1..]);
    }
  }

  /** All but the last event of a drain are full. */
  lemma {:induction false} ChunksAreFull(b: Buffer)
    ensures b.events <= Drained(b).events
    ensures forall i :: |b.events| <= i < |Drained(b).events| - 1 ==> |Drained(b).events[i].data| == 32768
    decreases |b.buf|, b.dropped
  {
    if b.buf != [] || b.dropped != 0 {
      ChunksAreFull(Drained1(b));
    }
  }

  predicate ChunkOk(e: Event) {
    |e.data| <= 32768 && (e.data == [] ==> e.dropped > 0)
  }

  lemma {:induction false} DrainChunks(b: Buffer)
    requires forall i :: 0 <= i < |b.events| ==> ChunkOk(b.events[i])
    ensures forall i :: 0 <= i < |Drained(b).events| ==> ChunkOk(Drained(b).events[i])
    decreases |b.buf|, b.dropped
  {
    if b.buf != [] || b.dropped != 0 {
      DrainChunks(Drained1(b));
    }
  }

  // ----- together with the raw ring -----

  /** The raw side of `aiOutput`: the ring and the emitter see the same bytes. */
  class RawOutput {
    const raw: RingBuffer
    const live: OutputBuffer
    var closed: bool

    ghost predicate Valid()
      reads this, raw, raw.data, live
    {
      && raw.Valid() && Good(live.View())
      && raw.stream == live.accepted
      && closed == live.closed
      && (closed ==> live.buf == [] && live.dropped == 0)
    }

    constructor (ringBytes: int)
      ensures Valid() && raw.stream == [] && !closed
      ensures fresh(raw) && fresh(raw.data) && fresh(live)
    {
      var r := new RingBuffer(ringBytes);
      var l := new OutputBuffer();
      EmptyGood();
      raw, live, closed := r, l, false;
    }

    method Write(p: seq<Byte>)
      requires Valid()
      modifies raw, raw.data, live
      ensures Valid() && raw.data == old(raw.data)
      ensures raw.stream == old(raw.stream) + (if closed then [] else p)
      ensures live.View() == Written(old(live.View()), p)
      ensures !closed ==>
                && |live.buf| == Min(0x40_0000, |old(live.buf)| + |p|)
                && live.dropped - old(live.dropped) == |old(live.buf)| + |p| - |live.buf|
    {
      WriteMeans(live.View(), p);
      if closed || |p| == 0 {
        assert p == [] ==> raw.stream + p == raw.stream;
        return;
      }
      WriteGood(live.View(), p);
      raw.Write(p);
      live.Write(p);
    }

    method Close()
      requires Valid()
      modifies this`closed, live
      ensures Valid() && closed
      ensures Total(live.events) == |raw.stream|
    {
      closed := true;
      DrainGood(live.View().(closed := true));
      live.Close();
    }

    /** `ReadRaw`: a viewer that lost track reads the ring at absolute cursors. */
    method ReadRaw(since: nat, max: int) returns (r: Option<(seq<Byte>, nat, nat)>)
      requires Valid()
      ensures r.None? <==> since > |raw.stream|
      ensures r.Some? ==>
                var (data, from, missed) := r.value;
                && from == (if since + raw.held < |raw.stream| then |raw.stream| - raw.held else since) && missed == from - since
                && |data| == Min(if max <= 0 then 0x4_0000 else max, |raw.stream| - from)
                && data == raw.stream[from..from + |data|]
    {
      if since > raw.end {
        return None;
      }
      var from := if since < raw.Start() then raw.Start() else since;
      var data := raw.Read(from, if max <= 0 then RAW_MAX else max);
      r := Some((data, from, from - since));
    }
  }
}
