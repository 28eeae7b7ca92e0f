/**
 The output of a session from the remote bytes to the audit and to the readers
 (`aiOutput.Write`, `appendTextLocked`, `Flush`, ai_session.go): the stripper, the
 filter behind it, the text ring and the audit writer.

 The filter that redacts secrets may hold text back and release other text; it is
 any function of all it has seen that turns whole runes into whole runes.
 */
module Pipeline {
  import opened Bytes
  import opened Utf8
  import P = PlainText
  import A = Audit
  import R = Reader

  /** What the filter is given: stripped text, or the sign that a line has ended. */
  datatype Input = Text(t: seq<Byte>) | EndOfLine

  /** What the filter releases after all these inputs. */
  type Filter = seq<Input> -> seq<Byte>

  ghost predicate WholeRunes(inputs: seq<Input>) {
    forall i :: 0 <= i < |inputs| && inputs[i].Text? ==> ValidUtf8(inputs[i].t)
  }

  ghost predicate KeepsRunes(filter: Filter) {
    forall inputs: seq<Input> :: WholeRunes(inputs) ==> ValidUtf8(filter(inputs))
  }

  /** Without redaction the stripped text is released as it comes. */
  function Unfiltered(inputs: seq<Input>): seq<Byte> {
    if inputs != [] && inputs[|inputs| - 1].Text? then inputs[|inputs| - 1].t else []
  }

  /** Remote bytes arrive, a line ends, and the audit's loop flushes. */
  datatype Event = Remote(p: seq<Byte>) | LineEnd | AuditFlush(took: bool)

  /** Empty text is not appended. */
  function Appended(text: seq<Byte>): seq<A.Op> {
    if text == [] then [] else [A.Arrive(text)]
  }

  /** What ring and audit get; `seen` are the filter's inputs so far. */
  function Released(filter: Filter, st: P.State, tail: seq<Byte>, seen: seq<Input>, events: seq<Event>): seq<A.Op>
    decreases |events|
  {
    if events == [] then []
    else
      match events[0]
      case AuditFlush(took) => [A.FlushNow(took)] + Released(filter, st, tail, seen, events[1..])
      case LineEnd =>
        var seen1 := seen + [EndOfLine];
        Appended(filter(seen1)) + Released(filter, st, tail, seen1, events[1..])
      case Remote(p) =>
        if p == [] then Released(filter, st, tail, seen, events[1..])
        else
          var r := P.Strip(st, tail + p);
          var seen1 := seen + [Text(r.out)];
          Appended(filter(seen1)) + Released(filter, r.st, r.tail, seen1, events[1..])
  }

  function OpsOf(filter: Filter, events: seq<Event>): seq<A.Op> {
    Released(filter, P.INITIAL, [], [], events)
  }

  /** The text stream after the events. */
  function StreamOf(filter: Filter, events: seq<Event>): seq<Byte> {
    A.Arrived(OpsOf(filter, events))
  }

  // ----- the stages fit -----

  ghost predicate Whole(ops: seq<A.Op>) {
    forall i :: 0 <= i < |ops| && ops[i].Arrive? ==> ValidUtf8(ops[i].p)
  }

  lemma WholeFirst(first: seq<A.Op>, rest: seq<A.Op>)
    requires Whole(first) && Whole(rest)
    ensures Whole(first + rest)
  {
  }

  lemma SeenGrows(seen: seq<Input>, next: Input)
    requires WholeRunes(seen) && (next.Text? ==> ValidUtf8(next.t))
    ensures WholeRunes(seen + [next])
  {
  }

  /** Everything that is released consists of whole runes. */
  lemma {:induction false} ReleasedIsWhole(filter: Filter, st: P.State, tail: seq<Byte>, seen: seq<Input>, events: seq<Event>)
    requires KeepsRunes(filter) && WholeRunes(seen)
    ensures Whole(Released(filter, st, tail, seen, events))
    decreases |events|
  {
    if events != [] {
      match events[0]
      case AuditFlush(took) =>
        ReleasedIsWhole(filter, st, tail, seen, events[1..]);
        WholeFirst([A.FlushNow(took)], Released(filter, st, tail, seen, events[1..]));
      case LineEnd =>
        var seen1 := seen + [EndOfLine];
        SeenGrows(seen, EndOfLine);
        ReleasedIsWhole(filter, st, tail, seen1, events[1..]);
        WholeFirst(Appended(filter(seen1)), Released(filter, st, tail, seen1, events[1..]));
      case Remote(p) =>
        if p == [] {
          ReleasedIsWhole(filter, st, tail, seen, events[1..]);
        } else {
          var r := P.Strip(st, tail + p);
          P.StrippedTextIsClean(st, tail + p);
          SeenGrows(seen, Text(r.out));
          ReleasedIsWhole(filter, r.st, r.tail, seen + [Text(r.out)], events[1..]);
          WholeFirst(Appended(filter(seen + [Text(r.out)])),
                     Released(filter, r.st, r.tail, seen + [Text(r.out)], events[1..]));
        }
    }
  }

  /** What was released does not depend on what comes later. */
  lemma {:induction false} ReleasedGrows(filter: Filter, st: P.State, tail: seq<Byte>, seen: seq<Input>,
                                         events: seq<Event>, n: nat)
    requires n <= |events|
    ensures Released(filter, st, tail, seen, events[..n]) <= Released(filter, st, tail, seen, events)
    decreases n
  {
    if n > 0 {
      var e := events[0];
      assert events[..n][0] == e && events[..n][1..] == events[1..][..n - 1];
      match e
      case AuditFlush(_) => ReleasedGrows(filter, st, tail, seen, events[1..], n - 1);
      case LineEnd => ReleasedGrows(filter, st, tail, seen + [EndOfLine], events[1..], n - 1);
      case Remote(p) =>
        if p == [] {
          ReleasedGrows(filter, st, tail, seen, events[1..], n - 1);
        } else {
          var r := P.Strip(st, tail + p);
          ReleasedGrows(filter, r.st, r.tail, seen + [Text(r.out)], events[1..], n - 1);
        }
    }
  }

  lemma {:induction false} ArrivedAppend(a: seq<A.Op>, b: seq<A.Op>)
    ensures A.Arrived(a + b) == A.Arrived(a) + A.Arrived(b)
    decreases |a|
  {
    if a == [] {
      assert a + b == b;
    } else {
      ConcatTail(a, b);
      ArrivedAppend(a[1..], b);
      Assoc(if a[0].Arrive? then a[0].p else [], A.Arrived(a[1..]), A.Arrived(b));
    }
  }

  lemma {:induction false} ArrivedIsWhole(ops: seq<A.Op>)
    requires Whole(ops)
    ensures ValidUtf8(A.Arrived(ops))
    decreases |ops|
  {
    if ops != [] {
      ArrivedIsWhole(ops[1..]);
      if ops[0].Arrive? {
        ValidAppend(ops[0].p, A.Arrived(ops[1..]));
      } else {
        assert [] + A.Arrived(ops[1..]) == A.Arrived(ops[1..]);
      }
    }
  }

  lemma StreamGrows(filter: Filter, events: seq<Event>, n: nat, m: nat)
    requires n <= m <= |events|
    ensures StreamOf(filter, events[..n]) <= StreamOf(filter, events[..m])
  {
    assert events[..m][..n] == events[..n];
    ReleasedGrows(filter, P.INITIAL, [], [], events[..m], n);
    var a, b := OpsOf(filter, events[..n]), OpsOf(filter, events[..m]);
    assert b == a + b[|a|..];
    ArrivedAppend(a, b[|a|..]);
  }

  lemma StreamIsWhole(filter: Filter, events: seq<Event>)
    requires KeepsRunes(filter)
    ensures ValidUtf8(StreamOf(filter, events))
  {
    ReleasedIsWhole(filter, P.INITIAL, [], [], events);
    ArrivedIsWhole(OpsOf(filter, events));
  }

  // ----- the results -----

  /** A read after `at` events, when the ring's start is `start`. */
  datatype Visit = Visit(at: nat, start: nat, max: int)

  ghost predicate Possible(filter: Filter, events: seq<Event>, visits: seq<Visit>) {
    && (forall i :: 0 <= i < |visits| ==>
          visits[i].at <= |events| && visits[i].start <= |StreamOf(filter, events[..visits[i].at])|)
    && (forall i, j :: 0 <= i < j < |visits| ==> visits[i].at <= visits[j].at)
  }

  function Moments(filter: Filter, events: seq<Event>, visits: seq<Visit>): (m: seq<R.Moment>)
    requires forall i :: 0 <= i < |visits| ==> visits[i].at <= |events|
    ensures |m| == |visits|
  {
    seq(|visits|, i requires 0 <= i < |visits| =>
                   R.Moment(StreamOf(filter, events[..visits[i].at]), visits[i].start, visits[i].max))
  }

  lemma MomentsGrow(filter: Filter, events: seq<Event>, visits: seq<Visit>)
    requires KeepsRunes(filter) && Possible(filter, events, visits)
    ensures R.Growing(Moments(filter, events, visits))
  {
    var m := Moments(filter, events, visits);
    forall i | 0 <= i < |m| ensures m[i].start <= |m[i].stream| && ValidUtf8(m[i].stream) {
      StreamIsWhole(filter, events[..visits[i].at]);
    }
    forall i | 0 < i < |m| ensures m[i - 1].stream <= m[i].stream {
      StreamGrows(filter, events, visits[i - 1].at, visits[i].at);
    }
  }

  /** From remote bytes to the audit: whatever bytes arrive, in whatever chunks, and
      whatever the filter releases, the log holds the released text as `AuditHoldsTheText`
      says; no stage asks more of its input than the stage before gives. */
  lemma RemoteBytesReachTheAudit(filter: Filter, events: seq<Event>, limit: int, last: bool)
    requires KeepsRunes(filter)
    ensures var s := A.Apply(A.Run(A.State([], [], [], 0), OpsOf(filter, events)), A.FlushNow(last));
            && |s.took| == |s.batches|
            && var kept := A.Committed(s.batches, s.took);
               var log, stream := A.AppendAll(A.EMPTY, kept, limit), StreamOf(filter, events);
               && A.Content(log, A.Texts(Flatten(kept)), limit, Flatten(kept) != [])
               && A.InPlace(log, stream, |stream|)
               && (A.Faithful(log, stream, limit, Flatten(kept) != []) <==> A.NothingLost(s.batches, s.took))
  {
    ReleasedIsWhole(filter, P.INITIAL, [], [], events);
    A.AuditHoldsTheText(OpsOf(filter, events), limit, last);
  }

  /** From remote bytes to a reader that starts at cursor 0 and reads now and then: all
      its reads succeed, are faithful to the stream of that moment and meet, and text plus
      missed bytes account for every byte. */
  lemma RemoteBytesReachTheReader(filter: Filter, events: seq<Event>, visits: seq<Visit>)
    requires KeepsRunes(filter) && Possible(filter, events, visits)
    ensures var moments := Moments(filter, events, visits);
            && R.Growing(moments)
            && var slices := R.ReadAll(moments, 0);
               R.LastCursor(slices, 0) == R.Accounted(slices) && R.AllFaithful(moments, 0, slices)
  {
    var moments := Moments(filter, events, visits);
    MomentsGrow(filter, events, visits);
    if moments != [] {
      ValidStartsAtBoundary(moments[0].stream);
    }
    R.EveryByteIsReadOrMissed(moments, 0);
  }

  // ----- without redaction -----

  function RemoteBytes(events: seq<Event>): seq<Byte> {
    if events == [] then [] else (if events[0].Remote? then events[0].p else []) + RemoteBytes(events[1..])
  }

  lemma UnfilteredKeepsRunes()
    ensures KeepsRunes(Unfiltered)
  {
  }

  lemma ArrivedFirst(text: seq<Byte>, rest: seq<A.Op>)
    ensures A.Arrived(Appended(text) + rest) == text + A.Arrived(rest)
  {
    if text == [] {
      assert Appended(text) + rest == rest && text + A.Arrived(rest) == A.Arrived(rest);
    } else {
      assert ([A.Arrive(text)] + rest)[1..] == rest;
    }
  }

  function AfterQuiet(seen: seq<Input>, e: Event): seq<Input> {
    if e.LineEnd? then seen + [EndOfLine] else seen
  }

  /** Without redaction a line's end and a flush of the audit release nothing. */
  lemma QuietEvent(st: P.State, tail: seq<Byte>, seen: seq<Input>, events: seq<Event>)
    requires events != [] && !events[0].Remote?
    ensures A.Arrived(Released(Unfiltered, st, tail, seen, events))
         == A.Arrived(Released(Unfiltered, st, tail, AfterQuiet(seen, events[0]), events[1..]))
    ensures RemoteBytes(events) == RemoteBytes(events[1..])
  {
    var rest := Released(Unfiltered, st, tail, AfterQuiet(seen, events[0]), events[1..]);
    if events[0].LineEnd? {
      ArrivedFirst([], rest);
      assert [] + A.Arrived(rest) == A.Arrived(rest);
    } else {
      FlushArrivesNothing(events[0].took, rest);
    }
    assert [] + RemoteBytes(events[1..]) == RemoteBytes(events[1..]);
  }

  lemma FlushArrivesNothing(took: bool, rest: seq<A.Op>)
    ensures A.Arrived([A.FlushNow(took)] + rest) == A.Arrived(rest)
  {
    assert ([A.FlushNow(took)] + rest)[1..] == rest;
    assert [] + A.Arrived(rest) == A.Arrived(rest);
  }

  lemma {:induction false} UnfilteredIsStripped(st: P.State, tail: seq<Byte>, seen: seq<Input>, events: seq<Event>)
    requires P.Between(st, tail)
    ensures A.Arrived(Released(Unfiltered, st, tail, seen, events)) == P.Strip(st, tail + RemoteBytes(events)).out
    decreases |events|
  {
    if events == [] {
      assert tail + RemoteBytes(events) == tail;
      P.TailStripsToItself(st, tail);
    } else {
      if events[0].Remote? {
        UnfilteredRemote(st, tail, seen, events, events[0].p);
      } else {
        QuietEvent(st, tail, seen, events);
        UnfilteredIsStripped(st, tail, AfterQuiet(seen, events[0]), events[1..]);
      }
    }
  }

  lemma {:induction false} UnfilteredRemote(st: P.State, tail: seq<Byte>, seen: seq<Input>, events: seq<Event>, p: seq<Byte>)
    requires P.Between(st, tail) && events != [] && events[0] == Remote(p)
    ensures A.Arrived(Released(Unfiltered, st, tail, seen, events)) == P.Strip(st, tail + RemoteBytes(events)).out
    decreases |events|, 0
  {
    var more := RemoteBytes(events[1..]);
    if p == [] {
      assert [] + more == more;
      UnfilteredIsStripped(st, tail, seen, events[1..]);
    } else {
      var r := P.Strip(st, tail + p);
      P.StripEndsBetween(st, tail + p);
      UnfilteredIsStripped(r.st, r.tail, seen + [Text(r.out)], events[1..]);
      P.StripAppend(st, tail + p, more);
      Assoc(tail, p, more);
      JoinText(P.Strip(st, tail + (p + more)), r.out, P.Strip(r.st, r.tail + more),
               Released(Unfiltered, r.st, r.tail, seen + [Text(r.out)], events[1..]));
      RemoteIsReleased(st, tail, seen, events, p);
    }
  }

  lemma JoinText(whole: P.Stripped, out: seq<Byte>, rest: P.Stripped, ops: seq<A.Op>)
    requires whole == P.Prepend(out, rest) && A.Arrived(ops) == rest.out
    ensures A.Arrived(Appended(out) + ops) == whole.out
  {
    ArrivedFirst(out, ops);
  }

  lemma RemoteIsReleased(st: P.State, tail: seq<Byte>, seen: seq<Input>, events: seq<Event>, p: seq<Byte>)
    requires events != [] && events[0] == Remote(p) && p != []
    ensures var r := P.Strip(st, tail + p);
            Released(Unfiltered, st, tail, seen, events)
            == Appended(r.out) + Released(Unfiltered, r.st, r.tail, seen + [Text(r.out)], events[1..])
  {
  }

  /** Without redaction the text stream is the stripped form of all remote bytes, however
      they were cut into chunks. */
  lemma UnfilteredStreamIsStripped(events: seq<Event>)
    ensures StreamOf(Unfiltered, events) == P.Strip(P.INITIAL, RemoteBytes(events)).out
    ensures KeepsRunes(Unfiltered)
  {
    UnfilteredKeepsRunes();
    UnfilteredIsStripped(P.INITIAL, [], [], events);
    assert [] + RemoteBytes(events) == RemoteBytes(events);
  }
}
