/**
 The per-session line gate (`aiLineGate`, ai_session_approval.go).

 Every method of the gate runs under its leaf lock, so it is one atomic step.
 `Gate` is the gate as a value and each operation has a function on that value;
 the class below keeps the fields in place, as the source does, and each of its
 methods is proved to perform exactly that function.
 */
module LineGate {
  import opened LineTypes

  const HISTORY_KEEP := 8

  datatype Gate = Gate(
    mode: Mode,
    state: GateState,
    closeReason: string,
    cwd: string,
    env: map<string, string>,
    unset: set<string>,
    tainted: bool,
    number: int,
    inflight: Option<LineRecord>,
    runOpen: bool,
    history: seq<LineRecord>)

  predicate IsClosing(g: Gate) {
    g.state == Closing || g.state == Closed
  }

  predicate HoldsLine(g: Gate, id: RequestId) {
    g.inflight.Some? && g.inflight.value.id == id
  }

  predicate HoldsIn(g: Gate, id: RequestId, p: Phase) {
    HoldsLine(g, id) && g.inflight.value.phase == p
  }

  function NewGate(mode: Mode, cwd: string): Gate {
    Gate(mode, Idle, "", cwd, map[], {}, false, 0, None, false, [])
  }

  predicate CanReserve(g: Gate) {
    !IsClosing(g) && g.inflight.None?
  }

  function NewRecord(g: Gate, id: RequestId, line: string, cls: LineClass, queued: Queued): LineRecord {
    LineRecord(id, g.number + 1, line, g.mode, g.cwd, g.env, g.unset, g.tainted, cls, queued, Reserved, None, None, 0)
  }

  function Reserve(g: Gate, id: RequestId, line: string, cls: LineClass, queued: Queued): Gate {
    if CanReserve(g) then
      g.(number := g.number + 1, inflight := Some(NewRecord(g, id, line, cls, queued)))
    else g
  }

  function Idled(g: Gate): Gate {
    if IsClosing(g) then g else g.(state := Idle)
  }

  function Release(g: Gate, id: RequestId): Gate {
    if HoldsIn(g, id, Reserved) then Idled(g.(inflight := None, number := g.number - 1)) else g
  }

  predicate CanMarkPending(g: Gate, id: RequestId) {
    HoldsIn(g, id, Reserved) && !IsClosing(g)
  }

  function MarkPending(g: Gate, id: RequestId): Gate {
    if CanMarkPending(g, id) then
      g.(inflight := Some(g.inflight.value.(phase := Pending)), state := PendingApproval)
    else g
  }

  predicate CanDeliver(g: Gate, id: RequestId) {
    !IsClosing(g) && (HoldsIn(g, id, Reserved) || HoldsIn(g, id, Pending))
  }

  function BeginDelivery(g: Gate, id: RequestId): Gate {
    if CanDeliver(g, id) then
      g.(inflight := Some(g.inflight.value.(phase := Running)), state := Busy, runOpen := true)
    else g
  }

  function Names(names: seq<string>): set<string> {
    set i | 0 <= i < |names| :: names[i]
  }

  function OverlayEnv(env: map<string, string>, cls: LineClass): map<string, string> {
    (env + cls.envSet) - Names(cls.envUnset)
  }

  function OverlayUnset(unset: set<string>, cls: LineClass): set<string> {
    (unset - cls.envSet.Keys) + Names(cls.envUnset)
  }

  /** The effect that a delivered line has on the session. */
  function ApplyEffect(g: Gate, rec: LineRecord, o: Outcome): Gate {
    var g1 :=
      match rec.cls.effect
      case Cd => if o.ok && o.newCwd != "" then g.(cwd := o.newCwd) else g
      case Env =>
        if o.ok then g.(env := OverlayEnv(g.env, rec.cls), unset := OverlayUnset(g.unset, rec.cls)) else g
      case StateChange => if g.mode == Shell then g.(tainted := true) else g
      case NoEffect => g;
    if g.mode == Shell && rec.cls.effect != Cd && o.newCwd != "" then g1.(cwd := o.newCwd) else g1
  }

  function KeepLast(h: seq<LineRecord>): seq<LineRecord> {
    if |h| > HISTORY_KEEP then h[|h| - HISTORY_KEEP..] else h
  }

  function FreeSlot(g: Gate, id: RequestId): Gate {
    if HoldsLine(g, id) then g.(inflight := None, runOpen := false) else g
  }

  function LogFinished(g: Gate, rec: LineRecord): Gate {
    var g1 := FreeSlot(g, rec.id);
    Idled(g1.(history := KeepLast(g1.history + [rec])))
  }

  /** The record with the line's end: its state, its exit code, and the output cursor
      when the runner reports one. */
  function Finished(rec: LineRecord, o: Outcome, final: Status): LineRecord {
    rec.(state := Some(final), exitCode := o.exitCode,
         cursorEnd := if o.cursorEnd > 0 then o.cursorEnd else rec.cursorEnd)
  }

  function FinishLine(g: Gate, rec: LineRecord, delivered: bool, o: Outcome, final: Status): Gate {
    LogFinished(if delivered then ApplyEffect(g, rec, o) else g, Finished(rec, o, final))
  }

  function DropPending(g: Gate, id: RequestId, status: Status): Gate {
    if HoldsIn(g, id, Pending) then
      Idled(g.(inflight := None, history := KeepLast(g.history + [g.inflight.value.(state := Some(status))])))
    else g
  }

  function BeginClose(g: Gate, reason: string): Gate {
    if IsClosing(g) then g else g.(state := Closing, closeReason := reason)
  }

  function MarkClosed(g: Gate): Gate {
    g.(state := Closed)
  }

  /** Unlike `DropPending` this neither caps the history nor leaves the closing state. */
  function DropOnClose(g: Gate, id: RequestId, status: Status): Gate {
    if HoldsLine(g, id) && g.inflight.value.phase != Running then
      g.(inflight := None, history := g.history + [g.inflight.value.(state := Some(status))])
    else g
  }

  // ----- what the operations mean, field by field -----

  /** The overlay after an environment line, name by name. */
  ghost predicate NamesUpdated(cls: LineClass, env: map<string, string>, unset: set<string>,
                               env': map<string, string>, unset': set<string>)
  {
    forall name: string ::
      && (name in cls.envUnset ==> name !in env' && name in unset')
      && (name in cls.envSet && name !in cls.envUnset ==>
            name in env' && env'[name] == cls.envSet[name] && name !in unset')
      && (name !in cls.envSet && name !in cls.envUnset ==>
            && (name in env' <==> name in env) && (name in env ==> env'[name] == env[name])
            && (name in unset' <==> name in unset))
  }

  /** A delivered `cd` that succeeds and reports its directory, and in shell mode any
      other line that reports one, moves the session there. */
  predicate MovesTo(mode: Mode, rec: LineRecord, delivered: bool, o: Outcome) {
    delivered && o.newCwd != "" && (if rec.cls.effect == Cd then o.ok else mode == Shell)
  }

  lemma EffectMeans(g: Gate, rec: LineRecord, o: Outcome)
    ensures var g' := ApplyEffect(g, rec, o);
            && g'.cwd == (if MovesTo(g.mode, rec, true, o) then o.newCwd else g.cwd)
            && (if rec.cls.effect == Env && o.ok then NamesUpdated(rec.cls, g.env, g.unset, g'.env, g'.unset)
                else g'.env == g.env && g'.unset == g.unset)
            && (g'.tainted <==> g.tainted || (rec.cls.effect == StateChange && g.mode == Shell))
            && g' == g.(cwd := g'.cwd, env := g'.env, unset := g'.unset, tainted := g'.tainted)
  {
    if rec.cls.effect == Env && o.ok {
      OverlayMeans(rec.cls, g.env, g.unset);
    }
  }

  lemma OverlayMeans(cls: LineClass, env: map<string, string>, unset: set<string>)
    ensures NamesUpdated(cls, env, unset, OverlayEnv(env, cls), OverlayUnset(unset, cls))
  {
    assert forall name :: name in Names(cls.envUnset) <==> name in cls.envUnset;
  }

  /** `entry` is behind the old records, of which the newest are kept, eight in all. */
  predicate NewestEight(before: seq<LineRecord>, entry: LineRecord, now: seq<LineRecord>) {
    && |now| == (if |before| < 8 then |before| + 1 else 8)
    && now == (before + [entry])[|before| + 1 - |now|..]
  }

  lemma KeepLastMeans(h: seq<LineRecord>, entry: LineRecord)
    ensures NewestEight(h, entry, KeepLast(h + [entry]))
  {
  }

  lemma FinishMeans(g: Gate, rec: LineRecord, delivered: bool, o: Outcome, final: Status)
    ensures var g' := FinishLine(g, rec, delivered, o, final);
            && g'.cwd == (if MovesTo(g.mode, rec, delivered, o) then o.newCwd else g.cwd)
            && (if delivered && rec.cls.effect == Env && o.ok
                then NamesUpdated(rec.cls, g.env, g.unset, g'.env, g'.unset)
                else g'.env == g.env && g'.unset == g.unset)
            && (g'.tainted <==> g.tainted || (delivered && rec.cls.effect == StateChange && g.mode == Shell))
  {
    EffectMeans(g, rec, o);
  }

  lemma FinishedMeans(rec: LineRecord, o: Outcome, final: Status)
    ensures Finished(rec, o, final)
         == rec.(state := Some(final), exitCode := o.exitCode,
                 cursorEnd := if o.cursorEnd > 0 then o.cursorEnd else rec.cursorEnd)
  {
  }

  predicate Mine(g: Gate, id: RequestId) {
    g.inflight.Some? && g.inflight.value.id == id
  }

  /** The record goes to the end of the history, ... */
  lemma LogLists(g: Gate, rec: LineRecord)
    ensures NewestEight(g.history, rec, LogFinished(g, rec).history)
  {
    LogKeeps(g, rec);
    KeepLastMeans(g.history, rec);
  }

  lemma LogKeeps(g: Gate, rec: LineRecord)
    ensures LogFinished(g, rec).history == KeepLast(g.history + [rec])
  {
  }

  /** ... and its line leaves the slot. */
  lemma LogFrees(g: Gate, rec: LineRecord)
    ensures var g' := LogFinished(g, rec);
            g' == g.(inflight := if Mine(g, rec.id) then None else g.inflight,
                     runOpen := !Mine(g, rec.id) && g.runOpen,
                     history := g'.history,
                     state := if g.state == Closing || g.state == Closed then g.state else Idle)
  {
  }

  /** Finishing is the effect of a delivered line and then logging it. */
  lemma FinishLogs(g: Gate, rec: LineRecord, delivered: bool, o: Outcome, final: Status)
    ensures var g', g1 := FinishLine(g, rec, delivered, o, final), if delivered then ApplyEffect(g, rec, o) else g;
            && g' == LogFinished(g1, Finished(rec, o, final))
            && g1 == g.(cwd := g'.cwd, env := g'.env, unset := g'.unset, tainted := g'.tainted)
  {
    EffectMeans(g, rec, o);
    LogFrees(if delivered then ApplyEffect(g, rec, o) else g, Finished(rec, o, final));
  }

  lemma ReserveMeans(g: Gate, id: RequestId, line: string, cls: LineClass, queued: Queued)
    ensures var open := g.state != Closing && g.state != Closed && g.inflight.None?;
            Reserve(g, id, line, cls, queued)
            == if open then g.(number := g.number + 1,
                               inflight := Some(LineRecord(id, g.number + 1, line, g.mode, g.cwd, g.env, g.unset,
                                                           g.tainted, cls, queued, Reserved, None, None, 0)))
               else g
  {
  }

  lemma ReleaseMeans(g: Gate, id: RequestId)
    ensures var mine := g.inflight.Some? && g.inflight.value.id == id && g.inflight.value.phase == Reserved;
            var closing := g.state == Closing || g.state == Closed;
            Release(g, id) == if mine then g.(inflight := None, number := g.number - 1,
                                              state := if closing then g.state else Idle)
                              else g
  {
  }

  lemma MarkPendingMeans(g: Gate, id: RequestId)
    ensures var mine := g.inflight.Some? && g.inflight.value.id == id && g.inflight.value.phase == Reserved;
            var closing := g.state == Closing || g.state == Closed;
            && (CanMarkPending(g, id) <==> mine && !closing)
            && MarkPending(g, id) == if mine && !closing
                                     then g.(inflight := Some(g.inflight.value.(phase := Pending)), state := PendingApproval)
                                     else g
  {
  }

  lemma BeginDeliveryMeans(g: Gate, id: RequestId)
    ensures var mine := g.inflight.Some? && g.inflight.value.id == id && g.inflight.value.phase != Running;
            var closing := g.state == Closing || g.state == Closed;
            && (CanDeliver(g, id) <==> mine && !closing)
            && BeginDelivery(g, id) == if mine && !closing
                                       then g.(inflight := Some(g.inflight.value.(phase := Running)), state := Busy,
                                               runOpen := true)
                                       else g
  {
  }

  /** A pending line leaves the slot with its status; the newest eight records stay. */
  lemma DropPendingMeans(g: Gate, id: RequestId, status: Status)
    ensures var g' := DropPending(g, id, status);
            var mine := g.inflight.Some? && g.inflight.value.id == id && g.inflight.value.phase == Pending;
            if !mine then g' == g
            else
              && g' == g.(inflight := None, history := g'.history,
                          state := if g.state == Closing || g.state == Closed then g.state else Idle)
              && NewestEight(g.history, g.inflight.value.(state := Some(status)), g'.history)
  {
    if HoldsIn(g, id, Pending) {
      KeepLastMeans(g.history, g.inflight.value.(state := Some(status)));
    }
  }

  lemma CloseMeans(g: Gate, reason: string)
    ensures BeginClose(g, reason) == if g.state == Closing || g.state == Closed then g
                                     else g.(state := Closing, closeReason := reason)
    ensures MarkClosed(g) == g.(state := Closed)
  {
  }

  /** On a close the undelivered line leaves the slot, and nothing is cut off the history. */
  lemma DropOnCloseMeans(g: Gate, id: RequestId, status: Status)
    ensures var mine := g.inflight.Some? && g.inflight.value.id == id && g.inflight.value.phase != Running;
            DropOnClose(g, id, status)
            == if mine then g.(inflight := None, history := g.history + [g.inflight.value.(state := Some(status))])
               else g
  {
  }

  /** What `reserve` answers: the record, or why there is none. */
  datatype Reservation =
    | LineReserved(rec: LineRecord)
    | SessionClosed(reason: string)
    | SessionBusy(id: RequestId, phase: Phase)

  class LineGateObject {
    const mode: Mode
    var state: GateState
    var closeReason: string
    var cwd: string
    var env: map<string, string>
    var unset: set<string>
    var tainted: bool
    var number: int
    var inflight: Option<LineRecord>
    var runOpen: bool
    var history: seq<LineRecord>
    /** The last use, for the idle limit; no decision of the gate reads it. */
    var lastActive: int

    function View(): Gate
      reads this
    {
      Gate(mode, state, closeReason, cwd, env, unset, tainted, number, inflight, runOpen, history)
    }

    constructor (mode: Mode, cwd: string, now: int)
      ensures View() == NewGate(mode, cwd) && lastActive == now
      ensures View() == Gate(mode, Idle, "", cwd, map[], {}, false, 0, None, false, [])
    {
      this.mode := mode;
      state, closeReason, this.cwd := Idle, "", cwd;
      env, unset, tainted := map[], {}, false;
      number, inflight, runOpen, history, lastActive := 0, None, false, [], now;
    }

    method TryReserve(id: RequestId, line: string, cls: LineClass, queued: Queued) returns (answer: Reservation)
      modifies this
      ensures View() == Reserve(old(View()), id, line, cls, queued)
      ensures answer.LineReserved? <==> CanReserve(old(View()))
      ensures answer.LineReserved? ==> answer.rec == NewRecord(old(View()), id, line, cls, queued) && inflight == Some(answer.rec)
      ensures answer.SessionClosed? <==> IsClosing(old(View()))
      ensures answer.SessionClosed? ==> answer.reason == closeReason
      ensures answer.SessionBusy? ==> inflight.Some? && inflight.value.id == answer.id && inflight.value.phase == answer.phase
      ensures lastActive == if answer.LineReserved? then queued.at else old(lastActive)
    {
      if state == Closing || state == Closed {
        return SessionClosed(closeReason);
      }
      if inflight.Some? {
        return SessionBusy(inflight.value.id, inflight.value.phase);
      }
      number := number + 1;
      var r := LineRecord(id, number, line, mode, cwd, env, unset, tainted, cls, queued, Reserved, None, None, 0);
      inflight := Some(r);
      lastActive := queued.at;
      answer := LineReserved(r);
    }

    method ReleaseLine(id: RequestId)
      modifies this
      ensures View() == Release(old(View()), id) && lastActive == old(lastActive)
    {
      if inflight.Some? && inflight.value.id == id && inflight.value.phase == Reserved {
        inflight := None;
        number := number - 1;
        if state != Closing && state != Closed {
          state := Idle;
        }
      }
    }

    method TryMarkPending(id: RequestId) returns (ok: bool)
      modifies this
      ensures ok == CanMarkPending(old(View()), id)
      ensures View() == MarkPending(old(View()), id) && lastActive == old(lastActive)
    {
      ok := inflight.Some? && inflight.value.id == id && inflight.value.phase == Reserved
      && state != Closing && state != Closed;
      if ok {
        inflight := Some(inflight.value.(phase := Pending));
        state := PendingApproval;
      }
    }

    method TryBeginDelivery(id: RequestId, now: int) returns (rec: Option<LineRecord>)
      modifies this
      ensures lastActive == if rec.Some? then now else old(lastActive)
      ensures View() == BeginDelivery(old(View()), id)
      ensures rec.Some? == CanDeliver(old(View()), id)
      ensures rec.Some? ==> inflight == rec
    {
      if state == Closing || state == Closed || inflight.None? || inflight.value.id != id {
        return None;
      }
      if inflight.value.phase != Reserved && inflight.value.phase != Pending {
        return None;
      }
      inflight := Some(inflight.value.(phase := Running));
      state := Busy;
      runOpen := true;
      lastActive := now;
      rec := inflight;
    }

    /** The first overlay loop of `finishLine`: every assignment. */
    method SetOverlay(cls: LineClass)
      modifies this`env, this`unset
      ensures env == old(env) + cls.envSet
      ensures unset == old(unset) - cls.envSet.Keys
    {
      var todo := cls.envSet.Keys;
      while todo != {}
        invariant todo <= cls.envSet.Keys
        invariant env == old(env) + (map n | n in cls.envSet && n !in todo :: cls.envSet[n])
        invariant unset == old(unset) - (cls.envSet.Keys - todo)
        decreases todo
      {
        var n :| n in todo;
        env := env[n := cls.envSet[n]];
        unset := unset - {n};
        todo := todo - {n};
      }
    }

    /** The second one: every unset name. */
    method UnsetOverlay(names: seq<string>)
      modifies this`env, this`unset
      ensures env == old(env) - Names(names)
      ensures unset == old(unset) + Names(names)
    {
      for i := 0 to |names|
        invariant env == old(env) - Names(names[..i])
        invariant unset == old(unset) + Names(names[..i])
      {
        env := env - {names[i]};
        unset := unset + {names[i]};
        assert Names(names[..i + 1]) == Names(names[..i]) + {names[i]};
      }
      assert names[..|names|] == names;
    }

    /** The overlay part of `finishLine`: first every assignment, then every unset name. */
    method ApplyOverlay(cls: LineClass)
      modifies this`env, this`unset
      ensures env == OverlayEnv(old(env), cls)
      ensures unset == OverlayUnset(old(unset), cls)
      ensures NamesUpdated(cls, old(env), old(unset), env, unset)
    {
      OverlayMeans(cls, env, unset);
      SetOverlay(cls);
      UnsetOverlay(cls.envUnset);
    }

    method AppendCapped(rec: LineRecord)
      modifies this`history
      ensures history == KeepLast(old(history) + [rec])
      ensures history != [] && history[|history| - 1] == rec
    {
      history := history + [rec];
      if |history| > HISTORY_KEEP {
        history := history[|history| - HISTORY_KEEP..];
      }
    }

    method ApplyLineEffect(rec: LineRecord, o: Outcome) returns (newlyTainted: bool)
      modifies this
      ensures View() == ApplyEffect(old(View()), rec, o) && lastActive == old(lastActive)
      ensures newlyTainted == (tainted && !old(tainted))
    {
      newlyTainted := false;
      match rec.cls.effect {
        case Cd =>
          if o.ok && o.newCwd != "" {
            cwd := o.newCwd;
          }
        case Env =>
          if o.ok {
            ApplyOverlay(rec.cls);
          }
        case StateChange =>
          if mode == Shell && !tainted {
            tainted := true;
            newlyTainted := true;
          }
        case NoEffect =>
      }
      if mode == Shell && rec.cls.effect != Cd && o.newCwd != "" {
        cwd := o.newCwd;
      }
    }

    method ClearSlot(id: RequestId)
      modifies this`inflight, this`runOpen
      ensures View() == FreeSlot(old(View()), id)
    {
      if inflight.Some? && inflight.value.id == id {
        inflight := None;
        runOpen := false;
      }
    }

    method GoIdle()
      modifies this`state
      ensures View() == Idled(old(View()))
    {
      if state != Closing && state != Closed {
        state := Idle;
      }
    }

    method FreeAndLog(rec: LineRecord, now: int)
      modifies this
      ensures View() == LogFinished(old(View()), rec)
      ensures tainted == old(tainted) && lastActive == now
      ensures history != [] && history[|history| - 1] == rec
    {
      ClearSlot(rec.id);
      AppendCapped(rec);
      GoIdle();
      lastActive := now;
    }

    method EndRecord(rec: LineRecord, o: Outcome, final: Status) returns (finished: LineRecord)
      ensures finished == Finished(rec, o, final)
    {
      finished := rec.(state := Some(final), exitCode := o.exitCode);
      if o.cursorEnd > 0 {
        finished := finished.(cursorEnd := o.cursorEnd);
      }
    }

    method Finish(rec: LineRecord, delivered: bool, o: Outcome, final: Status, now: int)
      returns (finished: LineRecord, newlyTainted: bool)
      modifies this
      ensures View() == FinishLine(old(View()), rec, delivered, o, final)
      ensures finished == Finished(rec, o, final) && history != [] && history[|history| - 1] == finished
      ensures lastActive == now
      ensures cwd == if MovesTo(mode, rec, delivered, o) then o.newCwd else old(cwd)
      ensures if delivered && rec.cls.effect == Env && o.ok
              then NamesUpdated(rec.cls, old(env), old(unset), env, unset)
              else env == old(env) && unset == old(unset)
      ensures tainted <==> old(tainted) || (delivered && rec.cls.effect == StateChange && mode == Shell)
      ensures newlyTainted == (tainted && !old(tainted))
    {
      FinishMeans(View(), rec, delivered, o, final);
      newlyTainted := false;
      if delivered {
        newlyTainted := ApplyLineEffect(rec, o);
      }
      finished := EndRecord(rec, o, final);
      FreeAndLog(finished, now);
    }

    method Drop(id: RequestId, status: Status) returns (ok: bool)
      modifies this
      ensures ok == HoldsIn(old(View()), id, Pending)
      ensures View() == DropPending(old(View()), id, status) && lastActive == old(lastActive)
    {
      if inflight.None? || inflight.value.id != id || inflight.value.phase != Pending {
        return false;
      }
      var rec := inflight.value.(state := Some(status));
      inflight := None;
      AppendCapped(rec);
      if state != Closing && state != Closed {
        state := Idle;
      }
      ok := true;
    }

    /** `running` says that there is a run whose cancel function and done channel the
        closer gets. */
    method StartClose(reason: string) returns (rec: Option<LineRecord>, running: bool, first: bool)
      modifies this
      ensures View() == BeginClose(old(View()), reason) && lastActive == old(lastActive)
      ensures first == !IsClosing(old(View()))
      ensures rec == if first then old(inflight) else None
      ensures running == (first && old(runOpen))
    {
      if state == Closing || state == Closed {
        return None, false, false;
      }
      state := Closing;
      closeReason := reason;
      return inflight, runOpen, true;
    }

    method SetClosed()
      modifies this
      ensures View() == MarkClosed(old(View())) && lastActive == old(lastActive)
    {
      state := Closed;
    }

    method DropWhileClosing(id: RequestId, status: Status)
      modifies this
      ensures View() == DropOnClose(old(View()), id, status) && lastActive == old(lastActive)
    {
      if inflight.None? || inflight.value.id != id || inflight.value.phase == Running {
        return;
      }
      var rec := inflight.value.(state := Some(status));
      inflight := None;
      history := history + [rec];
    }
  }
}
