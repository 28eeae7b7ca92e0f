/**
 The gate's history of finished lines: how long it gets, and when it lists a
 request twice.
 */
module LineProtocolHistory {
  import opened LineTypes
  import opened LineGate
  import opened LineProtocol
  import opened LineProtocolProof
  import opened LineProtocolRuns
  import opened LineProtocolExamples

  ghost predicate Listed(g: Gate, id: RequestId) {
    exists i :: 0 <= i < |g.history| && g.history[i].id == id
  }

  /** The slot was freed by dropping this line, and nothing was listed since. */
  predicate JustListed(g: Gate, id: RequestId) {
    g.inflight.None? && g.history != [] && g.history[|g.history| - 1].id == id
  }

  predicate Waiting(g: Gate, id: RequestId) {
    HoldsLine(g, id) && g.inflight.value.phase != Running
  }

  /** The gate turned the thread away. */
  predicate TurnedAway(pc: Pc) {
    pc.SendWithdraw? || pc.SendDrop? || pc.Refused? || pc.RefusedLook?
  }

  // ----- the invariant -----

  predicate PlaceOk(g: Gate, pc: Pc) {
    && (TurnedAway(pc) ==> IsClosing(g) || !Waiting(g, pc.id))
    && (pc.RefusedFree? ==> IsClosing(g) && (Waiting(g, pc.id) || JustListed(g, pc.id)))
    && (pc.SendMark? ==> !HoldsIn(g, pc.id, Pending))
  }

  /** Only a close that dropped the waiting line leaves one entry more than are kept. */
  ghost predicate HistoryOk(g: Gate, used: set<RequestId>) {
    && (|g.history| <= HISTORY_KEEP
        || (IsClosing(g) && g.inflight.None? && |g.history| == HISTORY_KEEP + 1))
    && (forall i :: 0 <= i < |g.history| ==> g.history[i].id in used)
    && (g.inflight.Some? ==> g.inflight.value.id in used && !Listed(g, g.inflight.value.id))
  }

  predicate SameMark(p: Pc, q: Pc) {
    p.SendMark? && q.SendMark? && p.id == q.id
  }

  ghost predicate OneMarker(w: World) {
    forall t, u :: t in w.threads && u in w.threads && SameMark(w.threads[t], w.threads[u]) ==> t == u
  }

  ghost predicate HistInv(w: World) {
    && HistoryOk(w.gate, w.used)
    && OneMarker(w)
    && (forall t :: t in w.threads ==> PlaceOk(w.gate, w.threads[t]))
  }

  // ----- what the gate's operations do to the history -----

  lemma KeptLast(h: seq<LineRecord>, rec: LineRecord)
    ensures var k := KeepLast(h + [rec]);
            && 0 < |k| <= HISTORY_KEEP && k[|k| - 1] == rec
            && (forall i :: 0 <= i < |k| ==> k[i] == rec || k[i] in h)
            && (h != [] ==> |k| >= 2 && k[|k| - 2] == h[|h| - 1])
  {
  }

  lemma FinishHistory(g: Gate, rec: LineRecord, delivered: bool, o: Outcome, final: Status)
    ensures var g' := FinishLine(g, rec, delivered, o, final);
            && g'.history == KeepLast(g.history + [Finished(rec, o, final)])
            && g'.inflight == (if HoldsLine(g, rec.id) then None else g.inflight)
            && (IsClosing(g') <==> IsClosing(g))
  {
    EffectKeeps(g, rec, o);
  }

  lemma EffectKeeps(g: Gate, rec: LineRecord, o: Outcome)
    ensures var g' := ApplyEffect(g, rec, o);
            g'.history == g.history && g'.inflight == g.inflight && g'.state == g.state
  {
  }

  /** A record goes to the end of the capped history and its line leaves the slot. */
  lemma AppendedOk(g: Gate, g': Gate, used: set<RequestId>, rec: LineRecord)
    requires HistoryOk(g, used) && rec.id in used
    requires g'.history == KeepLast(g.history + [rec])
    requires g'.inflight == if HoldsLine(g, rec.id) then None else g.inflight
    ensures HistoryOk(g', used)
  {
    KeptLast(g.history, rec);
    forall i | 0 <= i < |g'.history|
      ensures g'.history[i].id in used
      ensures g'.inflight.Some? ==> g'.history[i].id != g'.inflight.value.id
    {
      if g'.history[i] != rec {
        var k :| 0 <= k < |g.history| && g.history[k] == g'.history[i];
      }
    }
  }

  lemma DroppedPendingOk(g: Gate, used: set<RequestId>, id: RequestId, status: Status)
    requires HistoryOk(g, used)
    ensures HistoryOk(DropPending(g, id, status), used)
  {
    if HoldsIn(g, id, Pending) {
      AppendedOk(g, DropPending(g, id, status), used, g.inflight.value.(state := Some(status)));
    }
  }

  lemma DroppedOnCloseOk(g: Gate, used: set<RequestId>, id: RequestId, status: Status)
    requires HistoryOk(g, used) && (Waiting(g, id) ==> IsClosing(g))
    ensures HistoryOk(DropOnClose(g, id, status), used)
  {
  }

  // ----- threads that do not move -----

  /** A step at the gate that the other thread `pc` does not mind. */
  predicate Unharmed(g: Gate, g': Gate, pc: Pc) {
    && (IsClosing(g) ==> IsClosing(g'))
    && (!pc.CloseMark? ==>
          && (Waiting(g', pc.id) ==> Waiting(g, pc.id))
          && (HoldsIn(g', pc.id, Pending) ==> HoldsIn(g, pc.id, Pending) || !pc.SendMark?)
          && (pc.RefusedFree? && Waiting(g, pc.id) ==> Waiting(g', pc.id) || JustListed(g', pc.id))
          && (pc.RefusedFree? && JustListed(g, pc.id) ==> JustListed(g', pc.id)))
  }

  lemma UnharmedOk(g: Gate, g': Gate, pc: Pc)
    requires PlaceOk(g, pc) && Unharmed(g, g', pc)
    ensures PlaceOk(g', pc)
  {
  }

  /** Thread `t` moved; it did not become a second marker of a request. */
  lemma Moved(w: World, w': World, t: nat)
    requires HistInv(w) && OnlyMoves(w, w', t) && HistoryOk(w'.gate, w'.used)
    requires t in w'.threads ==> PlaceOk(w'.gate, w'.threads[t])
    requires forall u :: u in w.threads && u != t ==> Unharmed(w.gate, w'.gate, w.threads[u])
    requires t in w'.threads ==> forall u :: u in w.threads && u != t ==> !SameMark(w.threads[u], w'.threads[t])
    ensures HistInv(w')
  {
    forall u | u in w'.threads ensures PlaceOk(w'.gate, w'.threads[u]) {
      if u != t {
        UnharmedOk(w.gate, w'.gate, w.threads[u]);
      }
    }
  }

  /** The gate stays as it is. */
  lemma MovedAside(w: World, w': World, t: nat)
    requires HistInv(w) && OnlyMoves(w, w', t) && w'.gate == w.gate && w'.used == w.used
    requires t in w'.threads ==> PlaceOk(w.gate, w'.threads[t]) && !w'.threads[t].SendMark?
    ensures HistInv(w')
  {
    Moved(w, w', t);
  }

  // ----- the steps that leave the gate alone -----

  lemma SendAside(w: World, s: SendStep)
    requires SendEnabled(w, s) && (s.DoQueue? || s.DoSlotRefused? || s.DoLink?)
    ensures var w' := SendStepped(w, s);
            && OnlyMoves(w, w', s.t) && w'.gate == w.gate && w'.used == w.used
            && PlaceOk(w.gate, w'.threads[s.t]) && !w'.threads[s.t].SendMark?
  {
  }

  lemma LineAside(w: World, s: LineStep)
    requires LineEnabled(w, s) && (s.DoRefusedFinal? || s.DoCall? || s.DoRun? || s.DoFinal?)
    requires PlaceOk(w.gate, w.threads[s.t])
    ensures var w' := LineStepped(w, s);
            && OnlyMoves(w, w', s.t) && w'.gate == w.gate && w'.used == w.used
            && PlaceOk(w.gate, w'.threads[s.t]) && !w'.threads[s.t].SendMark?
  {
  }

  /** A line that is still held when it was refused waits, on a closing gate. */
  lemma LookAside(w: World, t: nat)
    requires At(w, t) && w.threads[t].RefusedLook? && PlaceOk(w.gate, w.threads[t])
    requires PcOk(w, w.threads[t]) && GateOk(w)
    ensures var w' := StepRefusedLook(w, t);
            && OnlyMoves(w, w', t) && w'.gate == w.gate && w'.used == w.used
            && (t in w'.threads ==> PlaceOk(w.gate, w'.threads[t]) && !w'.threads[t].SendMark?)
  {
  }

  lemma RefusedBeginAside(w: World, t: nat)
    requires At(w, t) && w.threads[t].Start? && !CanDeliver(w.gate, w.threads[t].id)
    ensures var w' := StepBegin(w, t);
            && OnlyMoves(w, w', t) && w'.gate == w.gate && w'.used == w.used
            && PlaceOk(w.gate, w'.threads[t]) && !w'.threads[t].SendMark?
  {
  }

  lemma DecideAside(w: World, s: DecideStep, t: nat)
    requires DecideEnabled(w, s) && !s.DoReconDrop?
    requires if s.DoDecide? || s.DoDelete? then t !in w.threads else t == s.t
    ensures var w' := DecideStepped(w, s);
            && OnlyMoves(w, w', t) && w'.gate == w.gate && w'.used == w.used
            && (t in w'.threads ==> PlaceOk(w.gate, w'.threads[t]) && !w'.threads[t].SendMark?)
  {
  }

  lemma CloseAside(w: World, s: CloseStep)
    requires CloseEnabled(w, s) && (s.DoWithdraw? || s.DoCloseLook?) && PlaceOk(w.gate, w.threads[s.t])
    ensures var w' := CloseStepped(w, s);
            && OnlyMoves(w, w', s.t) && w'.gate == w.gate && w'.used == w.used
            && PlaceOk(w.gate, w'.threads[s.t]) && !w'.threads[s.t].SendMark?
  {
  }

  // ----- the steps at the gate -----

  lemma ReserveHistory(w: World, t: nat, id: RequestId, line: string, cls: LineClass, queued: Queued, human: bool, setting: Risk)
    requires HistInv(w) && PcsOk(w) && SendEnabled(w, DoReserve(t, id, line, cls, queued, human, setting))
    ensures HistInv(StepReserve(w, t, id, line, cls, queued, human, setting))
  {
    var w' := StepReserve(w, t, id, line, cls, queued, human, setting);
    forall u | u in w.threads && u != t ensures Unharmed(w.gate, w'.gate, w.threads[u]) {
      assert PcOk(w, w.threads[u]) && PlaceOk(w.gate, w.threads[u]);
    }
    Moved(w, w', t);
  }

  /** The line of a thread that records a request is not the line of one inside startLine. */
  lemma ReleaseHistory(w: World, t: nat)
    requires HistInv(w) && PcsOk(w) && SendEnabled(w, DoRelease(t))
    ensures HistInv(StepRelease(w, t))
  {
    var w' := StepRelease(w, t);
    assert PcOk(w, w.threads[t]);
    forall u | u in w.threads && u != t ensures Unharmed(w.gate, w'.gate, w.threads[u]) {
      assert PcOk(w, w.threads[u]) && PlaceOk(w.gate, w.threads[u]);
    }
    Moved(w, w', t);
  }

  lemma RecordHistory(w: World, t: nat, stored: bool)
    requires HistInv(w) && PcsOk(w) && GateOk(w) && SendEnabled(w, DoRecord(t, stored))
    ensures HistInv(StepRecord(w, t, stored))
  {
    var w' := StepRecord(w, t, stored);
    assert PcOk(w, w.threads[t]);
    forall u | u in w.threads && u != t ensures t in w'.threads ==> !SameMark(w.threads[u], w'.threads[t]) {
      assert PcOk(w, w.threads[u]);
    }
    Moved(w, w', t);
  }

  lemma MarkHistory(w: World, t: nat)
    requires HistInv(w) && SendEnabled(w, DoMark(t))
    ensures HistInv(StepMark(w, t))
  {
    var w' := StepMark(w, t);
    forall u | u in w.threads && u != t ensures Unharmed(w.gate, w'.gate, w.threads[u]) {
      assert PlaceOk(w.gate, w.threads[u]) && !SameMark(w.threads[t], w.threads[u]);
    }
    Moved(w, w', t);
  }

  lemma BeginHistory(w: World, t: nat)
    requires HistInv(w) && LineEnabled(w, DoBegin(t)) && CanDeliver(w.gate, w.threads[t].id)
    ensures HistInv(StepBegin(w, t))
  {
    var w' := StepBegin(w, t);
    forall u | u in w.threads && u != t ensures Unharmed(w.gate, w'.gate, w.threads[u]) {
      assert PlaceOk(w.gate, w.threads[u]);
    }
    Moved(w, w', t);
  }

  /** Only one thread at a time is about to finish a line that was refused. */
  lemma OneRefusedFree(w: World, t: nat, u: nat)
    requires HistInv(w) && PcsOk(w) && UniqueRunner(w) && At(w, t) && At(w, u)
    requires w.threads[t].RefusedFree? && w.threads[u].RefusedFree?
    ensures t == u
  {
    assert PlaceOk(w.gate, w.threads[t]) && PlaceOk(w.gate, w.threads[u]);
    assert SameRunner(w.threads[t], w.threads[u]);
  }

  lemma RefusedFreeHistory(w: World, t: nat)
    requires HistInv(w) && PcsOk(w) && UniqueRunner(w) && LineEnabled(w, DoRefusedFree(t))
    ensures HistInv(StepRefusedFree(w, t))
  {
    var w', pc := StepRefusedFree(w, t), w.threads[t];
    assert PcOk(w, pc) && PlaceOk(w.gate, pc);
    FinishHistory(w.gate, pc.rec, false, Outcome("", false, 0, None), pc.final);
    AppendedOk(w.gate, w'.gate, w.used, Finished(pc.rec, Outcome("", false, 0, None), pc.final));
    forall u | u in w.threads && u != t ensures Unharmed(w.gate, w'.gate, w.threads[u]) {
      if w.threads[u].RefusedFree? {
        OneRefusedFree(w, t, u);
      }
    }
    Moved(w, w', t);
  }

  lemma FreeHistory(w: World, t: nat)
    requires HistInv(w) && PcsOk(w) && LineEnabled(w, DoFree(t))
    ensures HistInv(StepFree(w, t))
  {
    var w', pc := StepFree(w, t), w.threads[t];
    assert PcOk(w, pc);
    FinishHistory(w.gate, pc.rec, true, pc.outcome, pc.final);
    AppendedOk(w.gate, w'.gate, w.used, Finished(pc.rec, pc.outcome, pc.final));
    forall u | u in w.threads && u != t ensures Unharmed(w.gate, w'.gate, w.threads[u]) {
      assert PlaceOk(w.gate, w.threads[u]);
    }
    Moved(w, w', t);
  }

  lemma ReconDropHistory(w: World, t: nat)
    requires HistInv(w) && DecideEnabled(w, DoReconDrop(t))
    ensures HistInv(StepReconDrop(w, t))
  {
    var w', pc := StepReconDrop(w, t), w.threads[t];
    DroppedPendingOk(w.gate, w.used, pc.id, pc.status);
    forall u | u in w.threads && u != t ensures Unharmed(w.gate, w'.gate, w.threads[u]) {
      assert PlaceOk(w.gate, w.threads[u]);
    }
    Moved(w, w', t);
  }

  lemma DropHistory(w: World, t: nat)
    requires HistInv(w) && PcsOk(w) && CloseEnabled(w, DoDrop(t))
    ensures HistInv(StepDrop(w, t))
  {
    var w', pc := StepDrop(w, t), w.threads[t];
    assert PcOk(w, pc) && PlaceOk(w.gate, pc);
    DroppedOnCloseOk(w.gate, w.used, pc.id, if pc.SendDrop? then ReqWithdrawn else pc.status);
    forall u | u in w.threads && u != t ensures Unharmed(w.gate, w'.gate, w.threads[u]) {
      assert PlaceOk(w.gate, w.threads[u]);
    }
    Moved(w, w', t);
  }

  lemma CloseHistory(w: World, t: nat, reason: string)
    requires HistInv(w) && CloseEnabled(w, DoClose(t, reason))
    ensures HistInv(StepClose(w, t, reason))
  {
    Moved(w, StepClose(w, t, reason), t);
  }

  lemma CloseMarkHistory(w: World, t: nat)
    requires HistInv(w) && PcsOk(w) && CloseEnabled(w, DoCloseMark(t))
    ensures HistInv(CloseStepped(w, DoCloseMark(t)))
  {
    assert PcOk(w, w.threads[t]);
    Moved(w, CloseStepped(w, DoCloseMark(t)), t);
  }

  // ----- every step, every run -----

  lemma SendHistory(w: World, s: SendStep)
    requires HistInv(w) && PcsOk(w) && GateOk(w) && SendEnabled(w, s)
    ensures HistInv(SendStepped(w, s))
  {
    match s
    case DoReserve(t, id, line, cls, queued, human, setting) => ReserveHistory(w, t, id, line, cls, queued, human, setting);
    case DoRecord(t, stored) => RecordHistory(w, t, stored);
    case DoRelease(t) => ReleaseHistory(w, t);
    case DoMark(t) => MarkHistory(w, t);
    case _ =>
      SendAside(w, s);
      MovedAside(w, SendStepped(w, s), s.t);
  }

  lemma LineHistory(w: World, s: LineStep)
    requires HistInv(w) && PcsOk(w) && GateOk(w) && UniqueRunner(w) && LineEnabled(w, s)
    ensures HistInv(LineStepped(w, s))
  {
    match s
    case DoBegin(t) =>
      if CanDeliver(w.gate, w.threads[t].id) {
        BeginHistory(w, t);
      } else {
        RefusedBeginAside(w, t);
        MovedAside(w, StepBegin(w, t), t);
      }
    case DoRefusedLook(t) =>
      LookAside(w, t);
      MovedAside(w, StepRefusedLook(w, t), t);
    case DoRefusedFree(t) => RefusedFreeHistory(w, t);
    case DoFree(t) => FreeHistory(w, t);
    case _ =>
      LineAside(w, s);
      MovedAside(w, LineStepped(w, s), s.t);
  }

  lemma DecideHistory(w: World, s: DecideStep)
    requires HistInv(w) && DecideEnabled(w, s)
    ensures HistInv(DecideStepped(w, s))
  {
    if s.DoReconDrop? {
      ReconDropHistory(w, s.t);
    } else {
      FreshThread(w);
      var free: nat :| free !in w.threads;
      var t := if s.DoDecide? || s.DoDelete? then free else s.t;
      DecideAside(w, s, t);
      MovedAside(w, DecideStepped(w, s), t);
    }
  }

  lemma CloseStepHistory(w: World, s: CloseStep)
    requires HistInv(w) && PcsOk(w) && CloseEnabled(w, s)
    ensures HistInv(CloseStepped(w, s))
  {
    match s
    case DoClose(t, reason) => CloseHistory(w, t, reason);
    case DoDrop(t) => DropHistory(w, t);
    case DoCloseMark(t) => CloseMarkHistory(w, t);
    case _ =>
      CloseAside(w, s);
      MovedAside(w, CloseStepped(w, s), s.t);
  }

  lemma SoundParts(w: World)
    requires Inv(w)
    ensures PcsOk(w) && GateOk(w) && UniqueRunner(w)
  {
  }

  lemma StepHistory(w: World, s: Step)
    requires HistInv(w) && PcsOk(w) && GateOk(w) && UniqueRunner(w) && Enabled(w, s)
    ensures HistInv(Do(w, s))
  {
    match s
    case SendDo(x) => SendHistory(w, x);
    case LineDo(x) => LineHistory(w, x);
    case DecideDo(x) => DecideHistory(w, x);
    case CloseDo(x) => CloseStepHistory(w, x);
  }

  lemma {:induction false} RunHistory(run: seq<World>, i: nat)
    requires IsRun(run) && i < |run|
    ensures HistInv(run[i])
  {
    if i > 0 {
      RunHistory(run, i - 1);
      RunInv(run, i - 1);
      SoundParts(run[i - 1]);
      var s := StepTaken(run, i);
      StepHistory(run[i - 1], s);
    }
  }

  /** The history never lists more than one line above the limit, and that one only
      after a close dropped the waiting line. */
  lemma HistoryIsBounded(run: seq<World>, i: nat)
    requires IsRun(run) && i < |run|
    ensures var g := run[i].gate;
            && |g.history| <= HISTORY_KEEP + 1
            && (|g.history| > HISTORY_KEEP ==> IsClosing(g) && g.inflight.None?)
  {
    RunHistory(run, i);
  }

  // ----- listed twice -----

  ghost predicate TwiceIn(h: seq<LineRecord>, id: RequestId) {
    exists i, j :: 0 <= i < j < |h| && h[i].id == id && h[j].id == id
  }

  /** Where a second entry can come from. */
  lemma AddedEntry(h: seq<LineRecord>, rec: LineRecord, id: RequestId)
    requires !TwiceIn(h, id) && TwiceIn(h + [rec], id)
    ensures rec.id == id && exists i :: 0 <= i < |h| && h[i].id == id
  {
    var i, j :| 0 <= i < j < |h + [rec]| && (h + [rec])[i].id == id && (h + [rec])[j].id == id;
    assert h[i].id == id;
  }

  lemma SecondEntry(h: seq<LineRecord>, rec: LineRecord, id: RequestId)
    requires !TwiceIn(h, id) && TwiceIn(KeepLast(h + [rec]), id)
    ensures rec.id == id && exists i :: 0 <= i < |h| && h[i].id == id
  {
    var all, k := h + [rec], KeepLast(h + [rec]);
    var d := |all| - |k|;
    var i, j :| 0 <= i < j < |k| && k[i].id == id && k[j].id == id;
    assert all[i + d] == k[i] && all[j + d] == k[j];
    AddedEntry(h, rec, id);
  }

  /** The thread finishes a line that the gate refused. */
  predicate FinishesRefused(w: World, w': World, t: nat, id: RequestId) {
    At(w, t) && w.threads[t].RefusedFree? && w.threads[t].id == id && w' == StepRefusedFree(w, t)
  }

  lemma SendListsNothing(w: World, s: SendStep)
    requires SendEnabled(w, s)
    ensures SendStepped(w, s).gate.history == w.gate.history
  {
  }

  lemma LineListsNothing(w: World, s: LineStep)
    requires LineEnabled(w, s) && !s.DoFree? && !s.DoRefusedFree?
    ensures LineStepped(w, s).gate.history == w.gate.history
  {
  }

  lemma DecideListsNothing(w: World, s: DecideStep)
    requires DecideEnabled(w, s) && !s.DoReconDrop?
    ensures DecideStepped(w, s).gate.history == w.gate.history
  {
  }

  lemma CloseListsNothing(w: World, s: CloseStep)
    requires CloseEnabled(w, s) && !s.DoDrop?
    ensures CloseStepped(w, s).gate.history == w.gate.history
  {
  }

  /** A line that leaves the slot with its entry was not listed before. */
  lemma FreeListsOnce(w: World, t: nat, id: RequestId)
    requires HistoryOk(w.gate, w.used) && PcsOk(w) && LineEnabled(w, DoFree(t)) && !TwiceIn(w.gate.history, id)
    ensures !TwiceIn(StepFree(w, t).gate.history, id)
  {
    var pc := w.threads[t];
    assert PcOk(w, pc);
    FinishHistory(w.gate, pc.rec, true, pc.outcome, pc.final);
    if TwiceIn(StepFree(w, t).gate.history, id) {
      SecondEntry(w.gate.history, Finished(pc.rec, pc.outcome, pc.final), id);
    }
  }

  lemma ReconDropListsOnce(w: World, t: nat, id: RequestId)
    requires HistoryOk(w.gate, w.used) && DecideEnabled(w, DoReconDrop(t)) && !TwiceIn(w.gate.history, id)
    ensures !TwiceIn(StepReconDrop(w, t).gate.history, id)
  {
    var pc := w.threads[t];
    if TwiceIn(StepReconDrop(w, t).gate.history, id) {
      SecondEntry(w.gate.history, w.gate.inflight.value.(state := Some(pc.status)), id);
    }
  }

  lemma DropListsOnce(g: Gate, used: set<RequestId>, x: RequestId, status: Status, id: RequestId)
    requires HistoryOk(g, used) && !TwiceIn(g.history, id)
    ensures !TwiceIn(DropOnClose(g, x, status).history, id)
  {
    if Waiting(g, x) && TwiceIn(DropOnClose(g, x, status).history, id) {
      AddedEntry(g.history, g.inflight.value.(state := Some(status)), id);
    }
  }

  lemma RefusedListsAgain(w: World, t: nat, id: RequestId)
    requires HistInv(w) && PcsOk(w) && LineEnabled(w, DoRefusedFree(t)) && !TwiceIn(w.gate.history, id)
    ensures TwiceIn(StepRefusedFree(w, t).gate.history, id) <==> w.threads[t].id == id && Listed(w.gate, id)
  {
    var pc := w.threads[t];
    assert PcOk(w, pc) && PlaceOk(w.gate, pc);
    FinishListsAgain(w.gate, w.used, pc.rec, Outcome("", false, 0, None), pc.final, id);
  }

  lemma FinishListsAgain(g: Gate, used: set<RequestId>, rec: LineRecord, o: Outcome, final: Status, id: RequestId)
    requires HistoryOk(g, used) && (Waiting(g, rec.id) || JustListed(g, rec.id)) && !TwiceIn(g.history, id)
    ensures TwiceIn(FinishLine(g, rec, false, o, final).history, id) <==> rec.id == id && Listed(g, id)
  {
    FinishHistory(g, rec, false, o, final);
    if TwiceIn(FinishLine(g, rec, false, o, final).history, id) {
      SecondEntry(g.history, Finished(rec, o, final), id);
    }
    if rec.id == id && Listed(g, id) {
      AgainBehindItself(g.history, Finished(rec, o, final));
    }
  }

  lemma AgainBehindItself(h: seq<LineRecord>, rec: LineRecord)
    requires h != [] && h[|h| - 1].id == rec.id
    ensures TwiceIn(KeepLast(h + [rec]), rec.id)
  {
    var k := KeepLast(h + [rec]);
    KeptLast(h, rec);
    assert k[|k| - 2].id == rec.id && k[|k| - 1].id == rec.id;
  }

  /** Whether the step lists `id` a second time. */
  lemma StepListsTwice(w: World, s: Step, id: RequestId)
    requires HistInv(w) && PcsOk(w) && Enabled(w, s) && !TwiceIn(w.gate.history, id)
    ensures TwiceIn(Do(w, s).gate.history, id) <==>
              s.LineDo? && s.line.DoRefusedFree? && w.threads[s.line.t].id == id && Listed(w.gate, id)
  {
    match s
    case SendDo(x) => SendListsNothing(w, x);
    case LineDo(x) =>
      if x.DoRefusedFree? {
        RefusedListsAgain(w, x.t, id);
      } else if x.DoFree? {
        FreeListsOnce(w, x.t, id);
      } else {
        LineListsNothing(w, x);
      }
    case DecideDo(x) =>
      if x.DoReconDrop? {
        ReconDropListsOnce(w, x.t, id);
      } else {
        DecideListsNothing(w, x);
      }
    case CloseDo(x) =>
      if x.DoDrop? {
        DropListsOnce(w.gate, w.used, w.threads[x.t].id,
                      if w.threads[x.t].SendDrop? then ReqWithdrawn else w.threads[x.t].status, id);
      } else {
        CloseListsNothing(w, x);
      }
  }

  ghost predicate RefusedLineFinishes(w: World, w': World, id: RequestId) {
    exists t :: FinishesRefused(w, w', t, id)
  }

  lemma StepListsTwiceWhen(w: World, s: Step, id: RequestId)
    requires HistInv(w) && PcsOk(w) && Enabled(w, s) && !TwiceIn(w.gate.history, id)
    ensures TwiceIn(Do(w, s).gate.history, id) <==> Listed(w.gate, id) && RefusedLineFinishes(w, Do(w, s), id)
  {
    StepListsTwice(w, s, id);
    if TwiceIn(Do(w, s).gate.history, id) {
      assert FinishesRefused(w, Do(w, s), s.line.t, id);
    }
    if t :| Listed(w.gate, id) && FinishesRefused(w, Do(w, s), t, id) {
      RefusedListsAgain(w, t, id);
    }
  }

  /** The history lists a request a second time exactly when a refused begin finishes its
      line although the line was dropped, and so listed, in between. */
  lemma ListedTwiceExactlyWhen(run: seq<World>, i: nat, id: RequestId)
    requires IsRun(run) && 0 < i < |run| && !TwiceIn(run[i - 1].gate.history, id)
    ensures TwiceIn(run[i].gate.history, id) <==>
              Listed(run[i - 1].gate, id) && RefusedLineFinishes(run[i - 1], run[i], id)
  {
    RunHistory(run, i - 1);
    RunInv(run, i - 1);
    SoundParts(run[i - 1]);
    var s := StepTaken(run, i);
    StepListsTwiceWhen(run[i - 1], s, id);
  }

  // ----- such a run -----

  predicate Approving(w: World) {
    && w.threads == map[0 := ApproveCas(0)] && HoldsIn(w.gate, 0, Pending) && !IsClosing(w.gate)
    && StatusIs(w, 0, ReqPending) && w.gate.history == []
  }

  predicate ClosedUnder(w: World) {
    && w.threads == map[0 := ApproveCas(0), 1 := CloseWithdraw(0)] && HoldsIn(w.gate, 0, Pending) && IsClosing(w.gate)
    && StatusIs(w, 0, ReqPending) && w.gate.history == []
  }

  predicate Approved(w: World) {
    && w.threads == map[0 := Start(0, true, High), 1 := CloseWithdraw(0)] && HoldsIn(w.gate, 0, Pending)
    && IsClosing(w.gate) && StatusIs(w, 0, ReqRunning) && w.gate.history == []
  }

  predicate RefusedBegin(w: World) {
    && w.threads == map[0 := Refused(0, true), 1 := CloseWithdraw(0)] && HoldsIn(w.gate, 0, Pending)
    && IsClosing(w.gate) && StatusIs(w, 0, ReqRunning) && w.gate.history == []
  }

  predicate Failed(w: World) {
    && w.threads == map[0 := RefusedLook(0, ReqFailed), 1 := CloseWithdraw(0)] && HoldsIn(w.gate, 0, Pending)
    && StatusIs(w, 0, ReqFailed) && w.gate.history == []
  }

  predicate Looked(w: World) {
    && w.threads.Keys == {0, 1} && w.threads[0].RefusedFree? && w.threads[0].rec.id == 0
    && w.threads[1] == CloseWithdraw(0) && HoldsIn(w.gate, 0, Pending)
    && StatusIs(w, 0, ReqFailed) && w.gate.history == []
  }

  predicate NotWithdrawn(w: World) {
    && w.threads.Keys == {0, 1} && w.threads[0].RefusedFree? && w.threads[0].rec.id == 0
    && w.threads[1] == CloseLook(0) && HoldsIn(w.gate, 0, Pending)
    && StatusIs(w, 0, ReqFailed) && w.gate.history == []
  }

  predicate ToBeDropped(w: World) {
    && w.threads.Keys == {0, 1} && w.threads[0].RefusedFree? && w.threads[0].rec.id == 0
    && w.threads[1] == CloseDrop(0, ReqFailed) && HoldsIn(w.gate, 0, Pending) && w.gate.history == []
  }

  predicate Dropped(w: World) {
    && w.threads.Keys == {0, 1} && w.threads[0].RefusedFree? && w.threads[0].rec.id == 0
    && w.gate.inflight.None? && |w.gate.history| == 1 && w.gate.history[0].id == 0
  }

  predicate Twice(w: World) {
    |w.gate.history| == 2 && w.gate.history[0].id == 0 && w.gate.history[1].id == 0
  }

  lemma ToApproving(w: World)
    requires HumanWaits(w)
    ensures Enabled(w, DecideDo(DoApprove(0, 0))) && Approving(Do(w, DecideDo(DoApprove(0, 0))))
  {
  }

  lemma ToClosedUnder(w: World)
    requires Approving(w)
    ensures Enabled(w, CloseDo(DoClose(1, "idle"))) && ClosedUnder(Do(w, CloseDo(DoClose(1, "idle"))))
  {
  }

  lemma ToApproved(w: World)
    requires ClosedUnder(w)
    ensures Enabled(w, DecideDo(DoApproveCas(0, true))) && Approved(Do(w, DecideDo(DoApproveCas(0, true))))
  {
  }

  lemma ToRefusedBegin(w: World)
    requires Approved(w)
    ensures Enabled(w, LineDo(DoBegin(0))) && RefusedBegin(Do(w, LineDo(DoBegin(0))))
  {
  }

  lemma ToFailed(w: World)
    requires RefusedBegin(w)
    ensures Enabled(w, LineDo(DoRefusedFinal(0, true))) && Failed(Do(w, LineDo(DoRefusedFinal(0, true))))
  {
  }

  lemma ToLooked(w: World)
    requires Failed(w)
    ensures Enabled(w, LineDo(DoRefusedLook(0))) && Looked(Do(w, LineDo(DoRefusedLook(0))))
  {
  }

  lemma ToNotWithdrawn(w: World)
    requires Looked(w)
    ensures Enabled(w, CloseDo(DoWithdraw(1, true))) && NotWithdrawn(Do(w, CloseDo(DoWithdraw(1, true))))
  {
  }

  lemma ToToBeDropped(w: World)
    requires NotWithdrawn(w)
    ensures Enabled(w, CloseDo(DoCloseLook(1))) && ToBeDropped(Do(w, CloseDo(DoCloseLook(1))))
  {
  }

  lemma ToDropped(w: World)
    requires ToBeDropped(w)
    ensures Enabled(w, CloseDo(DoDrop(1))) && Dropped(Do(w, CloseDo(DoDrop(1))))
  {
  }

  lemma ToTwice(w: World)
    requires Dropped(w)
    ensures Enabled(w, LineDo(DoRefusedFree(0))) && Twice(Do(w, LineDo(DoRefusedFree(0))))
  {
  }

  lemma RefusedLineLooked() returns (run: seq<World>)
    ensures IsRun(run) && Looked(run[|run| - 1])
  {
    run := HumanLineWaits();
    ToApproving(run[|run| - 1]);
    run := Extend(run, DecideDo(DoApprove(0, 0)));
    ToClosedUnder(run[|run| - 1]);
    run := Extend(run, CloseDo(DoClose(1, "idle")));
    ToApproved(run[|run| - 1]);
    run := Extend(run, DecideDo(DoApproveCas(0, true)));
    ToRefusedBegin(run[|run| - 1]);
    run := Extend(run, LineDo(DoBegin(0)));
    ToFailed(run[|run| - 1]);
    run := Extend(run, LineDo(DoRefusedFinal(0, true)));
    ToLooked(run[|run| - 1]);
    run := Extend(run, LineDo(DoRefusedLook(0)));
  }

  /** The close drops a line between the refusal of its begin and the end of it. */
  lemma RequestIsListedTwice() returns (run: seq<World>)
    ensures IsRun(run) && TwiceIn(run[|run| - 1].gate.history, 0)
  {
    run := RefusedLineLooked();
    ToNotWithdrawn(run[|run| - 1]);
    run := Extend(run, CloseDo(DoWithdraw(1, true)));
    ToToBeDropped(run[|run| - 1]);
    run := Extend(run, CloseDo(DoCloseLook(1)));
    ToDropped(run[|run| - 1]);
    run := Extend(run, CloseDo(DoDrop(1)));
    ToTwice(run[|run| - 1]);
    run := Extend(run, LineDo(DoRefusedFree(0)));
    assert run[|run| - 1].gate.history[0].id == 0 && run[|run| - 1].gate.history[1].id == 0;
  }
}
