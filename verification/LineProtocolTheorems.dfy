/**
 What the line protocol guarantees in every run, of any length, with any
 number of threads, under every interleaving.
 */
module LineProtocolTheorems {
  import opened LineTypes
  import opened LineGate
  import opened ApprovalMeaning
  import opened LineProtocol
  import opened LineProtocolProof
  import opened LineProtocolRuns
  import opened LineProtocolCalls

  // ----- what is granted and what is called -----

  /** `beginDelivery` grants a request at most once, on an open gate, and only after
      the request won the approval or was recorded auto_running; the line carries the
      context of the approval screen, which is the gate's own at that moment; and a
      line that no human saw is one that may run unseen. */
  lemma GateGrantsWhatWasDecided(run: seq<World>, i: nat, k: nat)
    requires IsRun(run) && i < |run| && k < |run[i].deliveries|
    ensures var d := run[i].deliveries[k];
            && !IsClosing(d.gate)
            && d.status == (if d.approved then ReqRunning else ReqAutoRunning)
            && Snapshot(d.plan, d.gate)
            && Snapshot(d.shown, d.gate) && d.shown.line == d.plan.line
            && (!d.approved ==> MayRunUnseen(d.plan.tainted, d.plan.cls, d.limit))
    ensures forall j :: 0 <= j < |run[i].deliveries| && j != k ==>
              run[i].deliveries[j].plan.id != run[i].deliveries[k].plan.id
  {
    RunInv(run, i);
    var d := run[i].deliveries[k];
    assert DeliveryOk(d);
    AskedExactlyWhen(d.plan.tainted, d.plan.cls, d.limit);
  }

  /** The runner is called at most once for a request, with a line that the gate
      granted, while the request is in its launch state; the gate's context is
      still the one of the approval screen; and a line that no human saw is one that may
      run unseen. */
  lemma RunnerGetsWhatWasDecided(run: seq<World>, i: nat, k: nat)
    requires IsRun(run) && i < |run| && k < |run[i].calls|
    ensures var d := run[i].calls[k];
            && HoldsIn(d.gate, d.plan.id, Running)
            && d.status == (if d.approved then ReqRunning else ReqAutoRunning)
            && Snapshot(d.plan, d.gate)
            && Snapshot(d.shown, d.gate) && d.shown.line == d.plan.line
            && (!d.approved ==> MayRunUnseen(d.plan.tainted, d.plan.cls, d.limit))
            && exists m :: 0 <= m < |run[i].deliveries| && run[i].deliveries[m].plan == d.plan
    ensures forall j :: 0 <= j < |run[i].calls| && j != k ==>
              run[i].calls[j].plan.id != run[i].calls[k].plan.id
  {
    RunCallInv(run, i);
    var d := run[i].calls[k];
    assert CallOk(d) && LetThrough(run[i], d);
    AskedExactlyWhen(d.plan.tainted, d.plan.cls, d.limit);
  }

  /** A human is asked for a line exactly when somebody wants it so or the line is
      outside what may run unseen. */
  lemma HumanIsAskedExactlyWhen(w: World, t: nat, id: RequestId, line: string, cls: LineClass, queued: Queued,
                                human: bool, setting: Risk)
    requires SendEnabled(w, DoReserve(t, id, line, cls, queued, human, setting))
    ensures var pc := StepReserve(w, t, id, line, cls, queued, human, setting).threads[t];
            pc.SendReserved? && pc.id == id && (pc.auto <==> !human && MayRunUnseen(w.gate.tainted, cls, setting))
  {
    AskedExactlyWhen(w.gate.tainted, cls, setting);
  }

  predicate OnItsWay(pc: Pc) {
    pc.Delivering? || pc.AtRunner?
  }

  /** At most one line of the session is between the gate and the runner's answer,
      and the gate's context is then still the one it was given. */
  lemma OneLineAtTheRunner(run: seq<World>, i: nat, t: nat, u: nat)
    requires IsRun(run) && i < |run|
    requires t in run[i].threads && u in run[i].threads
    requires OnItsWay(run[i].threads[t]) && OnItsWay(run[i].threads[u])
    ensures t == u
    ensures Snapshot(run[i].threads[t].rec, run[i].gate)
    ensures HoldsIn(run[i].gate, run[i].threads[t].id, Running)
  {
    RunInv(run, i);
    OneDelivers(run[i], t, u);
    ThreadIsOk(run[i], t);
    OnItsWayFits(run[i], t);
  }

  lemma OnItsWayFits(w: World, t: nat)
    requires At(w, t) && OnItsWay(w.threads[t]) && PcOk(w, w.threads[t]) && GateOk(w)
    ensures Snapshot(w.threads[t].rec, w.gate) && HoldsIn(w.gate, w.threads[t].id, Running)
  {
  }

  /** In shell mode, after a granted line that changes the shell, only lines that a
      human approved are granted. */
  lemma TaintedShellNeedsHuman(run: seq<World>, i: nat, k: nat, l: nat)
    requires IsRun(run) && i < |run| && k < l < |run[i].deliveries|
    requires run[i].deliveries[k].plan.mode == Shell && run[i].deliveries[k].plan.cls.effect == StateChange
    ensures run[i].deliveries[l].approved
  {
    RunInv(run, i);
    assert ChangesShell(run[i].deliveries[k]);
  }

  /** The same of the lines that reach the runner. */
  lemma TaintedShellRunsWithHuman(run: seq<World>, i: nat, k: nat, l: nat)
    requires IsRun(run) && i < |run| && k < l < |run[i].calls|
    requires run[i].calls[k].plan.mode == Shell && run[i].calls[k].plan.cls.effect == StateChange
    ensures run[i].calls[l].approved
  {
    RunCallInv(run, i);
    assert ChangesShell(run[i].calls[k]);
  }

  // ----- closing -----

  /** Closing settles everything: when the gate is closing or closed and no thread is
      in the middle of something, the slot is free; a request is left running exactly
      when the store refused its final state, and left pending exactly when it refused
      its withdrawal. */
  lemma ClosingSettlesEveryLine(run: seq<World>, i: nat, id: RequestId)
    requires IsRun(run) && i < |run| && IsClosing(run[i].gate) && run[i].threads == map[]
    ensures run[i].gate.inflight.None?
    ensures (id in run[i].reqs && Executing(run[i].reqs[id])) <==> id in run[i].lostFinal
    ensures StatusIs(run[i], id, ReqPending) <==> id in run[i].lostWithdraw
  {
    var w := run[i];
    RunInv(run, i);
    Facts(w, id);
    SettledWhenQuiet(w, id);
    if w.gate.inflight.Some? {
      Facts(w, w.gate.inflight.value.id);
      SlotFreeWhenQuiet(w);
    }
  }

  lemma SettledWhenQuiet(w: World, id: RequestId)
    requires IdsOk(w) && HeldFor(w, id) && IsClosing(w.gate) && w.threads == map[]
    ensures (id in w.reqs && Executing(w.reqs[id])) <==> id in w.lostFinal
    ensures StatusIs(w, id, ReqPending) <==> id in w.lostWithdraw
  {
  }

  lemma SlotFreeWhenQuiet(w: World)
    requires w.gate.inflight.Some? && HeldFor(w, w.gate.inflight.value.id)
    ensures IsClosing(w.gate) ==> w.threads != map[]
  {
  }

  // ----- the context -----

  predicate SameContext(g: Gate, h: Gate) {
    g.cwd == h.cwd && g.env == h.env && g.unset == h.unset && g.tainted == h.tainted
  }

  /** The session's context moves only when the granted line in flight is finished,
      and then exactly by that line's effect. */
  lemma ContextMovesOnlyWithItsLine(run: seq<World>, i: nat)
    requires IsRun(run) && 0 < i < |run| && !SameContext(run[i - 1].gate, run[i].gate)
    ensures var w := run[i - 1];
            && w.gate.inflight.Some? && w.gate.inflight.value.phase == Running
            && WasDelivered(w, w.gate.inflight.value.id)
            && exists o :: SameContext(run[i].gate, ApplyEffect(w.gate, w.gate.inflight.value, o))
  {
    RunInv(run, i - 1);
    var w := run[i - 1];
    var s := StepTaken(run, i);
    OnlyFreeMovesContext(w, s);
    ThreadIsOk(w, s.line.t);
    FreeMovesByTheLine(w, s.line.t);
  }

  lemma ThreadIsOk(w: World, t: nat)
    requires Inv(w) && At(w, t)
    ensures PcOk(w, w.threads[t]) && GateOk(w)
  {
  }

  lemma FreeMovesByTheLine(w: World, t: nat)
    requires LineEnabled(w, DoFree(t)) && PcOk(w, w.threads[t]) && GateOk(w)
    ensures w.gate.inflight.Some? && w.gate.inflight.value.phase == Running
    ensures WasDelivered(w, w.gate.inflight.value.id)
    ensures exists o :: SameContext(StepFree(w, t).gate, ApplyEffect(w.gate, w.gate.inflight.value, o))
  {
    var pc := w.threads[t];
    FinishAppliesEffect(w.gate, pc.rec, pc.outcome, pc.final);
    assert SameContext(StepFree(w, t).gate, ApplyEffect(w.gate, w.gate.inflight.value, pc.outcome));
  }

  lemma FinishAppliesEffect(g: Gate, rec: LineRecord, o: Outcome, final: Status)
    ensures SameContext(FinishLine(g, rec, true, o, final), ApplyEffect(g, rec, o))
  {
  }

  lemma OnlyFreeMovesContext(w: World, s: Step)
    requires Enabled(w, s) && !SameContext(w.gate, Do(w, s).gate)
    ensures s.LineDo? && s.line.DoFree?
  {
    match s
    case SendDo(x) => SendKeepsContext(w, x);
    case LineDo(x) => LineKeepsContext(w, x);
    case DecideDo(x) => DecideKeepsContext(w, x);
    case CloseDo(x) => CloseKeepsContext(w, x);
  }

  lemma SendKeepsContext(w: World, s: SendStep)
    requires SendEnabled(w, s)
    ensures SameContext(w.gate, SendStepped(w, s).gate)
  {
    match s
    case DoReserve(t, id, line, cls, queued, human, setting) => ReserveKeepsContext(w.gate, id, line, cls, queued);
    case DoRelease(t) => ReleaseKeepsContext(w.gate, w.threads[t].id);
    case DoMark(t) => MarkKeepsContext(w.gate, w.threads[t].id);
    case _ =>
  }

  lemma ReserveKeepsContext(g: Gate, id: RequestId, line: string, cls: LineClass, queued: Queued)
    ensures SameContext(g, Reserve(g, id, line, cls, queued))
  {
  }

  lemma ReleaseKeepsContext(g: Gate, id: RequestId)
    ensures SameContext(g, Release(g, id))
  {
  }

  lemma MarkKeepsContext(g: Gate, id: RequestId)
    ensures SameContext(g, MarkPending(g, id))
  {
  }

  lemma LineKeepsContext(w: World, s: LineStep)
    requires LineEnabled(w, s)
    ensures s.DoFree? || SameContext(w.gate, LineStepped(w, s).gate)
  {
  }

  lemma DecideKeepsContext(w: World, s: DecideStep)
    requires DecideEnabled(w, s)
    ensures SameContext(w.gate, DecideStepped(w, s).gate)
  {
  }

  lemma CloseKeepsContext(w: World, s: CloseStep)
    requires CloseEnabled(w, s)
    ensures SameContext(w.gate, CloseStepped(w, s).gate)
  {
    match s
    case DoClose(t, reason) => StepCloseKeepsContext(w, t, reason);
    case DoDrop(t) => StepDropKeepsContext(w, t);
    case _ =>
  }

  lemma StepCloseKeepsContext(w: World, t: nat, reason: string)
    requires CloseEnabled(w, DoClose(t, reason))
    ensures SameContext(w.gate, StepClose(w, t, reason).gate)
  {
  }

  lemma StepDropKeepsContext(w: World, t: nat)
    requires CloseEnabled(w, DoDrop(t))
    ensures SameContext(w.gate, StepDrop(w, t).gate)
  {
  }
}
