/**
 Every step of the line protocol keeps the invariant, so every run does.
 */
module LineProtocolRuns {
  import opened LineTypes
  import opened LineGate
  import opened LineProtocol
  import opened LineProtocolProof
  import opened LineProtocolSteps

  lemma SlotRefusedSound(w: World, t: nat)
    requires Sound(w) && At(w, t) && w.threads[t].SendQueued?
    ensures Sound(Goto(w, t, SendRelease(w.threads[t].id)))
  {
    assert PcOk(w, w.threads[t]);
    QuietStep(w, Goto(w, t, SendRelease(w.threads[t].id)), t);
  }

  lemma ApproveSound(w: World, t: nat, id: RequestId)
    requires Sound(w) && Fresh(w, t) && id in w.links
    ensures Sound(Goto(w, t, ApproveCas(id)))
  {
    QuietStep(w, Goto(w, t, ApproveCas(id)), t);
  }

  lemma ReconcileSound(w: World, t: nat)
    requires Sound(w) && DecideEnabled(w, DoReconcile(t))
    ensures Sound(Goto(w, t, ReconLook(w.gate.inflight.value.id)))
  {
    QuietStep(w, Goto(w, t, ReconLook(w.gate.inflight.value.id)), t);
  }

  lemma TableOnlySound(w: World, s: DecideStep)
    requires Sound(w) && DecideEnabled(w, s) && (s.DoDecide? || s.DoDelete?)
    ensures Sound(DecideStepped(w, s))
  {
    FreshThread(w);
    var t: nat :| t !in w.threads;
    TableStep(w, DecideStepped(w, s), t, s.id);
  }

  lemma FreshThread(w: World)
    ensures exists t: nat :: t !in w.threads
  {
    var n := MaxThread(w.threads.Keys);
    assert n + 1 !in w.threads;
  }

  lemma {:induction false} MaxThread(s: set<nat>) returns (n: nat)
    ensures forall x :: x in s ==> x <= n
  {
    if s == {} {
      n := 0;
    } else {
      var x :| x in s;
      var m := MaxThread(s - {x});
      n := if x > m then x else m;
      forall y | y in s ensures y <= n {
        if y != x {
          assert y in s - {x};
        }
      }
    }
  }

  lemma CloseMarkSound(w: World, t: nat)
    requires Sound(w) && At(w, t) && w.threads[t].CloseMark?
    ensures Sound(Exit(w.(gate := MarkClosed(w.gate)), t))
  {
    assert PcOk(w, w.threads[t]);
    GateStep(w, Exit(w.(gate := MarkClosed(w.gate)), t), t);
  }

  lemma SendStepSound(w: World, s: SendStep)
    requires Sound(w) && SendEnabled(w, s)
    ensures Sound(SendStepped(w, s))
  {
    match s
    case DoReserve(t, id, line, cls, queued, human, setting) => ReserveSound(w, t, id, line, cls, queued, human, setting);
    case DoQueue(t, stored) => QueueSound(w, t, stored);
    case DoSlotRefused(t) => SlotRefusedSound(w, t);
    case DoLink(t) => LinkSound(w, t);
    case DoRecord(t, stored) => RecordSound(w, t, stored);
    case DoRelease(t) => ReleaseSound(w, t);
    case DoMark(t) => MarkSound(w, t);
  }

  lemma LineStepSound(w: World, s: LineStep)
    requires Sound(w) && LineEnabled(w, s)
    ensures Sound(LineStepped(w, s))
  {
    match s
    case DoBegin(t) => BeginSound(w, t);
    case DoRefusedFinal(t, stored) => RefusedFinalSound(w, t, stored);
    case DoRefusedLook(t) => RefusedLookSound(w, t);
    case DoRefusedFree(t) => RefusedFreeSound(w, t);
    case DoCall(t) => CallSound(w, t);
    case DoRun(t, outcome, interrupted) => RunSound(w, t, outcome, interrupted);
    case DoFinal(t, stored) => FinalSound(w, t, stored);
    case DoFree(t) => FreeSound(w, t);
  }

  lemma DecideStepSound(w: World, s: DecideStep)
    requires Sound(w) && DecideEnabled(w, s)
    ensures Sound(DecideStepped(w, s))
  {
    match s
    case DoApprove(t, id) => ApproveSound(w, t, id);
    case DoApproveCas(t, stored) => ApproveCasSound(w, t, stored);
    case DoDecide(_, _) => TableOnlySound(w, s);
    case DoReconcile(t) => ReconcileSound(w, t);
    case DoReconLook(t, due) => ReconLookSound(w, t, due);
    case DoReconExpire(t, stored) => ReconExpireSound(w, t, stored);
    case DoReconAgain(t) => ReconAgainSound(w, t);
    case DoReconDrop(t) => ReconDropSound(w, t);
    case DoDelete(_) => TableOnlySound(w, s);
  }

  lemma CloseStepSound(w: World, s: CloseStep)
    requires Sound(w) && CloseEnabled(w, s)
    ensures Sound(CloseStepped(w, s))
  {
    match s
    case DoClose(t, reason) => CloseSound(w, t, reason);
    case DoWithdraw(t, stored) => WithdrawSound(w, t, stored);
    case DoDrop(t) => DropSound(w, t);
    case DoCloseLook(t) => CloseLookSound(w, t);
    case DoCloseMark(t) => CloseMarkSound(w, t);
  }

  lemma StepSound(w: World, s: Step)
    requires Sound(w) && Enabled(w, s)
    ensures Sound(Do(w, s))
  {
    match s
    case SendDo(x) => SendStepSound(w, x);
    case LineDo(x) => LineStepSound(w, x);
    case DecideDo(x) => DecideStepSound(w, x);
    case CloseDo(x) => CloseStepSound(w, x);
  }

  lemma Facts(w: World, id: RequestId)
    requires Inv(w)
    ensures IdsOk(w) && GateOk(w) && HeldFor(w, id)
  {
  }

  lemma ThreadFact(w: World, t: nat)
    requires Inv(w) && At(w, t)
    ensures PcOk(w, w.threads[t])
  {
  }

  /** A thread that appears, gives up its slot reservation or ends a close moves no duty. */
  lemma QuietHeld(w: World, w': World, t: nat, id0: RequestId)
    requires HeldFor(w, id0) && OnlyMoves(w, w', t)
    requires w' == w.(threads := w'.threads, gate := w'.gate)
    requires w'.gate == w.gate || (w'.gate == MarkClosed(w.gate) && IsClosing(w.gate))
    requires t in w.threads && !w.threads[t].CloseMark? ==>
               t in w'.threads && w.threads[t].SendQueued? && w'.threads[t] == SendRelease(w.threads[t].id)
    ensures HeldFor(w', id0)
  {
    HeldAfter(w, w', t, id0);
  }

  lemma TableOnlyHeld(w: World, s: DecideStep, id0: RequestId)
    requires HeldFor(w, id0) && DecideEnabled(w, s) && (s.DoDecide? || s.DoDelete?)
    ensures HeldFor(DecideStepped(w, s), id0)
  {
    FreshThread(w);
    var t: nat :| t !in w.threads;
    HeldAfter(w, DecideStepped(w, s), t, id0);
  }

  lemma SendStepHeld(w: World, s: SendStep, id0: RequestId)
    requires IdsOk(w) && GateOk(w) && HeldFor(w, id0) && SendEnabled(w, s)
    requires !s.DoReserve? ==> PcOk(w, w.threads[s.t])
    ensures HeldFor(SendStepped(w, s), id0)
  {
    match s
    case DoReserve(t, id, line, cls, queued, human, setting) => ReserveHeld(w, t, id, line, cls, queued, human, setting, id0);
    case DoQueue(t, stored) => QueueHeld(w, t, stored, id0);
    case DoSlotRefused(t) => QuietHeld(w, SendStepped(w, s), t, id0);
    case DoLink(t) => LinkHeld(w, t, id0);
    case DoRecord(t, stored) => RecordHeld(w, t, stored, id0);
    case DoRelease(t) => ReleaseHeld(w, t, id0);
    case DoMark(t) => MarkHeld(w, t, id0);
  }

  lemma LineStepHeld(w: World, s: LineStep, id0: RequestId)
    requires IdsOk(w) && GateOk(w) && HeldFor(w, id0) && LineEnabled(w, s) && PcOk(w, w.threads[s.t])
    ensures HeldFor(LineStepped(w, s), id0)
  {
    match s
    case DoBegin(t) => BeginHeld(w, t, id0);
    case DoRefusedFinal(t, stored) => RefusedFinalHeld(w, t, stored, id0);
    case DoRefusedLook(t) => RefusedLookHeld(w, t, id0);
    case DoRefusedFree(t) => RefusedFreeHeld(w, t, id0);
    case DoCall(t) => CallHeld(w, t, id0);
    case DoRun(t, outcome, interrupted) => RunHeld(w, t, outcome, interrupted, id0);
    case DoFinal(t, stored) => FinalHeld(w, t, stored, id0);
    case DoFree(t) => FreeHeld(w, t, id0);
  }

  lemma DecideStepHeld(w: World, s: DecideStep, id0: RequestId)
    requires IdsOk(w) && GateOk(w) && HeldFor(w, id0) && DecideEnabled(w, s)
    requires !s.DoApprove? && !s.DoDecide? && !s.DoReconcile? && !s.DoDelete? ==> PcOk(w, w.threads[s.t])
    ensures HeldFor(DecideStepped(w, s), id0)
  {
    match s
    case DoApprove(t, _) => QuietHeld(w, DecideStepped(w, s), t, id0);
    case DoApproveCas(t, stored) => ApproveCasHeld(w, t, stored, id0);
    case DoDecide(_, _) => TableOnlyHeld(w, s, id0);
    case DoReconcile(t) => QuietHeld(w, DecideStepped(w, s), t, id0);
    case DoReconLook(t, due) => ReconLookHeld(w, t, due, id0);
    case DoReconExpire(t, stored) => ReconExpireHeld(w, t, stored, id0);
    case DoReconAgain(t) => ReconAgainHeld(w, t, id0);
    case DoReconDrop(t) => ReconDropHeld(w, t, id0);
    case DoDelete(_) => TableOnlyHeld(w, s, id0);
  }

  lemma CloseStepHeld(w: World, s: CloseStep, id0: RequestId)
    requires IdsOk(w) && GateOk(w) && HeldFor(w, id0) && CloseEnabled(w, s)
    requires !s.DoClose? ==> PcOk(w, w.threads[s.t])
    ensures HeldFor(CloseStepped(w, s), id0)
  {
    match s
    case DoClose(t, reason) => CloseHeld(w, t, reason, id0);
    case DoWithdraw(t, stored) => WithdrawHeld(w, t, stored, id0);
    case DoDrop(t) => DropHeld(w, t, id0);
    case DoCloseLook(t) => CloseLookHeld(w, t, id0);
    case DoCloseMark(t) => QuietHeld(w, CloseStepped(w, s), t, id0);
  }

  lemma StepHeld(w: World, s: Step, id0: RequestId)
    requires Inv(w) && Enabled(w, s)
    ensures HeldFor(Do(w, s), id0)
  {
    Facts(w, id0);
    match s
    case SendDo(x) =>
      if !x.DoReserve? {
        ThreadFact(w, x.t);
      }
      SendStepHeld(w, x, id0);
    case LineDo(x) =>
      ThreadFact(w, x.t);
      LineStepHeld(w, x, id0);
    case DecideDo(x) =>
      if !x.DoApprove? && !x.DoDecide? && !x.DoReconcile? && !x.DoDelete? {
        ThreadFact(w, x.t);
      }
      DecideStepHeld(w, x, id0);
    case CloseDo(x) =>
      if !x.DoClose? {
        ThreadFact(w, x.t);
      }
      CloseStepHeld(w, x, id0);
  }

  lemma InvAfter(w: World, s: Step)
    requires Inv(w) && Enabled(w, s)
    ensures Inv(Do(w, s))
  {
    StepSound(w, s);
    forall id ensures HeldFor(Do(w, s), id) {
      StepHeld(w, s, id);
    }
  }

  /** The step between two neighbours of a run. */
  lemma StepTaken(run: seq<World>, i: nat) returns (s: Step)
    requires IsRun(run) && 0 < i < |run|
    ensures Enabled(run[i - 1], s) && run[i] == Do(run[i - 1], s)
  {
    assert StepAt(run, i);
    s :| Enabled(run[i - 1], s) && run[i] == Do(run[i - 1], s);
  }

  lemma {:induction false} RunInv(run: seq<World>, i: nat)
    requires IsRun(run) && i < |run|
    ensures Inv(run[i])
  {
    if i == 0 {
      var mode, cwd :| run[0] == Init(mode, cwd);
      InitInv(mode, cwd);
    } else {
      RunInv(run, i - 1);
      var s := StepTaken(run, i);
      InvAfter(run[i - 1], s);
    }
  }

  lemma Extend(run: seq<World>, s: Step) returns (longer: seq<World>)
    requires IsRun(run) && Enabled(run[|run| - 1], s)
    ensures IsRun(longer) && |longer| == |run| + 1 && longer[|run|] == Do(run[|run| - 1], s) && run <= longer
  {
    longer := run + [Do(run[|run| - 1], s)];
    assert longer[0] == run[0];
    forall i | 0 < i < |longer| ensures StepAt(longer, i) {
      if i < |run| {
        assert StepAt(run, i);
      }
    }
  }
}
