/**
 Every step of the line protocol keeps the invariant.
 */
module LineProtocolSteps {
  import opened LineTypes
  import opened LineGate
  import opened LineProtocol
  import opened LineProtocolProof

  lemma ReserveHeld(w: World, t: nat, id: RequestId, line: string, cls: LineClass, queued: Queued, human: bool,
                    setting: Risk, id0: RequestId)
    requires IdsOk(w) && HeldFor(w, id0) && Fresh(w, t) && id !in w.used && CanReserve(w.gate)
    ensures HeldFor(StepReserve(w, t, id, line, cls, queued, human, setting), id0)
  {
    HeldAfter(w, StepReserve(w, t, id, line, cls, queued, human, setting), t, id0);
  }

  lemma QueueLands(w: World, t: nat, stored: bool)
    requires At(w, t) && PcOk(w, w.threads[t]) && w.threads[t].SendReserved?
    ensures Lands(w, StepQueue(w, t, stored), t)
  {
  }

  lemma QueueSound(w: World, t: nat, stored: bool)
    requires Sound(w) && At(w, t) && w.threads[t].SendReserved?
    ensures Sound(StepQueue(w, t, stored))
  {
    assert PcOk(w, w.threads[t]);
    QueueLands(w, t, stored);
    var w' := StepQueue(w, t, stored);
    QuietStep(w, w', t);
  }

  lemma QueueHeld(w: World, t: nat, stored: bool, id0: RequestId)
    requires HeldFor(w, id0) && At(w, t) && PcOk(w, w.threads[t]) && w.threads[t].SendReserved?
    ensures HeldFor(StepQueue(w, t, stored), id0)
  {
    HeldAfter(w, StepQueue(w, t, stored), t, id0);
  }

  lemma LinkHeld(w: World, t: nat, id0: RequestId)
    requires HeldFor(w, id0) && At(w, t) && PcOk(w, w.threads[t]) && w.threads[t].SendQueued?
    ensures HeldFor(StepLink(w, t), id0)
  {
    HeldAfter(w, StepLink(w, t), t, id0);
  }

  lemma RecordTable(w: World, t: nat, stored: bool)
    requires IdsOk(w) && At(w, t) && PcOk(w, w.threads[t]) && w.threads[t].SendLinked?
    ensures TableChange(w, StepRecord(w, t, stored), t, w.threads[t].id)
  {
  }

  lemma RecordLands(w: World, t: nat, stored: bool)
    requires IdsOk(w) && At(w, t) && PcOk(w, w.threads[t]) && w.threads[t].SendLinked?
    ensures Lands(w, StepRecord(w, t, stored), t)
  {
  }

  lemma RecordSound(w: World, t: nat, stored: bool)
    requires Sound(w) && At(w, t) && w.threads[t].SendLinked?
    ensures Sound(StepRecord(w, t, stored))
  {
    assert PcOk(w, w.threads[t]);
    RecordTable(w, t, stored);
    RecordLands(w, t, stored);
    TableStep(w, StepRecord(w, t, stored), t, w.threads[t].id);
  }

  lemma RecordHeld(w: World, t: nat, stored: bool, id0: RequestId)
    requires HeldFor(w, id0) && At(w, t) && PcOk(w, w.threads[t]) && w.threads[t].SendLinked?
    ensures HeldFor(StepRecord(w, t, stored), id0)
  {
    HeldAfter(w, StepRecord(w, t, stored), t, id0);
  }

  lemma ReleaseLands(w: World, t: nat)
    requires At(w, t) && PcOk(w, w.threads[t]) && w.threads[t].SendRelease?
    ensures Lands(w, StepRelease(w, t), t)
  {
  }

  lemma ReleaseGate(w: World, t: nat)
    requires GateOk(w) && At(w, t) && PcOk(w, w.threads[t]) && w.threads[t].SendRelease?
    ensures GateOk(StepRelease(w, t))
  {
  }

  lemma ReleaseTaint(w: World, t: nat)
    requires TaintOk(w) && GateOk(w) && At(w, t) && PcOk(w, w.threads[t]) && w.threads[t].SendRelease?
    ensures TaintOk(StepRelease(w, t))
  {
  }

  lemma ReleaseSound(w: World, t: nat)
    requires Sound(w) && At(w, t) && w.threads[t].SendRelease?
    ensures Sound(StepRelease(w, t))
  {
    assert PcOk(w, w.threads[t]);
    ReleaseLands(w, t);
    var w' := StepRelease(w, t);
    ReleaseGate(w, t);
    ReleaseTaint(w, t);
    GateStep(w, w', t);
  }

  lemma ReleaseHeld(w: World, t: nat, id0: RequestId)
    requires IdsOk(w) && GateOk(w) && HeldFor(w, id0) && At(w, t) && PcOk(w, w.threads[t]) && w.threads[t].SendRelease?
    ensures HeldFor(StepRelease(w, t), id0)
  {
    HeldAfter(w, StepRelease(w, t), t, id0);
  }

  lemma MarkHeld(w: World, t: nat, id0: RequestId)
    requires HeldFor(w, id0) && At(w, t) && w.threads[t].SendMark?
    ensures HeldFor(StepMark(w, t), id0)
  {
    HeldAfter(w, StepMark(w, t), t, id0);
  }

  lemma WithdrawTable(w: World, t: nat, stored: bool)
    requires IdsOk(w) && At(w, t) && PcOk(w, w.threads[t]) && (w.threads[t].SendWithdraw? || w.threads[t].CloseWithdraw?)
    ensures TableChange(w, StepWithdraw(w, t, stored), t, w.threads[t].id)
  {
  }

  lemma WithdrawLands(w: World, t: nat, stored: bool)
    requires IdsOk(w) && At(w, t) && PcOk(w, w.threads[t]) && (w.threads[t].SendWithdraw? || w.threads[t].CloseWithdraw?)
    ensures Lands(w, StepWithdraw(w, t, stored), t)
  {
  }

  lemma WithdrawSound(w: World, t: nat, stored: bool)
    requires Sound(w) && At(w, t) && (w.threads[t].SendWithdraw? || w.threads[t].CloseWithdraw?)
    ensures Sound(StepWithdraw(w, t, stored))
  {
    assert PcOk(w, w.threads[t]);
    WithdrawTable(w, t, stored);
    WithdrawLands(w, t, stored);
    TableStep(w, StepWithdraw(w, t, stored), t, w.threads[t].id);
  }

  lemma WithdrawOwnHeld(w: World, t: nat, stored: bool, id0: RequestId)
    requires HeldFor(w, id0) && At(w, t)
    requires w.threads[t].SendWithdraw? || w.threads[t].CloseWithdraw?
    requires PcOk(w, w.threads[t]) && id0 == w.threads[t].id
    ensures HeldFor(StepWithdraw(w, t, stored), id0)
  {
    HeldAfter(w, StepWithdraw(w, t, stored), t, id0);
  }

  lemma WithdrawOtherHeld(w: World, t: nat, stored: bool, id0: RequestId)
    requires HeldFor(w, id0) && At(w, t)
    requires (w.threads[t].SendWithdraw? || w.threads[t].CloseWithdraw?) && id0 != w.threads[t].id
    ensures HeldFor(StepWithdraw(w, t, stored), id0)
  {
    HeldAfter(w, StepWithdraw(w, t, stored), t, id0);
  }

  lemma WithdrawHeld(w: World, t: nat, stored: bool, id0: RequestId)
    requires HeldFor(w, id0) && At(w, t) && PcOk(w, w.threads[t])
    requires w.threads[t].SendWithdraw? || w.threads[t].CloseWithdraw?
    ensures HeldFor(StepWithdraw(w, t, stored), id0)
  {
    if id0 == w.threads[t].id {
      WithdrawOwnHeld(w, t, stored, id0);
    } else {
      WithdrawOtherHeld(w, t, stored, id0);
    }
  }

  lemma DropLands(w: World, t: nat)
    requires At(w, t) && PcOk(w, w.threads[t]) && (w.threads[t].SendDrop? || w.threads[t].CloseDrop?)
    ensures Lands(w, StepDrop(w, t), t)
  {
  }

  lemma DropGate(w: World, t: nat)
    requires GateOk(w) && At(w, t) && PcOk(w, w.threads[t]) && (w.threads[t].SendDrop? || w.threads[t].CloseDrop?)
    ensures GateOk(StepDrop(w, t))
  {
  }

  lemma DropTaint(w: World, t: nat)
    requires TaintOk(w) && GateOk(w) && At(w, t) && PcOk(w, w.threads[t]) && (w.threads[t].SendDrop? || w.threads[t].CloseDrop?)
    ensures TaintOk(StepDrop(w, t))
  {
  }

  lemma DropSound(w: World, t: nat)
    requires Sound(w) && At(w, t) && (w.threads[t].SendDrop? || w.threads[t].CloseDrop?)
    ensures Sound(StepDrop(w, t))
  {
    assert PcOk(w, w.threads[t]);
    DropLands(w, t);
    var w' := StepDrop(w, t);
    DropGate(w, t);
    DropTaint(w, t);
    GateStep(w, w', t);
  }

  lemma DropHeld(w: World, t: nat, id0: RequestId)
    requires HeldFor(w, id0) && At(w, t) && PcOk(w, w.threads[t]) && (w.threads[t].SendDrop? || w.threads[t].CloseDrop?)
    ensures HeldFor(StepDrop(w, t), id0)
  {
    HeldAfter(w, StepDrop(w, t), t, id0);
  }

  lemma BeginHeld(w: World, t: nat, id0: RequestId)
    requires HeldFor(w, id0) && At(w, t) && PcOk(w, w.threads[t]) && w.threads[t].Start?
    ensures HeldFor(StepBegin(w, t), id0)
  {
    HeldAfter(w, StepBegin(w, t), t, id0);
  }

  lemma RefusedFinalTable(w: World, t: nat, stored: bool)
    requires IdsOk(w) && At(w, t) && PcOk(w, w.threads[t]) && w.threads[t].Refused?
    ensures TableChange(w, StepRefusedFinal(w, t, stored), t, w.threads[t].id)
  {
  }

  lemma RefusedFinalLands(w: World, t: nat, stored: bool)
    requires At(w, t) && PcOk(w, w.threads[t]) && w.threads[t].Refused?
    ensures Lands(w, StepRefusedFinal(w, t, stored), t)
  {
  }

  lemma RefusedFinalSound(w: World, t: nat, stored: bool)
    requires Sound(w) && At(w, t) && w.threads[t].Refused?
    ensures Sound(StepRefusedFinal(w, t, stored))
  {
    assert PcOk(w, w.threads[t]);
    RefusedFinalTable(w, t, stored);
    RefusedFinalLands(w, t, stored);
    TableStep(w, StepRefusedFinal(w, t, stored), t, w.threads[t].id);
  }

  lemma RefusedFinalHeld(w: World, t: nat, stored: bool, id0: RequestId)
    requires HeldFor(w, id0) && At(w, t) && PcOk(w, w.threads[t]) && w.threads[t].Refused?
    ensures HeldFor(StepRefusedFinal(w, t, stored), id0)
  {
    HeldAfter(w, StepRefusedFinal(w, t, stored), t, id0);
  }

  lemma RefusedLookLands(w: World, t: nat)
    requires At(w, t) && PcOk(w, w.threads[t]) && w.threads[t].RefusedLook?
    ensures Lands(w, StepRefusedLook(w, t), t)
  {
  }

  lemma RefusedLookSound(w: World, t: nat)
    requires Sound(w) && At(w, t) && w.threads[t].RefusedLook?
    ensures Sound(StepRefusedLook(w, t))
  {
    assert PcOk(w, w.threads[t]);
    RefusedLookLands(w, t);
    var w' := StepRefusedLook(w, t);
    QuietStep(w, w', t);
  }

  lemma RefusedLookHeld(w: World, t: nat, id0: RequestId)
    requires HeldFor(w, id0) && At(w, t) && w.threads[t].RefusedLook?
    ensures HeldFor(StepRefusedLook(w, t), id0)
  {
    HeldAfter(w, StepRefusedLook(w, t), t, id0);
  }

  lemma RefusedFreeHeld(w: World, t: nat, id0: RequestId)
    requires HeldFor(w, id0) && At(w, t) && PcOk(w, w.threads[t]) && w.threads[t].RefusedFree?
    ensures HeldFor(StepRefusedFree(w, t), id0)
  {
    HeldAfter(w, StepRefusedFree(w, t), t, id0);
  }

  lemma KeptLands(w: World, t: nat)
    requires At(w, t) && PcOk(w, w.threads[t]) && w.threads[t].Delivering? && KeptByGateway(w.threads[t].rec)
    ensures Lands(w, StepCall(w, t), t)
  {
  }

  lemma CalledLands(w: World, t: nat)
    requires At(w, t) && PcOk(w, w.threads[t]) && w.threads[t].Delivering? && !KeptByGateway(w.threads[t].rec)
    ensures Lands(w, StepCall(w, t), t)
  {
  }

  lemma CallSound(w: World, t: nat)
    requires Sound(w) && At(w, t) && w.threads[t].Delivering?
    ensures Sound(StepCall(w, t))
  {
    assert PcOk(w, w.threads[t]);
    if KeptByGateway(w.threads[t].rec) {
      KeptLands(w, t);
    } else {
      CalledLands(w, t);
    }
    CallStep(w, StepCall(w, t), t);
  }

  lemma CallHeld(w: World, t: nat, id0: RequestId)
    requires HeldFor(w, id0) && At(w, t) && w.threads[t].Delivering?
    ensures HeldFor(StepCall(w, t), id0)
  {
    HeldAfter(w, StepCall(w, t), t, id0);
  }

  lemma RunLands(w: World, t: nat, outcome: Outcome, interrupted: bool)
    requires At(w, t) && PcOk(w, w.threads[t]) && w.threads[t].AtRunner?
    ensures Lands(w, StepRun(w, t, outcome, interrupted), t)
  {
  }

  lemma RunSound(w: World, t: nat, outcome: Outcome, interrupted: bool)
    requires Sound(w) && At(w, t) && w.threads[t].AtRunner?
    ensures Sound(StepRun(w, t, outcome, interrupted))
  {
    assert PcOk(w, w.threads[t]);
    RunLands(w, t, outcome, interrupted);
    var w' := StepRun(w, t, outcome, interrupted);
    QuietStep(w, w', t);
  }

  lemma RunHeld(w: World, t: nat, outcome: Outcome, interrupted: bool, id0: RequestId)
    requires HeldFor(w, id0) && At(w, t) && w.threads[t].AtRunner?
    ensures HeldFor(StepRun(w, t, outcome, interrupted), id0)
  {
    HeldAfter(w, StepRun(w, t, outcome, interrupted), t, id0);
  }

  lemma FinalTable(w: World, t: nat, stored: bool)
    requires IdsOk(w) && At(w, t) && PcOk(w, w.threads[t]) && w.threads[t].Ended?
    ensures TableChange(w, StepFinal(w, t, stored), t, w.threads[t].id)
  {
  }

  lemma FinalLands(w: World, t: nat, stored: bool)
    requires At(w, t) && PcOk(w, w.threads[t]) && w.threads[t].Ended?
    ensures Lands(w, StepFinal(w, t, stored), t)
  {
  }

  lemma FinalSound(w: World, t: nat, stored: bool)
    requires Sound(w) && At(w, t) && w.threads[t].Ended?
    ensures Sound(StepFinal(w, t, stored))
  {
    assert PcOk(w, w.threads[t]);
    FinalTable(w, t, stored);
    FinalLands(w, t, stored);
    TableStep(w, StepFinal(w, t, stored), t, w.threads[t].id);
  }

  lemma FinalHeld(w: World, t: nat, stored: bool, id0: RequestId)
    requires HeldFor(w, id0) && At(w, t) && PcOk(w, w.threads[t]) && w.threads[t].Ended?
    ensures HeldFor(StepFinal(w, t, stored), id0)
  {
    HeldAfter(w, StepFinal(w, t, stored), t, id0);
  }

  lemma FreeHeld(w: World, t: nat, id0: RequestId)
    requires HeldFor(w, id0) && At(w, t) && PcOk(w, w.threads[t]) && w.threads[t].Freeing?
    ensures HeldFor(StepFree(w, t), id0)
  {
    HeldAfter(w, StepFree(w, t), t, id0);
  }

  lemma ApproveCasTable(w: World, t: nat, stored: bool)
    requires IdsOk(w) && At(w, t) && PcOk(w, w.threads[t]) && w.threads[t].ApproveCas?
    ensures TableChange(w, StepApproveCas(w, t, stored), t, w.threads[t].id)
  {
  }

  lemma ApproveCasLands(w: World, t: nat, stored: bool)
    requires IdsOk(w) && At(w, t) && PcOk(w, w.threads[t]) && w.threads[t].ApproveCas?
    ensures Lands(w, StepApproveCas(w, t, stored), t)
  {
  }

  lemma ApproveCasSound(w: World, t: nat, stored: bool)
    requires Sound(w) && At(w, t) && w.threads[t].ApproveCas?
    ensures Sound(StepApproveCas(w, t, stored))
  {
    assert PcOk(w, w.threads[t]);
    ApproveCasTable(w, t, stored);
    ApproveCasLands(w, t, stored);
    TableStep(w, StepApproveCas(w, t, stored), t, w.threads[t].id);
  }

  lemma ApproveCasHeld(w: World, t: nat, stored: bool, id0: RequestId)
    requires HeldFor(w, id0) && At(w, t) && PcOk(w, w.threads[t]) && w.threads[t].ApproveCas?
    ensures HeldFor(StepApproveCas(w, t, stored), id0)
  {
    HeldAfter(w, StepApproveCas(w, t, stored), t, id0);
  }

  lemma ReconLookHeld(w: World, t: nat, due: bool, id0: RequestId)
    requires HeldFor(w, id0) && At(w, t) && w.threads[t].ReconLook?
    ensures HeldFor(StepReconLook(w, t, due), id0)
  {
    HeldAfter(w, StepReconLook(w, t, due), t, id0);
  }

  lemma ReconExpireTable(w: World, t: nat, stored: bool)
    requires IdsOk(w) && At(w, t) && PcOk(w, w.threads[t]) && w.threads[t].ReconExpire?
    ensures TableChange(w, StepReconExpire(w, t, stored), t, w.threads[t].id)
  {
  }

  lemma ReconExpireLands(w: World, t: nat, stored: bool)
    requires IdsOk(w) && At(w, t) && PcOk(w, w.threads[t]) && w.threads[t].ReconExpire?
    ensures Lands(w, StepReconExpire(w, t, stored), t)
  {
  }

  lemma ReconExpireSound(w: World, t: nat, stored: bool)
    requires Sound(w) && At(w, t) && w.threads[t].ReconExpire?
    ensures Sound(StepReconExpire(w, t, stored))
  {
    assert PcOk(w, w.threads[t]);
    ReconExpireTable(w, t, stored);
    ReconExpireLands(w, t, stored);
    TableStep(w, StepReconExpire(w, t, stored), t, w.threads[t].id);
  }

  lemma ReconExpireHeld(w: World, t: nat, stored: bool, id0: RequestId)
    requires HeldFor(w, id0) && At(w, t) && w.threads[t].ReconExpire?
    ensures HeldFor(StepReconExpire(w, t, stored), id0)
  {
    HeldAfter(w, StepReconExpire(w, t, stored), t, id0);
  }

  lemma ReconAgainLands(w: World, t: nat)
    requires At(w, t) && PcOk(w, w.threads[t]) && w.threads[t].ReconAgain?
    ensures Lands(w, StepReconAgain(w, t), t)
  {
  }

  lemma ReconAgainSound(w: World, t: nat)
    requires Sound(w) && At(w, t) && w.threads[t].ReconAgain?
    ensures Sound(StepReconAgain(w, t))
  {
    assert PcOk(w, w.threads[t]);
    ReconAgainLands(w, t);
    var w' := StepReconAgain(w, t);
    QuietStep(w, w', t);
  }

  lemma ReconAgainHeld(w: World, t: nat, id0: RequestId)
    requires HeldFor(w, id0) && At(w, t) && w.threads[t].ReconAgain?
    ensures HeldFor(StepReconAgain(w, t), id0)
  {
    HeldAfter(w, StepReconAgain(w, t), t, id0);
  }

  lemma ReconDropLands(w: World, t: nat)
    requires At(w, t) && PcOk(w, w.threads[t]) && w.threads[t].ReconDrop?
    ensures Lands(w, StepReconDrop(w, t), t)
  {
  }

  lemma ReconDropGate(w: World, t: nat)
    requires GateOk(w) && At(w, t) && PcOk(w, w.threads[t]) && w.threads[t].ReconDrop?
    ensures GateOk(StepReconDrop(w, t))
  {
  }

  lemma ReconDropTaint(w: World, t: nat)
    requires TaintOk(w) && GateOk(w) && At(w, t) && PcOk(w, w.threads[t]) && w.threads[t].ReconDrop?
    ensures TaintOk(StepReconDrop(w, t))
  {
  }

  lemma ReconDropSound(w: World, t: nat)
    requires Sound(w) && At(w, t) && w.threads[t].ReconDrop?
    ensures Sound(StepReconDrop(w, t))
  {
    assert PcOk(w, w.threads[t]);
    ReconDropLands(w, t);
    var w' := StepReconDrop(w, t);
    ReconDropGate(w, t);
    ReconDropTaint(w, t);
    GateStep(w, w', t);
  }

  lemma ReconDropHeld(w: World, t: nat, id0: RequestId)
    requires HeldFor(w, id0) && At(w, t) && PcOk(w, w.threads[t]) && w.threads[t].ReconDrop?
    ensures HeldFor(StepReconDrop(w, t), id0)
  {
    HeldAfter(w, StepReconDrop(w, t), t, id0);
  }

  lemma CloseHeld(w: World, t: nat, reason: string, id0: RequestId)
    requires HeldFor(w, id0) && Fresh(w, t)
    ensures HeldFor(StepClose(w, t, reason), id0)
  {
    HeldAfter(w, StepClose(w, t, reason), t, id0);
  }

  lemma CloseLookLands(w: World, t: nat)
    requires At(w, t) && PcOk(w, w.threads[t]) && w.threads[t].CloseLook?
    ensures Lands(w, StepCloseLook(w, t), t)
  {
  }

  lemma CloseLookSound(w: World, t: nat)
    requires Sound(w) && At(w, t) && w.threads[t].CloseLook?
    ensures Sound(StepCloseLook(w, t))
  {
    assert PcOk(w, w.threads[t]);
    CloseLookLands(w, t);
    var w' := StepCloseLook(w, t);
    QuietStep(w, w', t);
  }

  lemma CloseLookHeld(w: World, t: nat, id0: RequestId)
    requires HeldFor(w, id0) && At(w, t) && w.threads[t].CloseLook?
    ensures HeldFor(StepCloseLook(w, t), id0)
  {
    HeldAfter(w, StepCloseLook(w, t), t, id0);
  }

  // ----- the steps with more than one case -----

  lemma ReserveEvolves(w: World, t: nat, id: RequestId, line: string, cls: LineClass, queued: Queued, human: bool, setting: Risk)
    requires IdsOk(w) && Fresh(w, t) && id !in w.used && CanReserve(w.gate)
    ensures Evolution(w, StepReserve(w, t, id, line, cls, queued, human, setting), t)
  {
    assert forall x :: WasDelivered(StepReserve(w, t, id, line, cls, queued, human, setting), x) <==> WasDelivered(w, x);
  }

  lemma ReserveGate(w: World, t: nat, id: RequestId, line: string, cls: LineClass, queued: Queued, human: bool, setting: Risk)
    requires IdsOk(w) && GateOk(w) && Fresh(w, t) && id !in w.used && CanReserve(w.gate)
    ensures var w' := StepReserve(w, t, id, line, cls, queued, human, setting); IdsOk(w') && GateOk(w')
  {
    assert forall x :: WasDelivered(StepReserve(w, t, id, line, cls, queued, human, setting), x) <==> WasDelivered(w, x);
  }

  lemma ReserveLog(w: World, t: nat, id: RequestId, line: string, cls: LineClass, queued: Queued, human: bool, setting: Risk)
    requires IdsOk(w) && DeliveriesOk(w) && TaintOk(w) && Fresh(w, t) && id !in w.used && CanReserve(w.gate)
    ensures var w' := StepReserve(w, t, id, line, cls, queued, human, setting); DeliveriesOk(w') && TaintOk(w')
  {
  }

  lemma ReserveLands(w: World, t: nat, id: RequestId, line: string, cls: LineClass, queued: Queued, human: bool, setting: Risk)
    requires IdsOk(w) && Fresh(w, t) && id !in w.used && CanReserve(w.gate)
    ensures Lands(w, StepReserve(w, t, id, line, cls, queued, human, setting), t)
  {
  }

  lemma ReserveSound(w: World, t: nat, id: RequestId, line: string, cls: LineClass, queued: Queued, human: bool, setting: Risk)
    requires Sound(w) && Fresh(w, t) && id !in w.used && CanReserve(w.gate)
    ensures Sound(StepReserve(w, t, id, line, cls, queued, human, setting))
  {
    ReserveLands(w, t, id, line, cls, queued, human, setting);
    ReserveEvolves(w, t, id, line, cls, queued, human, setting);
    ReserveGate(w, t, id, line, cls, queued, human, setting);
    ReserveLog(w, t, id, line, cls, queued, human, setting);
    Advance(w, StepReserve(w, t, id, line, cls, queued, human, setting), t);
  }

  lemma LinkEvolves(w: World, t: nat)
    requires At(w, t) && w.threads[t].SendQueued? && PcOk(w, w.threads[t])
    ensures Evolution(w, StepLink(w, t), t)
  {
    assert forall x :: WasDelivered(StepLink(w, t), x) <==> WasDelivered(w, x);
  }

  lemma LinkGate(w: World, t: nat)
    requires IdsOk(w) && GateOk(w) && At(w, t) && w.threads[t].SendQueued? && PcOk(w, w.threads[t])
    ensures IdsOk(StepLink(w, t)) && GateOk(StepLink(w, t))
  {
    assert forall x :: WasDelivered(StepLink(w, t), x) <==> WasDelivered(w, x);
  }

  lemma LinkLog(w: World, t: nat)
    requires DeliveriesOk(w) && TaintOk(w) && At(w, t) && w.threads[t].SendQueued?
    ensures DeliveriesOk(StepLink(w, t)) && TaintOk(StepLink(w, t))
  {
  }

  lemma LinkLands(w: World, t: nat)
    requires IdsOk(w) && At(w, t) && PcOk(w, w.threads[t]) && w.threads[t].SendQueued?
    ensures Lands(w, StepLink(w, t), t)
  {
  }

  lemma LinkSound(w: World, t: nat)
    requires Sound(w) && At(w, t) && w.threads[t].SendQueued?
    ensures Sound(StepLink(w, t))
  {
    assert PcOk(w, w.threads[t]);
    LinkLands(w, t);
    LinkEvolves(w, t);
    LinkGate(w, t);
    LinkLog(w, t);
    Advance(w, StepLink(w, t), t);
  }

  lemma MarkLands(w: World, t: nat)
    requires IdsOk(w) && At(w, t) && PcOk(w, w.threads[t]) && w.threads[t].SendMark?
    ensures Lands(w, StepMark(w, t), t)
  {
  }

  lemma MarkGate(w: World, t: nat)
    requires GateOk(w) && At(w, t) && PcOk(w, w.threads[t]) && w.threads[t].SendMark?
    ensures GateOk(StepMark(w, t))
  {
  }

  lemma MarkTaint(w: World, t: nat)
    requires TaintOk(w) && GateOk(w) && At(w, t) && PcOk(w, w.threads[t]) && w.threads[t].SendMark?
    ensures TaintOk(StepMark(w, t))
  {
  }

  lemma MarkSound(w: World, t: nat)
    requires Sound(w) && At(w, t) && w.threads[t].SendMark?
    ensures Sound(StepMark(w, t))
  {
    assert PcOk(w, w.threads[t]);
    MarkLands(w, t);
    MarkGate(w, t);
    MarkTaint(w, t);
    GateStep(w, StepMark(w, t), t);
  }

  lemma BeginDelivers(w: World, t: nat, x: RequestId)
    requires At(w, t) && w.threads[t].Start? && CanDeliver(w.gate, w.threads[t].id)
    ensures WasDelivered(StepBegin(w, t), x) <==> WasDelivered(w, x) || x == w.threads[t].id
  {
    var w', last := StepBegin(w, t), |w.deliveries|;
    assert w'.deliveries[last].plan.id == w.threads[t].id;
    if WasDelivered(w, x) {
      var i :| 0 <= i < last && w.deliveries[i].plan.id == x;
      assert w'.deliveries[i].plan.id == x;
    }
  }

  lemma BeginEvolves(w: World, t: nat)
    requires At(w, t) && w.threads[t].Start? && CanDeliver(w.gate, w.threads[t].id) && PcOk(w, w.threads[t])
    ensures Evolution(w, StepBegin(w, t), t)
  {
    forall x ensures Evolves(w, StepBegin(w, t), t, x) {
      BeginDelivers(w, t, x);
    }
  }

  lemma BeginGate(w: World, t: nat)
    requires GateOk(w) && At(w, t) && w.threads[t].Start? && CanDeliver(w.gate, w.threads[t].id)
    requires PcOk(w, w.threads[t])
    ensures GateOk(StepBegin(w, t))
  {
    BeginDelivers(w, t, w.threads[t].id);
  }

  lemma BeginIds(w: World, t: nat)
    requires IdsOk(w) && At(w, t) && w.threads[t].Start? && CanDeliver(w.gate, w.threads[t].id)
    requires PcOk(w, w.threads[t])
    ensures IdsOk(StepBegin(w, t))
  {
  }

  lemma BeginLog(w: World, t: nat)
    requires DeliveriesOk(w) && GateOk(w) && At(w, t) && w.threads[t].Start? && CanDeliver(w.gate, w.threads[t].id)
    requires PcOk(w, w.threads[t])
    ensures DeliveriesOk(StepBegin(w, t))
  {
  }

  lemma BeginTaint(w: World, t: nat)
    requires TaintOk(w) && GateOk(w) && At(w, t) && w.threads[t].Start? && CanDeliver(w.gate, w.threads[t].id)
    requires PcOk(w, w.threads[t])
    ensures TaintOk(StepBegin(w, t))
  {
  }

  lemma BeginLands(w: World, t: nat)
    requires IdsOk(w) && GateOk(w) && At(w, t) && PcOk(w, w.threads[t])
    requires w.threads[t].Start? && CanDeliver(w.gate, w.threads[t].id)
    ensures Lands(w, StepBegin(w, t), t)
  {
  }

  lemma BeginSound(w: World, t: nat)
    requires Sound(w) && At(w, t) && w.threads[t].Start?
    ensures Sound(StepBegin(w, t))
  {
    assert PcOk(w, w.threads[t]);
    if CanDeliver(w.gate, w.threads[t].id) {
      assert PcOk(w, w.threads[t]);
      BeginEvolves(w, t);
      BeginGate(w, t);
      BeginIds(w, t);
      BeginLands(w, t);
      BeginLog(w, t);
      BeginTaint(w, t);
      Advance(w, StepBegin(w, t), t);
    } else {
      BeginRefusedSound(w, t);
    }
  }

  lemma BeginRefusedLands(w: World, t: nat)
    requires At(w, t) && PcOk(w, w.threads[t]) && w.threads[t].Start? && !CanDeliver(w.gate, w.threads[t].id)
    ensures Lands(w, StepBegin(w, t), t)
  {
  }

  lemma BeginRefusedSound(w: World, t: nat)
    requires Sound(w) && At(w, t) && w.threads[t].Start? && !CanDeliver(w.gate, w.threads[t].id)
    ensures Sound(StepBegin(w, t))
  {
    assert PcOk(w, w.threads[t]);
    BeginRefusedLands(w, t);
    QuietStep(w, StepBegin(w, t), t);
  }

  lemma RefusedFreeLands(w: World, t: nat)
    requires At(w, t) && PcOk(w, w.threads[t]) && w.threads[t].RefusedFree?
    ensures Lands(w, StepRefusedFree(w, t), t)
  {
  }

  lemma RefusedFreeGate(w: World, t: nat)
    requires GateOk(w) && At(w, t) && PcOk(w, w.threads[t]) && w.threads[t].RefusedFree?
    ensures GateOk(StepRefusedFree(w, t))
  {
  }

  lemma RefusedFreeTaint(w: World, t: nat)
    requires TaintOk(w) && GateOk(w) && At(w, t) && PcOk(w, w.threads[t]) && w.threads[t].RefusedFree?
    ensures TaintOk(StepRefusedFree(w, t))
  {
  }

  lemma RefusedFreeSound(w: World, t: nat)
    requires Sound(w) && At(w, t) && w.threads[t].RefusedFree?
    ensures Sound(StepRefusedFree(w, t))
  {
    assert PcOk(w, w.threads[t]);
    RefusedFreeLands(w, t);
    RefusedFreeGate(w, t);
    RefusedFreeTaint(w, t);
    GateStep(w, StepRefusedFree(w, t), t);
  }

  lemma FreeLands(w: World, t: nat)
    requires At(w, t) && PcOk(w, w.threads[t]) && w.threads[t].Freeing?
    ensures Lands(w, StepFree(w, t), t)
  {
  }

  lemma FreeGate(w: World, t: nat)
    requires GateOk(w) && At(w, t) && PcOk(w, w.threads[t]) && w.threads[t].Freeing?
    ensures GateOk(StepFree(w, t))
  {
  }

  lemma FreeTaint(w: World, t: nat)
    requires TaintOk(w) && GateOk(w) && At(w, t) && PcOk(w, w.threads[t]) && w.threads[t].Freeing?
    ensures TaintOk(StepFree(w, t))
  {
  }

  lemma FreeShape(w: World, t: nat)
    requires At(w, t) && w.threads[t].Freeing? && PcOk(w, w.threads[t])
    ensures var w' := StepFree(w, t);
            && OnlyMoves(w, w', t) && w' == w.(threads := w'.threads, gate := w'.gate, finished := w'.finished)
            && w'.gate.inflight.None? && (IsClosing(w.gate) ==> IsClosing(w'.gate))
            && IsRunner(w, t, w.gate.inflight.value.id)
  {
  }

  lemma FreeSound(w: World, t: nat)
    requires Sound(w) && At(w, t) && w.threads[t].Freeing?
    ensures Sound(StepFree(w, t))
  {
    assert PcOk(w, w.threads[t]);
    FreeShape(w, t);
    FreeLands(w, t);
    FreeGate(w, t);
    FreeTaint(w, t);
    GateStep(w, StepFree(w, t), t);
  }

  lemma ReconMoveLands(w: World, t: nat, pc: Pc)
    requires At(w, t) && PcOk(w, w.threads[t]) && w.threads[t].ReconLook?
    requires pc == ReconExpire(w.threads[t].id)
             || (pc.ReconDrop? && pc.id == w.threads[t].id && NotPending(w, pc.id))
    ensures Lands(w, Goto(w, t, pc), t)
  {
  }

  lemma ReconLookLands(w: World, t: nat, due: bool)
    requires At(w, t) && PcOk(w, w.threads[t]) && w.threads[t].ReconLook?
    ensures Lands(w, StepReconLook(w, t, due), t)
  {
    if At(StepReconLook(w, t, due), t) {
      ReconMoveLands(w, t, StepReconLook(w, t, due).threads[t]);
    }
  }

  lemma ReconLookSound(w: World, t: nat, due: bool)
    requires Sound(w) && At(w, t) && w.threads[t].ReconLook?
    ensures Sound(StepReconLook(w, t, due))
  {
    assert PcOk(w, w.threads[t]);
    ReconLookLands(w, t, due);
    QuietStep(w, StepReconLook(w, t, due), t);
  }

  lemma CloseLands(w: World, t: nat, reason: string)
    requires IdsOk(w) && Fresh(w, t)
    ensures Lands(w, StepClose(w, t, reason), t)
  {
  }

  lemma CloseGate(w: World, t: nat, reason: string)
    requires GateOk(w) && Fresh(w, t)
    ensures GateOk(StepClose(w, t, reason))
  {
  }

  lemma CloseTaint(w: World, t: nat, reason: string)
    requires TaintOk(w) && Fresh(w, t)
    ensures TaintOk(StepClose(w, t, reason))
  {
  }

  lemma CloseShape(w: World, t: nat, reason: string)
    requires Fresh(w, t)
    ensures var w' := StepClose(w, t, reason);
            && OnlyMoves(w, w', t) && w' == w.(threads := w'.threads, gate := w'.gate)
            && w'.gate.inflight == w.gate.inflight && IsClosing(w'.gate)
  {
  }

  lemma CloseSound(w: World, t: nat, reason: string)
    requires Sound(w) && Fresh(w, t)
    ensures Sound(StepClose(w, t, reason))
  {
    CloseShape(w, t, reason);
    CloseLands(w, t, reason);
    CloseGate(w, t, reason);
    CloseTaint(w, t, reason);
    GateStep(w, StepClose(w, t, reason), t);
  }
}
