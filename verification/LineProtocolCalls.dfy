/**
 The calls of the runner. Between `beginDelivery`, which checks the gate, and the
 call no lock is held, so the gate may begin to close in between.
 */
module LineProtocolCalls {
  import opened LineTypes
  import opened LineGate
  import opened LineProtocol
  import opened LineProtocolProof
  import opened LineProtocolRuns

  // ----- the invariant -----

  ghost predicate WasCalled(w: World, id: RequestId) {
    exists k :: 0 <= k < |w.calls| && w.calls[k].plan.id == id
  }

  /** What holds at a call: the line is the running one and its context is the gate's,
      but the gate may be closing. */
  ghost predicate CallOk(d: Delivery) {
    && HoldsIn(d.gate, d.plan.id, Running) && d.gate.inflight.value == d.plan
    && !KeptByGateway(d.plan)
    && d.status == LaunchState(d.approved)
    && Snapshot(d.plan, d.gate)
    && SameLine(d.shown, d.plan)
    && (!d.approved ==> Harmless(d.plan, d.limit))
  }

  /** The gate let the line through before. */
  ghost predicate LetThrough(w: World, d: Delivery) {
    exists i :: 0 <= i < |w.deliveries| && w.deliveries[i].plan == d.plan && w.deliveries[i].approved == d.approved
  }

  ghost predicate LastDelivery(w: World, rec: LineRecord, approved: bool) {
    && w.deliveries != []
    && w.deliveries[|w.deliveries| - 1].plan == rec
    && w.deliveries[|w.deliveries| - 1].approved == approved
  }

  ghost predicate CallPcOk(w: World, pc: Pc) {
    && (pc.Delivering? ==> !WasCalled(w, pc.id) && LastDelivery(w, pc.rec, pc.approved))
    && (pc.AtRunner? ==> WasCalled(w, pc.id))
    && (pc.Ended? || pc.Freeing? ==> WasCalled(w, pc.id) || KeptByGateway(pc.rec))
  }

  ghost predicate LogOk(w: World) {
    && (forall k :: 0 <= k < |w.calls| ==> CallOk(w.calls[k]))
    && (forall k :: 0 <= k < |w.calls| ==> LetThrough(w, w.calls[k]))
    && (forall k :: 0 <= k < |w.calls| ==> (IsClosing(w.calls[k].gate) ==> IsClosing(w.gate)))
  }

  ghost predicate OrderOk(w: World) {
    && (forall k, l :: 0 <= k < l < |w.calls| ==> w.calls[k].plan.id != w.calls[l].plan.id)
    && (forall k, l :: 0 <= k < l < |w.calls| && ChangesShell(w.calls[k]) ==> w.calls[l].approved)
  }

  ghost predicate CallInv(w: World) {
    && LogOk(w) && OrderOk(w)
    && (forall t :: t in w.threads ==> CallPcOk(w, w.threads[t]))
  }

  // ----- steps that log nothing -----

  predicate SameLogs(w: World, w': World) {
    w'.calls == w.calls && w'.deliveries == w.deliveries && (IsClosing(w.gate) ==> IsClosing(w'.gate))
  }

  /** Neither on its way to the runner nor back from it. */
  predicate Away(pc: Pc) {
    !pc.Delivering? && !pc.AtRunner? && !pc.Ended? && !pc.Freeing?
  }

  lemma LogKept(w: World, w': World, t: nat)
    requires CallInv(w) && OnlyMoves(w, w', t) && SameLogs(w, w')
    requires t in w'.threads ==> CallPcOk(w', w'.threads[t])
    ensures CallInv(w')
  {
    assert forall id :: WasCalled(w', id) <==> WasCalled(w, id);
    forall k | 0 <= k < |w'.calls| ensures LetThrough(w', w'.calls[k]) {
      assert LetThrough(w, w.calls[k]);
    }
    forall u | u in w'.threads ensures CallPcOk(w', w'.threads[u]) {
      if u != t {
        assert CallPcOk(w, w.threads[u]);
      }
    }
  }

  lemma SendAway(w: World, s: SendStep)
    requires SendEnabled(w, s)
    ensures OnlyMoves(w, SendStepped(w, s), s.t) && SameLogs(w, SendStepped(w, s))
    ensures s.t in SendStepped(w, s).threads ==> Away(SendStepped(w, s).threads[s.t])
  {
  }

  lemma DecideAway(w: World, s: DecideStep, t: nat)
    requires DecideEnabled(w, s) && (if s.DoDecide? || s.DoDelete? then t !in w.threads else t == s.t)
    ensures OnlyMoves(w, DecideStepped(w, s), t) && SameLogs(w, DecideStepped(w, s))
    ensures t in DecideStepped(w, s).threads ==> Away(DecideStepped(w, s).threads[t])
  {
  }

  lemma CloseAway(w: World, s: CloseStep)
    requires CloseEnabled(w, s)
    ensures OnlyMoves(w, CloseStepped(w, s), s.t) && SameLogs(w, CloseStepped(w, s))
    ensures s.t in CloseStepped(w, s).threads ==> Away(CloseStepped(w, s).threads[s.t])
  {
  }

  lemma RefusedAway(w: World, s: LineStep)
    requires LineEnabled(w, s) && (s.DoRefusedFinal? || s.DoRefusedLook? || s.DoRefusedFree?)
    ensures OnlyMoves(w, LineStepped(w, s), s.t) && SameLogs(w, LineStepped(w, s))
    ensures s.t in LineStepped(w, s).threads ==> Away(LineStepped(w, s).threads[s.t])
  {
  }

  lemma BeginRefusedAway(w: World, t: nat)
    requires At(w, t) && w.threads[t].Start? && !CanDeliver(w.gate, w.threads[t].id)
    ensures OnlyMoves(w, StepBegin(w, t), t) && SameLogs(w, StepBegin(w, t)) && Away(StepBegin(w, t).threads[t])
  {
  }

  /** The way back from the runner. */
  lemma BackQuiet(w: World, s: LineStep)
    requires LineEnabled(w, s) && (s.DoRun? || s.DoFinal? || s.DoFree?) && CallPcOk(w, w.threads[s.t])
    ensures OnlyMoves(w, LineStepped(w, s), s.t) && SameLogs(w, LineStepped(w, s))
    ensures s.t in LineStepped(w, s).threads ==> CallPcOk(w, LineStepped(w, s).threads[s.t])
  {
  }

  lemma QuietCallInv(w: World, s: LineStep)
    requires CallInv(w) && LineEnabled(w, s) && !s.DoCall?
    requires s.DoBegin? ==> !CanDeliver(w.gate, w.threads[s.t].id)
    ensures CallInv(LineStepped(w, s))
  {
    var w' := LineStepped(w, s);
    if s.DoBegin? {
      BeginRefusedAway(w, s.t);
    } else if s.DoRun? || s.DoFinal? || s.DoFree? {
      assert CallPcOk(w, w.threads[s.t]);
      BackQuiet(w, s);
      assert forall id :: WasCalled(w', id) <==> WasCalled(w, id);
    } else {
      RefusedAway(w, s);
    }
    LogKept(w, w', s.t);
  }

  // ----- beginDelivery -----

  lemma CalledWasDelivered(w: World, id: RequestId)
    requires LogOk(w) && WasCalled(w, id)
    ensures WasDelivered(w, id)
  {
    var k :| 0 <= k < |w.calls| && w.calls[k].plan.id == id;
    assert LetThrough(w, w.calls[k]);
  }

  /** A line that may be delivered was never called, and no other line is on its way. */
  lemma BeginFacts(w: World, t: nat)
    requires Inv(w) && LogOk(w) && At(w, t) && w.threads[t].Start? && CanDeliver(w.gate, w.threads[t].id)
    ensures !WasCalled(w, w.threads[t].id)
    ensures forall u :: u in w.threads ==> !w.threads[u].Delivering?
  {
    assert PcOk(w, w.threads[t]);
    if WasCalled(w, w.threads[t].id) {
      CalledWasDelivered(w, w.threads[t].id);
    }
    forall u | u in w.threads ensures !w.threads[u].Delivering? {
      assert PcOk(w, w.threads[u]);
    }
  }

  lemma LetThroughGrows(w: World, w': World, d: Delivery)
    requires LetThrough(w, d) && w.deliveries <= w'.deliveries
    ensures LetThrough(w', d)
  {
    var i :| 0 <= i < |w.deliveries| && w.deliveries[i].plan == d.plan && w.deliveries[i].approved == d.approved;
    assert w'.deliveries[i] == w.deliveries[i];
  }

  lemma BeginLogOk(w: World, t: nat)
    requires LogOk(w) && At(w, t) && w.threads[t].Start? && CanDeliver(w.gate, w.threads[t].id)
    ensures LogOk(StepBegin(w, t))
  {
    var w' := StepBegin(w, t);
    forall k | 0 <= k < |w'.calls| ensures LetThrough(w', w'.calls[k]) {
      LetThroughGrows(w, w', w.calls[k]);
    }
  }

  lemma BeginCallInv(w: World, t: nat)
    requires CallInv(w) && At(w, t) && w.threads[t].Start? && CanDeliver(w.gate, w.threads[t].id)
    requires !WasCalled(w, w.threads[t].id)
    requires forall u :: u in w.threads ==> !w.threads[u].Delivering?
    ensures CallInv(StepBegin(w, t))
  {
    var w' := StepBegin(w, t);
    BeginLogOk(w, t);
    assert forall x :: WasCalled(w', x) <==> WasCalled(w, x);
    forall u | u in w'.threads ensures CallPcOk(w', w'.threads[u]) {
      if u != t {
        assert CallPcOk(w, w.threads[u]);
      }
    }
  }

  // ----- the call -----

  /** No other thread is between the gate and the runner's answer. */
  lemma OneDelivers(w: World, t: nat, u: nat)
    requires Inv(w) && At(w, t) && At(w, u)
    requires (w.threads[t].Delivering? || w.threads[t].AtRunner?) && (w.threads[u].Delivering? || w.threads[u].AtRunner?)
    ensures t == u
  {
    assert PcOk(w, w.threads[t]) && PcOk(w, w.threads[u]);
    assert SameRunner(w.threads[t], w.threads[u]);
  }

  lemma NewCallOk(w: World, t: nat)
    requires Inv(w) && At(w, t) && w.threads[t].Delivering? && !KeptByGateway(w.threads[t].rec)
    ensures var pc := w.threads[t];
            CallOk(Outgoing(w, pc.rec, pc.approved, pc.limit)) && pc.rec.id == pc.id
  {
    assert PcOk(w, w.threads[t]);
  }

  /** The deliveries before the last one that changed the shell make the last one approved. */
  lemma EarlierChange(w: World, d: Delivery, rec: LineRecord, approved: bool)
    requires TaintOk(w) && LetThrough(w, d) && LastDelivery(w, rec, approved)
    requires d.plan.id != rec.id && ChangesShell(d)
    ensures approved
  {
    var i :| 0 <= i < |w.deliveries| && w.deliveries[i].plan == d.plan && w.deliveries[i].approved == d.approved;
    assert i < |w.deliveries| - 1 && ChangesShell(w.deliveries[i]);
  }

  lemma NewCallOrder(w: World, t: nat)
    requires LogOk(w) && OrderOk(w) && TaintOk(w)
    requires At(w, t) && w.threads[t].Delivering? && w.threads[t].rec.id == w.threads[t].id
    requires CallPcOk(w, w.threads[t])
    ensures OrderOk(StepCall(w, t))
  {
    var w', pc := StepCall(w, t), w.threads[t];
    forall k, l | 0 <= k < l < |w'.calls| && ChangesShell(w'.calls[k]) ensures w'.calls[l].approved {
      if l == |w.calls| {
        assert LetThrough(w, w.calls[k]) && w.calls[k].plan.id != pc.id;
        EarlierChange(w, w.calls[k], pc.rec, pc.approved);
      }
    }
  }

  lemma NewCallLog(w: World, t: nat)
    requires LogOk(w) && At(w, t) && w.threads[t].Delivering? && CallPcOk(w, w.threads[t])
    requires var pc := w.threads[t];
             KeptByGateway(pc.rec) || CallOk(Outgoing(w, pc.rec, pc.approved, pc.limit))
    ensures LogOk(StepCall(w, t))
  {
    var w' := StepCall(w, t);
    forall k | 0 <= k < |w'.calls| ensures LetThrough(w', w'.calls[k]) {
      if k < |w.calls| {
        LetThroughGrows(w, w', w.calls[k]);
      } else {
        assert w.deliveries[|w.deliveries| - 1].plan == w'.calls[k].plan;
      }
    }
  }

  lemma NewCallPcs(w: World, t: nat)
    requires CallInv(w) && At(w, t) && w.threads[t].Delivering? && w.threads[t].rec.id == w.threads[t].id
    requires forall u :: u in w.threads && w.threads[u].Delivering? ==> u == t
    ensures forall u :: u in w.threads ==> CallPcOk(StepCall(w, t), StepCall(w, t).threads[u])
  {
    var w' := StepCall(w, t);
    forall x | WasCalled(w, x) ensures WasCalled(w', x) {
      var k :| 0 <= k < |w.calls| && w.calls[k].plan.id == x;
      assert w'.calls[k].plan.id == x;
    }
    if !KeptByGateway(w.threads[t].rec) {
      assert w'.calls[|w.calls|].plan.id == w.threads[t].id;
    }
    forall u | u in w.threads ensures CallPcOk(w', w'.threads[u]) {
      assert CallPcOk(w, w.threads[u]);
    }
  }

  lemma DeliveringFacts(w: World, t: nat)
    requires Inv(w) && At(w, t) && w.threads[t].Delivering?
    ensures w.threads[t].rec.id == w.threads[t].id
    ensures HoldsIn(w.gate, w.threads[t].id, Running) && w.gate.inflight.value == w.threads[t].rec
    ensures forall u :: u in w.threads && w.threads[u].Delivering? ==> u == t
  {
    assert PcOk(w, w.threads[t]);
    forall u | u in w.threads && w.threads[u].Delivering? ensures u == t {
      OneDelivers(w, t, u);
    }
  }

  lemma CallCallInv(w: World, t: nat)
    requires Inv(w) && CallInv(w) && At(w, t) && w.threads[t].Delivering?
    ensures CallInv(StepCall(w, t))
  {
    DeliveringFacts(w, t);
    assert CallPcOk(w, w.threads[t]);
    if !KeptByGateway(w.threads[t].rec) {
      NewCallOk(w, t);
    }
    NewCallLog(w, t);
    NewCallOrder(w, t);
    NewCallPcs(w, t);
  }

  lemma LineCallInv(w: World, s: LineStep)
    requires Inv(w) && CallInv(w) && LineEnabled(w, s)
    ensures CallInv(LineStepped(w, s))
  {
    if s.DoCall? {
      CallCallInv(w, s.t);
    } else if s.DoBegin? && CanDeliver(w.gate, w.threads[s.t].id) {
      BeginFacts(w, s.t);
      BeginCallInv(w, s.t);
    } else {
      QuietCallInv(w, s);
    }
  }

  lemma StepCallInv(w: World, s: Step)
    requires Inv(w) && CallInv(w) && Enabled(w, s)
    ensures CallInv(Do(w, s))
  {
    match s
    case SendDo(x) =>
      SendAway(w, x);
      LogKept(w, Do(w, s), x.t);
    case LineDo(x) => LineCallInv(w, x);
    case DecideDo(x) =>
      FreshThread(w);
      var free: nat :| free !in w.threads;
      var t := if x.DoDecide? || x.DoDelete? then free else x.t;
      DecideAway(w, x, t);
      LogKept(w, Do(w, s), t);
    case CloseDo(x) =>
      CloseAway(w, x);
      LogKept(w, Do(w, s), x.t);
  }

  lemma {:induction false} RunCallInv(run: seq<World>, i: nat)
    requires IsRun(run) && i < |run|
    ensures CallInv(run[i])
  {
    if i > 0 {
      RunCallInv(run, i - 1);
      RunInv(run, i - 1);
      var s := StepTaken(run, i);
      StepCallInv(run[i - 1], s);
    }
  }
}
