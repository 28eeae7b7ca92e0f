/**
 What a close still lets through. Only `beginDelivery` looks at the gate, so a
 line that it granted just before the close is still handed to the runner; that
 is the only one.
 */
module LineProtocolClosing {
  import opened LineTypes
  import opened LineGate
  import opened LineProtocol
  import opened LineProtocolProof
  import opened LineProtocolRuns
  import opened LineProtocolCalls

  // ----- one step on a closing gate -----

  /** The gate stays closing, grants nothing, and its slot is kept or freed. */
  predicate StaysShut(w: World, w': World) {
    && IsClosing(w'.gate)
    && w'.deliveries == w.deliveries
    && (w'.gate.inflight == w.gate.inflight || w'.gate.inflight.None?)
  }

  lemma SendAfterClose(w: World, s: SendStep)
    requires SendEnabled(w, s) && IsClosing(w.gate)
    ensures StaysShut(w, SendStepped(w, s)) && SendStepped(w, s).calls == w.calls
  {
  }

  lemma OutAfterClose(w: World, s: LineStep)
    requires LineEnabled(w, s) && IsClosing(w.gate) && (s.DoBegin? || s.DoCall? || s.DoRun? || s.DoFinal?)
    ensures StaysShut(w, LineStepped(w, s)) && (s.DoCall? || LineStepped(w, s).calls == w.calls)
  {
  }

  lemma RefusedAfterClose(w: World, s: LineStep)
    requires LineEnabled(w, s) && IsClosing(w.gate) && (s.DoRefusedFinal? || s.DoRefusedLook? || s.DoRefusedFree?)
    ensures StaysShut(w, LineStepped(w, s)) && LineStepped(w, s).calls == w.calls
  {
  }

  lemma FreeAfterClose(w: World, t: nat)
    requires LineEnabled(w, DoFree(t)) && IsClosing(w.gate)
    ensures StaysShut(w, StepFree(w, t)) && StepFree(w, t).calls == w.calls
  {
  }

  lemma LineAfterClose(w: World, s: LineStep)
    requires LineEnabled(w, s) && IsClosing(w.gate)
    ensures StaysShut(w, LineStepped(w, s)) && (s.DoCall? || LineStepped(w, s).calls == w.calls)
  {
    if s.DoFree? {
      FreeAfterClose(w, s.t);
    } else if s.DoRefusedFinal? || s.DoRefusedLook? || s.DoRefusedFree? {
      RefusedAfterClose(w, s);
    } else {
      OutAfterClose(w, s);
    }
  }

  lemma DecideAfterClose(w: World, s: DecideStep)
    requires DecideEnabled(w, s) && IsClosing(w.gate)
    ensures StaysShut(w, DecideStepped(w, s)) && DecideStepped(w, s).calls == w.calls
  {
  }

  lemma CloseAfterClose(w: World, s: CloseStep)
    requires CloseEnabled(w, s) && IsClosing(w.gate)
    ensures StaysShut(w, CloseStepped(w, s)) && CloseStepped(w, s).calls == w.calls
  {
  }

  lemma StepAfterClose(w: World, s: Step)
    requires Enabled(w, s) && IsClosing(w.gate)
    ensures StaysShut(w, Do(w, s))
    ensures (s.LineDo? && s.line.DoCall?) || Do(w, s).calls == w.calls
  {
    match s
    case SendDo(x) => SendAfterClose(w, x);
    case LineDo(x) => LineAfterClose(w, x);
    case DecideDo(x) => DecideAfterClose(w, x);
    case CloseDo(x) => CloseAfterClose(w, x);
  }

  /** Only a close turns an open gate into a closing one, and it logs nothing. */
  lemma CloseBeginsAlone(w: World, s: Step)
    requires Enabled(w, s) && !IsClosing(w.gate) && IsClosing(Do(w, s).gate)
    ensures Do(w, s).calls == w.calls
  {
    match s
    case SendDo(x) => SendAway(w, x);
    case LineDo(x) => LineKeepsOpen(w, x);
    case DecideDo(x) => DecideKeepsCalls(w, x);
    case CloseDo(x) => CloseAway(w, x);
  }

  lemma LineKeepsOpen(w: World, s: LineStep)
    requires LineEnabled(w, s) && !IsClosing(w.gate)
    ensures !IsClosing(LineStepped(w, s).gate)
  {
    match s
    case DoFree(t) => FinishKeepsOpen(w.gate, w.threads[t].rec, true, w.threads[t].outcome, w.threads[t].final);
    case DoRefusedFree(t) => FinishKeepsOpen(w.gate, w.threads[t].rec, false, Outcome("", false, 0, None), w.threads[t].final);
    case _ =>
  }

  lemma FinishKeepsOpen(g: Gate, rec: LineRecord, delivered: bool, o: Outcome, final: Status)
    requires !IsClosing(g)
    ensures !IsClosing(FinishLine(g, rec, delivered, o, final))
  {
    EffectKeepsState(g, rec, o);
  }

  lemma EffectKeepsState(g: Gate, rec: LineRecord, o: Outcome)
    ensures ApplyEffect(g, rec, o).state == g.state
  {
  }

  lemma DecideKeepsCalls(w: World, s: DecideStep)
    requires DecideEnabled(w, s)
    ensures DecideStepped(w, s).calls == w.calls
  {
  }

  /** Once a close has begun, `beginDelivery` grants no line any more. */
  lemma {:induction false} NoDeliveryBeginsAfterClose(run: seq<World>, i: nat, j: nat)
    requires IsRun(run) && i <= j < |run| && IsClosing(run[i].gate)
    ensures StaysShut(run[i], run[j])
    decreases j
  {
    if i < j {
      NoDeliveryBeginsAfterClose(run, i, j - 1);
      var s := StepTaken(run, j);
      StepAfterClose(run[j - 1], s);
    }
  }

  // ----- the late call -----

  /** The line was granted and its runner is still to be called. */
  ghost predicate CallIsDue(w: World) {
    && w.gate.inflight.Some? && w.gate.inflight.value.phase == Running
    && !WasCalled(w, w.gate.inflight.value.id)
    && !KeptByGateway(w.gate.inflight.value)
  }

  /** `calls` are those of `w` and one more: the due one, on a closing gate. */
  ghost predicate OneLateCall(w: World, calls: seq<Delivery>) {
    && CallIsDue(w)
    && |calls| == |w.calls| + 1 && w.calls <= calls
    && calls[|w.calls|].plan == w.gate.inflight.value
    && IsClosing(calls[|w.calls|].gate)
  }

  lemma CallFacts(w: World, t: nat)
    requires Inv(w) && CallInv(w) && At(w, t) && w.threads[t].Delivering?
    ensures HoldsIn(w.gate, w.threads[t].id, Running) && w.gate.inflight.value == w.threads[t].rec
    ensures !WasCalled(w, w.threads[t].id)
  {
    DeliveringFacts(w, t);
    assert CallPcOk(w, w.threads[t]);
  }

  lemma LateCallIsCalled(w0: World, w: World)
    requires OneLateCall(w0, w.calls)
    ensures WasCalled(w, w0.gate.inflight.value.id)
  {
    assert w.calls[|w0.calls|].plan.id == w0.gate.inflight.value.id;
  }

  lemma LateCallStep(w0: World, w: World, t: nat)
    requires StaysShut(w0, w) && At(w, t) && w.threads[t].Delivering?
    requires HoldsIn(w.gate, w.threads[t].id, Running) && w.gate.inflight.value == w.threads[t].rec
    requires !WasCalled(w, w.threads[t].id)
    requires w.calls == w0.calls || OneLateCall(w0, w.calls)
    ensures var w' := StepCall(w, t); w'.calls == w0.calls || OneLateCall(w0, w'.calls)
  {
    if OneLateCall(w0, w.calls) {
      LateCallIsCalled(w0, w);
    }
  }

  /** After a close has begun the runner is called at most once more, and then
      with the line that was granted and not called when it began. */
  lemma {:induction false} AtMostOneLateCall(run: seq<World>, c: nat, j: nat)
    requires IsRun(run) && c <= j < |run| && IsClosing(run[c].gate)
    ensures run[j].calls == run[c].calls || OneLateCall(run[c], run[j].calls)
    decreases j
  {
    if c < j {
      var w := run[j - 1];
      AtMostOneLateCall(run, c, j - 1);
      NoDeliveryBeginsAfterClose(run, c, j - 1);
      var s := StepTaken(run, j);
      StepAfterClose(w, s);
      if s.LineDo? && s.line.DoCall? {
        RunInv(run, j - 1);
        RunCallInv(run, j - 1);
        CallFacts(w, s.line.t);
        LateCallStep(run[c], w, s.line.t);
      }
    }
  }

  /** The calls on a closing gate are exactly those after the first close began. */
  lemma CallsOnAClosingGate(run: seq<World>, c: nat, j: nat, k: nat)
    requires IsRun(run) && 0 < c <= j < |run| && IsClosing(run[c].gate) && !IsClosing(run[c - 1].gate)
    requires k < |run[j].calls|
    ensures IsClosing(run[j].calls[k].gate) <==> k >= |run[c].calls|
    ensures IsClosing(run[j].calls[k].gate) ==> OneLateCall(run[c], run[j].calls) && k == |run[j].calls| - 1
  {
    AtMostOneLateCall(run, c, j);
    if k < |run[c].calls| {
      var s := StepTaken(run, c);
      CloseBeginsAlone(run[c - 1], s);
      RunCallInv(run, c - 1);
      assert run[j].calls[k] == run[c - 1].calls[k];
    }
  }

  /** A granted line that was not called and is not kept by the gateway is on its way. */
  lemma DueIsDelivering(w: World, t: nat)
    requires CallIsDue(w) && HandedAt(w, t, w.gate.inflight.value.id)
    requires PcOk(w, w.threads[t]) && CallPcOk(w, w.threads[t])
    ensures w.threads[t].Delivering?
  {
  }

  lemma HandedThread(w: World, id: RequestId) returns (t: nat)
    requires HeldFor(w, id) && HoldsIn(w.gate, id, Running)
    ensures HandedAt(w, t, id)
  {
    t :| t in w.threads && Handed(w.threads[t]) && w.threads[t].id == id;
  }

  lemma DueLineIsDelivering(w: World) returns (t: nat)
    requires Inv(w) && CallInv(w) && CallIsDue(w)
    ensures At(w, t) && w.threads[t].Delivering?
  {
    Facts(w, w.gate.inflight.value.id);
    t := HandedThread(w, w.gate.inflight.value.id);
    ThreadFact(w, t);
    DueIsDelivering(w, t);
  }

  ghost predicate CalledLater(run: seq<World>, longer: seq<World>)
    requires run != []
  {
    IsRun(longer) && run <= longer && |longer[|longer| - 1].calls| > |run[|run| - 1].calls|
  }

  /** A closing session still calls its runner in some continuation exactly when
      the gate had granted a line whose call is still due. */
  lemma LateCallExactlyWhen(run: seq<World>)
    requires IsRun(run) && IsClosing(run[|run| - 1].gate)
    ensures (exists longer :: CalledLater(run, longer)) <==> CallIsDue(run[|run| - 1])
  {
    if longer :| CalledLater(run, longer) {
      LaterCallWasDue(run, longer);
    }
    if CallIsDue(run[|run| - 1]) {
      var longer := DueCallHappens(run);
    }
  }

  lemma LaterCallWasDue(run: seq<World>, longer: seq<World>)
    requires run != [] && CalledLater(run, longer) && IsClosing(run[|run| - 1].gate)
    ensures CallIsDue(run[|run| - 1])
  {
    assert longer[|run| - 1] == run[|run| - 1];
    AtMostOneLateCall(longer, |run| - 1, |longer| - 1);
  }

  lemma DueCallHappens(run: seq<World>) returns (longer: seq<World>)
    requires IsRun(run) && CallIsDue(run[|run| - 1])
    ensures CalledLater(run, longer)
  {
    RunInv(run, |run| - 1);
    RunCallInv(run, |run| - 1);
    var s := DueStep(run[|run| - 1]);
    longer := Extend(run, s);
  }

  lemma DueStep(w: World) returns (s: Step)
    requires Inv(w) && CallInv(w) && CallIsDue(w)
    ensures Enabled(w, s) && |Do(w, s).calls| == |w.calls| + 1
  {
    var t := DueLineIsDelivering(w);
    DeliveringFacts(w, t);
    s := LineDo(DoCall(t));
  }
}
