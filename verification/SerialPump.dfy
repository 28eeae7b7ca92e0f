/**
 The one input pump of a serial tab (`pumpTerminalInput`, terminal.go): it begins a
 Write only when the one before took all its input, so the port sees the inputs in
 the order in which they were accepted.
 */
module SerialPump {
  import opened Bytes
  import opened SerialFd

  /** The call took all its input. */
  predicate Done(w: World, t: nat) {
    At(w, t, Finished) && w.threads[t].job.WriteJob? && !w.threads[t].job.stop
  }

  ghost predicate AllDone(w: World) {
    forall k :: 0 <= k < |w.order| ==> Done(w, w.order[k])
  }

  /** The pump begins no call before every earlier one took all its input. */
  ghost predicate OnePump(run: seq<World>, i: nat)
    requires i < |run|
  {
    forall k :: 0 < k <= i ==> PumpStepAt(run, k)
  }

  ghost predicate PumpStepAt(run: seq<World>, k: nat)
    requires 0 < k < |run|
  {
    run[k].order == run[k - 1].order || AllDone(run[k - 1])
  }

  // ----- the invariant -----

  predicate IsWrite(w: World, t: nat) {
    t in w.threads && w.threads[t].job.WriteJob?
  }

  predicate IsCall(w: World, k: nat) {
    k < |w.order| == |w.inputs| && IsWrite(w, w.order[k]) && w.threads[w.order[k]].job.p == w.inputs[k]
  }

  ghost predicate CallsOk(w: World) {
    && |w.order| == |w.inputs|
    && (forall k :: 0 <= k < |w.order| ==> IsCall(w, k))
    && (forall t :: IsWrite(w, t) ==> t in w.order)
    && (forall k :: 0 <= k < |w.order| - 1 ==> Done(w, w.order[k]))
  }

  /** The input of every call but the last, and what the port took from the last. */
  predicate WireOk(w: World) {
    && |w.order| == |w.inputs|
    && if w.order == [] then w.wire == []
       else
         var last := |w.order| - 1;
         w.order[last] in w.port && w.wire == Flatten(w.inputs[..last]) + w.port[w.order[last]]
  }

  ghost predicate PumpOk(w: World) {
    CallsOk(w) && WireOk(w)
  }

  /** A step of `t` that neither begins a call nor writes; `d` may be a new drain. */
  predicate Aside(w: World, w': World, t: nat, d: nat) {
    && w'.order == w.order && w'.inputs == w.inputs && w'.wire == w.wire && w'.port == w.port
    && (forall u :: u in w.threads && u != t ==> u in w'.threads && w'.threads[u] == w.threads[u])
    && (forall u :: u in w'.threads && u != t && u != d ==> u in w.threads)
    && (d != t && d !in w.threads && d in w'.threads ==> !w'.threads[d].job.WriteJob?)
    && (IsWrite(w, t) <==> IsWrite(w', t))
    && (IsWrite(w, t) ==> w'.threads[t].job.p == w.threads[t].job.p && !At(w, t, Finished))
  }

  lemma AsideOk(w: World, w': World, t: nat, d: nat)
    requires CallsOk(w) && Aside(w, w', t, d)
    ensures CallsOk(w')
  {
    forall k | 0 <= k < |w.order| ensures IsCall(w', k) {
      assert IsCall(w, k);
    }
    forall u | IsWrite(w', u) ensures u in w'.order {
      assert IsWrite(w, u);
    }
    forall k | 0 <= k < |w.order| - 1 ensures Done(w', w'.order[k]) {
      assert Done(w, w.order[k]);
    }
  }

  lemma EntryAside(w: World, s: Step)
    requires Enabled(w, s) && (s.BeginApply? || s.CloseCall? || s.TakeLock? || s.SetMode? || s.Drain?)
    ensures Aside(w, Do(w, s), s.t, s.t)
  {
  }

  lemma AcquireAside(w: World, t: nat)
    requires Enabled(w, Acquire(t))
    ensures Aside(w, StepAcquire(w, t), t, t)
  {
  }

  lemma StartDrainAside(w: World, t: nat, d: nat)
    requires Enabled(w, StartDrain(t, d))
    ensures Aside(w, StepStartDrain(w, t, d), t, d)
  {
  }

  lemma ReleaseAside(w: World, t: nat)
    requires Enabled(w, Release(t))
    ensures Aside(w, StepRelease(w, t), t, t)
  {
  }

  lemma PortCloseAside(w: World, t: nat)
    requires Enabled(w, PortClose(t))
    ensures Aside(w, Do(w, PortClose(t)), t, t)
  {
  }

  lemma UnlockAside(w: World, t: nat)
    requires Enabled(w, Unlock(t))
    ensures Aside(w, StepUnlock(w, t), t, t)
  {
  }

  lemma OtherStep(w: World, s: Step)
    requires Enabled(w, s) && !s.BeginWrite? && !s.PortWrite?
    ensures Aside(w, Do(w, s), s.t, if s.StartDrain? then s.d else s.t)
  {
    match s
    case Acquire(t) => AcquireAside(w, t);
    case StartDrain(t, d) => StartDrainAside(w, t, d);
    case Release(t) => ReleaseAside(w, t);
    case PortClose(t) => PortCloseAside(w, t);
    case Unlock(t) => UnlockAside(w, t);
    case _ => EntryAside(w, s);
  }

  /** The thread on the port is the last call: the others are done. */
  lemma WriterIsLast(w: World, t: nat)
    requires CallsOk(w) && At(w, t, OnPort) && IsWrite(w, t)
    ensures w.order != [] && w.order[|w.order| - 1] == t
    ensures forall k :: 0 <= k < |w.order| - 1 ==> w.order[k] != t
  {
    forall k | 0 <= k < |w.order| - 1 ensures w.order[k] != t {
      assert Done(w, w.order[k]);
    }
  }

  lemma PortWriteCalls(w: World, t: nat, limit: nat, n: nat, failed: bool)
    requires CallsOk(w) && Enabled(w, PortWrite(t, limit, n, failed))
    ensures CallsOk(StepPortWrite(w, t, limit, n, failed))
  {
    var w' := StepPortWrite(w, t, limit, n, failed);
    WriterIsLast(w, t);
    forall k | 0 <= k < |w.order| ensures IsCall(w', k) {
      assert IsCall(w, k);
    }
    forall u | IsWrite(w', u) ensures u in w'.order {
      assert IsWrite(w, u);
    }
    forall k | 0 <= k < |w.order| - 1 ensures Done(w', w'.order[k]) {
      assert Done(w, w.order[k]);
    }
  }

  lemma PortWriteWire(w: World, t: nat, limit: nat, n: nat, failed: bool)
    requires WireOk(w) && Enabled(w, PortWrite(t, limit, n, failed))
    requires w.order != [] && w.order[|w.order| - 1] == t
    ensures WireOk(StepPortWrite(w, t, limit, n, failed))
  {
    var job := w.threads[t].job;
    Assoc(Flatten(w.inputs[..|w.order| - 1]), w.port[t], job.p[job.sent..job.sent + n]);
  }

  lemma BeginWriteCalls(w: World, t: nat, p: seq<Byte>)
    requires CallsOk(w) && AllDone(w) && Enabled(w, BeginWrite(t, p))
    ensures CallsOk(Do(w, BeginWrite(t, p)))
  {
    var w' := Do(w, BeginWrite(t, p));
    forall k | 0 <= k < |w'.order| ensures IsCall(w', k) {
      if k < |w.order| {
        assert IsCall(w, k);
      }
    }
    forall u | IsWrite(w', u) ensures u in w'.order {
      if u != t {
        assert IsWrite(w, u);
      }
    }
    forall k | 0 <= k < |w'.order| - 1 ensures Done(w', w'.order[k]) {
      assert Done(w, w.order[k]);
    }
  }

  lemma BeginWriteWire(w: World, t: nat, p: seq<Byte>)
    requires WireOk(w) && Enabled(w, BeginWrite(t, p))
    requires w.order != [] ==> w.port[w.order[|w.order| - 1]] == w.inputs[|w.order| - 1]
    ensures WireOk(Do(w, BeginWrite(t, p)))
  {
    var n := |w.order|;
    assert (w.inputs + [p])[..n] == w.inputs;
    assert Flatten(w.inputs) + [] == Flatten(w.inputs);
    if n > 0 {
      FlattenLast(w.inputs);
    }
  }

  lemma FlattenLast(chunks: seq<seq<Byte>>)
    requires chunks != []
    ensures Flatten(chunks) == Flatten(chunks[..|chunks| - 1]) + chunks[|chunks| - 1]
  {
    var last := |chunks| - 1;
    assert chunks == chunks[..last] + [chunks[last]];
    FlattenSnoc(chunks[..last], chunks[last]);
  }

  /** What the port took from the last call. */
  lemma LastCall(w: World)
    requires Inv(w) && CallsOk(w) && w.order != []
    ensures var t, p := w.order[|w.order| - 1], w.inputs[|w.order| - 1];
            t in w.port && w.port[t] <= p && (Done(w, t) ==> w.port[t] == p)
  {
    assert IsCall(w, |w.order| - 1);
    assert JobOk(w, w.order[|w.order| - 1], w.threads[w.order[|w.order| - 1]]);
  }

  lemma StepPump(w: World, s: Step)
    requires Inv(w) && PumpOk(w) && Enabled(w, s) && (s.BeginWrite? ==> AllDone(w))
    ensures PumpOk(Do(w, s))
  {
    if s.PortWrite? {
      WriterIsLast(w, s.t);
      PortWriteCalls(w, s.t, s.limit, s.n, s.failed);
      PortWriteWire(w, s.t, s.limit, s.n, s.failed);
    } else if s.BeginWrite? {
      if w.order != [] {
        LastCall(w);
      }
      BeginWriteCalls(w, s.t, s.p);
      BeginWriteWire(w, s.t, s.p);
    } else {
      OtherStep(w, s);
      AsideOk(w, Do(w, s), s.t, if s.StartDrain? then s.d else s.t);
    }
  }

  lemma {:induction false} RunPump(run: seq<World>, i: nat)
    requires IsRun(run) && i < |run| && OnePump(run, i)
    ensures PumpOk(run[i])
  {
    if i > 0 {
      RunPump(run, i - 1);
      RunInv(run, i - 1);
      assert StepAt(run, i) && PumpStepAt(run, i);
      var s :| Enabled(run[i - 1], s) && run[i] == Do(run[i - 1], s);
      if s.BeginWrite? {
        assert |run[i].order| == |run[i - 1].order| + 1;
      }
      StepPump(run[i - 1], s);
    }
  }

  /** With the one pump, all that the port ever took is a prefix of all the input in the
      order it was accepted, and all of it when the last call ended without an error. */
  lemma PortTakesTheInputInOrder(run: seq<World>, i: nat)
    requires IsRun(run) && i < |run| && OnePump(run, i)
    ensures var w := run[i];
            && |w.order| == |w.inputs|
            && w.wire <= Flatten(w.inputs)
            && (w.order == [] || Done(w, w.order[|w.order| - 1]) ==> w.wire == Flatten(w.inputs))
  {
    RunInv(run, i);
    RunPump(run, i);
    if run[i].order != [] {
      LastCall(run[i]);
      FlattenLast(run[i].inputs);
    }
  }
}
