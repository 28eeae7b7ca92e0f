/**
 The invariant of the line protocol and what it gives for every run.
 */
module LineProtocolProof {
  import opened LineTypes
  import opened LineGate
  import opened ApprovalRule
  import opened LineProtocol

  // ----- groups of program counters -----

  /** The line is reserved and its request is not recorded yet. */
  predicate PreRecord(pc: Pc) {
    pc.SendReserved? || pc.SendQueued? || pc.SendLinked? || pc.SendRelease?
  }

  /** Inside startLine. */
  predicate Runner(pc: Pc) {
    pc.Start? || pc.Refused? || pc.RefusedLook? || pc.RefusedFree? || Handed(pc)
  }

  /** The gate let the line through and its slot is not freed yet. */
  predicate Handed(pc: Pc) {
    pc.Delivering? || pc.AtRunner? || pc.Ended? || pc.Freeing?
  }

  /** Inside startLine, before the final state is written. */
  predicate Unsettled(pc: Pc) {
    pc.Start? || pc.Refused? || pc.Delivering? || pc.AtRunner? || pc.Ended?
  }

  /** Inside startLine and not past the point where the gate refused the line. */
  predicate Refuser(pc: Pc) {
    pc.Start? || pc.Refused? || pc.RefusedLook? || pc.RefusedFree?
  }

  predicate Closer(pc: Pc) {
    pc.CloseWithdraw? || pc.CloseLook? || pc.CloseDrop? || pc.CloseMark?
  }

  /** A thread that will free the slot of its undelivered line by itself. */
  predicate Custodian(pc: Pc) {
    || PreRecord(pc) || pc.SendMark? || pc.SendWithdraw? || pc.SendDrop?
    || pc.CloseWithdraw? || pc.CloseLook? || pc.CloseDrop?
    || pc.Start? || pc.Refused? || pc.RefusedLook? || pc.RefusedFree?
  }

  /** A thread that will withdraw its request by itself. */
  predicate Withdrawer(pc: Pc) {
    pc.SendMark? || pc.SendWithdraw? || pc.CloseWithdraw?
  }

  // ----- the invariant -----

  /** The same line; only the phase may have moved on. */
  predicate SameLine(a: LineRecord, b: LineRecord) {
    a.(phase := Reserved) == b.(phase := Reserved)
  }

  /** The record's context is the gate's own. */
  predicate Snapshot(r: LineRecord, g: Gate) {
    r.mode == g.mode && r.cwd == g.cwd && r.env == g.env && r.unset == g.unset && r.tainted == g.tainted
  }

  ghost predicate Harmless(r: LineRecord, limit: Risk) {
    !SessionNeedsApproval(r.tainted, r.cls, limit)
  }

  ghost predicate WasDelivered(w: World, id: RequestId) {
    exists i :: 0 <= i < |w.deliveries| && w.deliveries[i].plan.id == id
  }

  ghost predicate NotPending(w: World, id: RequestId) {
    id in w.reqs ==> w.reqs[id] != ReqPending
  }

  ghost predicate RecOk(w: World, id: RequestId, rec: LineRecord, auto: bool, limit: Risk) {
    && rec.id == id
    && (HoldsLine(w.gate, id) ==> SameLine(rec, w.gate.inflight.value))
    && (auto ==> Harmless(rec, limit))
  }

  ghost predicate PcOk(w: World, pc: Pc) {
    && (!pc.CloseMark? ==> pc.id in w.used)
    && (PreRecord(pc) ==> pc.id !in w.recorded)
    && (Runner(pc) ==> pc.id in w.recorded && NotPending(w, pc.id))
    && (Unsettled(pc) ==> pc.id !in w.lostFinal)
    && (Closer(pc) ==> IsClosing(w.gate))
    && match pc
       case SendReserved(id, rec, auto, limit) => RecOk(w, id, rec, auto, limit)
       case SendQueued(id, rec, auto, limit) => RecOk(w, id, rec, auto, limit)
       case SendLinked(id, rec, auto, limit) => RecOk(w, id, rec, auto, limit) && id in w.links && w.links[id] == rec
       case SendMark(id) => id in w.recorded
       case SendWithdraw(id) => id in w.recorded
       case SendDrop(id) => id in w.recorded && (id in w.lostWithdraw || NotPending(w, id))
       case Start(id, approved, limit) =>
         && StatusIs(w, id, LaunchState(approved)) && !WasDelivered(w, id)
         && id in w.links && (!approved ==> Harmless(w.links[id], limit))
       case Refused(id, approved) => StatusIs(w, id, LaunchState(approved)) && !WasDelivered(w, id)
       case RefusedLook(id, _) => !WasDelivered(w, id)
       case RefusedFree(id, rec, _) => rec.id == id && !WasDelivered(w, id)
       case Delivering(id, approved, limit, rec) =>
         && StatusIs(w, id, LaunchState(approved)) && HoldsIn(w.gate, id, Running) && rec == w.gate.inflight.value
         && id in w.links && (!approved ==> Harmless(rec, limit))
       case AtRunner(id, approved, rec) =>
         StatusIs(w, id, LaunchState(approved)) && HoldsIn(w.gate, id, Running) && rec == w.gate.inflight.value
       case Ended(id, approved, rec, _, final) =>
         && StatusIs(w, id, LaunchState(approved)) && HoldsIn(w.gate, id, Running) && rec == w.gate.inflight.value
         && !Executing(final) && final != ReqPending
       case Freeing(id, rec, _, _) => HoldsIn(w.gate, id, Running) && rec == w.gate.inflight.value
       case ReconLook(id) => id in w.recorded
       case ReconExpire(id) => id in w.recorded
       case ReconAgain(id) => id in w.recorded
       case ReconDrop(id, _) => id in w.recorded && NotPending(w, id)
       case _ => true
  }

  ghost predicate PcsOk(w: World) {
    forall t :: t in w.threads ==> PcOk(w, w.threads[t])
  }

  ghost predicate IdsOk(w: World) {
    && w.reqs.Keys <= w.recorded <= w.links.Keys <= w.used
    && (w.gate.inflight.Some? ==> w.gate.inflight.value.id in w.used)
    && (forall i :: 0 <= i < |w.deliveries| ==>
          w.deliveries[i].plan.id in w.recorded && NotPending(w, w.deliveries[i].plan.id))
    && (forall id :: id in w.lostFinal ==> id in w.reqs && Executing(w.reqs[id]))
    && (forall id :: id in w.lostWithdraw ==> StatusIs(w, id, ReqPending))
  }

  predicate SamePre(p: Pc, q: Pc) {
    PreRecord(p) && PreRecord(q) && p.id == q.id
  }

  predicate SameRunner(p: Pc, q: Pc) {
    Runner(p) && Runner(q) && p.id == q.id
  }

  /** No two threads prepare, and no two threads start, the same request. */
  ghost predicate UniquePre(w: World) {
    forall t, u :: t in w.threads && u in w.threads && SamePre(w.threads[t], w.threads[u]) ==> t == u
  }

  ghost predicate UniqueRunner(w: World) {
    forall t, u :: t in w.threads && u in w.threads && SameRunner(w.threads[t], w.threads[u]) ==> t == u
  }

  ghost predicate GateOk(w: World) {
    && w.gate.runOpen == (w.gate.inflight.Some? && w.gate.inflight.value.phase == Running)
    && (w.gate.inflight.Some? ==>
          var r := w.gate.inflight.value;
          && Snapshot(r, w.gate)
          && (r.id in w.links ==> SameLine(w.links[r.id], r))
          && (r.phase != Reserved ==> r.id in w.recorded)
          && (r.phase == Running <==> WasDelivered(w, r.id)))
  }

  // The four promises below are about threads that will act by themselves.

  ghost predicate HandedOf(w: World, id: RequestId) {
    exists t :: t in w.threads && Handed(w.threads[t]) && w.threads[t].id == id
  }

  ghost predicate UnsettledOf(w: World, id: RequestId) {
    exists t :: t in w.threads && Unsettled(w.threads[t]) && w.threads[t].id == id
  }

  ghost predicate WithdrawerOf(w: World, id: RequestId) {
    exists t :: t in w.threads && Withdrawer(w.threads[t]) && w.threads[t].id == id
  }

  ghost predicate CustodianOf(w: World, id: RequestId) {
    exists t :: t in w.threads && Custodian(w.threads[t]) && w.threads[t].id == id
  }

  ghost predicate RunningHeld(w: World, id: RequestId) {
    HoldsIn(w.gate, id, Running) ==> HandedOf(w, id)
  }

  ghost predicate ExecutingHeld(w: World, id: RequestId) {
    id in w.reqs && Executing(w.reqs[id]) ==> id in w.lostFinal || UnsettledOf(w, id)
  }

  ghost predicate PendingHeld(w: World, id: RequestId) {
    StatusIs(w, id, ReqPending) ==>
      || id in w.lostWithdraw
      || (!IsClosing(w.gate) && HoldsIn(w.gate, id, Pending))
      || WithdrawerOf(w, id)
  }

  ghost predicate RefuserOf(w: World, id: RequestId) {
    exists t :: t in w.threads && Refuser(w.threads[t]) && w.threads[t].id == id
  }

  ghost predicate DecidedHeld(w: World, id: RequestId) {
    id in w.reqs && Executing(w.reqs[id]) && HoldsLine(w.gate, id) && w.gate.inflight.value.phase != Running ==>
      RefuserOf(w, id)
  }

  ghost predicate ClosingHeld(w: World, id: RequestId) {
    IsClosing(w.gate) && HoldsLine(w.gate, id) && w.gate.inflight.value.phase != Running ==> CustodianOf(w, id)
  }

  ghost predicate HeldFor(w: World, id: RequestId) {
    RunningHeld(w, id) && ExecutingHeld(w, id) && PendingHeld(w, id) && DecidedHeld(w, id) && ClosingHeld(w, id)
  }

  ghost predicate Held(w: World) {
    forall id :: HeldFor(w, id)
  }

  /** Everything the source promises about one line that the gate lets through. */
  ghost predicate DeliveryOk(d: Delivery) {
    && d.plan.phase == Running
    && d.status == LaunchState(d.approved)
    && !IsClosing(d.gate)
    && Snapshot(d.plan, d.gate)
    && SameLine(d.shown, d.plan)
    && (!d.approved ==> Harmless(d.plan, d.limit))
  }

  ghost predicate DeliveriesOk(w: World) {
    && (forall i :: 0 <= i < |w.deliveries| ==> DeliveryOk(w.deliveries[i]))
    && (forall i, j :: 0 <= i < j < |w.deliveries| ==> w.deliveries[i].plan.id != w.deliveries[j].plan.id)
  }

  predicate ChangesShell(d: Delivery) {
    d.plan.mode == Shell && d.plan.cls.effect == StateChange
  }

  ghost predicate TaintOk(w: World) {
    && (forall i :: 0 <= i < |w.deliveries| ==> w.deliveries[i].plan.mode == w.gate.mode)
    && (forall i :: 0 <= i < |w.deliveries| && ChangesShell(w.deliveries[i]) ==>
          w.gate.tainted || (HoldsLine(w.gate, w.deliveries[i].plan.id) && w.gate.inflight.value == w.deliveries[i].plan))
    && (forall i, j :: 0 <= i < j < |w.deliveries| && ChangesShell(w.deliveries[i]) ==> w.deliveries[j].approved)
  }

  ghost predicate Sound(w: World) {
    && IdsOk(w)
    && PcsOk(w)
    && UniquePre(w)
    && UniqueRunner(w)
    && GateOk(w)
    && DeliveriesOk(w)
    && TaintOk(w)
  }

  ghost predicate Inv(w: World) {
    Sound(w) && Held(w)
  }

  lemma InitTables(mode: Mode, cwd: string)
    ensures var w := Init(mode, cwd); IdsOk(w) && GateOk(w) && DeliveriesOk(w) && TaintOk(w)
  {
  }

  lemma InitThreads(mode: Mode, cwd: string)
    ensures var w := Init(mode, cwd); PcsOk(w) && UniquePre(w) && UniqueRunner(w)
  {
  }

  lemma InitHeld(mode: Mode, cwd: string, id: RequestId)
    ensures HeldFor(Init(mode, cwd), id)
  {
  }

  lemma InitInv(mode: Mode, cwd: string)
    ensures Inv(Init(mode, cwd))
  {
    InitTables(mode, cwd);
    InitThreads(mode, cwd);
    forall id ensures HeldFor(Init(mode, cwd), id) {
      InitHeld(mode, cwd, id);
    }
  }

  // ----- what one step may change -----

  /** Every thread but `t` is where it was. */
  ghost predicate OnlyMoves(w: World, w': World, t: nat) {
    && (forall u :: u in w.threads && u != t ==> u in w'.threads && w'.threads[u] == w.threads[u])
    && (forall u :: u in w'.threads && u != t ==> u in w.threads)
  }

  ghost predicate IsPre(w: World, t: nat, id: RequestId) {
    t in w.threads && PreRecord(w.threads[t]) && w.threads[t].id == id
  }

  ghost predicate IsRunner(w: World, t: nat, id: RequestId) {
    t in w.threads && Runner(w.threads[t]) && w.threads[t].id == id
  }

  /** What a step of thread `t` may do to the facts about request `id`. */
  ghost predicate Evolves(w: World, w': World, t: nat, id: RequestId) {
    && (id in w.used ==> id in w'.used)
    && (id in w.recorded ==> id in w'.recorded)
    && (id in w'.recorded ==> id in w.recorded || IsPre(w, t, id))
    && (id in w.recorded && NotPending(w, id) ==> NotPending(w', id))
    && (id in w.reqs && Executing(w.reqs[id]) ==> StatusIs(w', id, w.reqs[id]) || IsRunner(w, t, id))
    && (id in w'.lostFinal ==> id in w.lostFinal || IsRunner(w, t, id))
    && (id in w.lostWithdraw ==> id in w'.lostWithdraw || NotPending(w', id))
    && (WasDelivered(w', id) ==> WasDelivered(w, id) || IsRunner(w, t, id))
    && (id in w.links ==> id in w'.links && (w'.links[id] == w.links[id] || IsPre(w, t, id)))
    && (HoldsIn(w.gate, id, Running) ==> w'.gate.inflight == w.gate.inflight || IsRunner(w, t, id))
    && (HoldsLine(w'.gate, id) ==>
          id !in w.used || (HoldsLine(w.gate, id) && SameLine(w.gate.inflight.value, w'.gate.inflight.value)))
  }

  ghost predicate Evolution(w: World, w': World, t: nat) {
    && (forall id :: Evolves(w, w', t, id))
    && (IsClosing(w.gate) ==> IsClosing(w'.gate))
  }

  /** The new place of thread `t` is sound, and it starts to prepare or to run
      a request only when no other thread does. */
  ghost predicate Lands(w: World, w': World, t: nat) {
    t in w'.threads ==>
      var pc := w'.threads[t];
      && PcOk(w', pc)
      && (PreRecord(pc) ==> IsPre(w, t, pc.id) || pc.id !in w.used)
      && (Runner(pc) ==> IsRunner(w, t, pc.id) || pc.id !in w.recorded || !NotPending(w, pc.id))
  }

  lemma OtherPcOk(w: World, w': World, t: nat, u: nat)
    requires Sound(w) && Evolution(w, w', t) && u in w.threads && u != t
    ensures PcOk(w', w.threads[u])
  {
    var pc := w.threads[u];
    if !pc.CloseMark? {
      assert PcOk(w, pc);
      assert Evolves(w, w', t, pc.id);
      assert IsPre(w, t, pc.id) && PreRecord(pc) ==> SamePre(w.threads[t], pc);
      assert IsRunner(w, t, pc.id) && Runner(pc) ==> SameRunner(w.threads[t], pc);
    }
  }

  lemma StillUnique(w: World, w': World, t: nat)
    requires Sound(w) && OnlyMoves(w, w', t) && Lands(w, w', t)
    ensures UniquePre(w') && UniqueRunner(w')
  {
    forall u | u in w'.threads && u != t && t in w'.threads
      ensures !SamePre(w'.threads[u], w'.threads[t]) && !SamePre(w'.threads[t], w'.threads[u])
      ensures !SameRunner(w'.threads[u], w'.threads[t]) && !SameRunner(w'.threads[t], w'.threads[u])
    {
      var pc := w.threads[u];
      assert PcOk(w, pc);
      if PreRecord(pc) && IsPre(w, t, pc.id) {
        assert SamePre(pc, w.threads[t]);
      }
      if Runner(pc) && IsRunner(w, t, pc.id) {
        assert SameRunner(pc, w.threads[t]);
      }
    }
  }

  /** The step rule: it is enough to look at the moving thread and at the shared state. */
  lemma Advance(w: World, w': World, t: nat)
    requires Sound(w) && OnlyMoves(w, w', t) && Evolution(w, w', t) && Lands(w, w', t)
    requires IdsOk(w') && GateOk(w') && DeliveriesOk(w') && TaintOk(w')
    ensures Sound(w')
  {
    StillUnique(w, w', t);
    forall u | u in w'.threads
      ensures PcOk(w', w'.threads[u])
    {
      if u != t {
        OtherPcOk(w, w', t, u);
      }
    }
  }

  /** A step that only moves its thread. */
  lemma QuietStep(w: World, w': World, t: nat)
    requires Sound(w) && OnlyMoves(w, w', t) && w' == w.(threads := w'.threads) && Lands(w, w', t)
    ensures Sound(w')
  {
    Advance(w, w', t);
  }

  /** A step that, besides its thread, only logs a call of the runner. */
  lemma CallStep(w: World, w': World, t: nat)
    requires Sound(w) && OnlyMoves(w, w', t) && w' == w.(threads := w'.threads, calls := w'.calls) && Lands(w, w', t)
    ensures Sound(w')
  {
    assert forall x :: WasDelivered(w', x) <==> WasDelivered(w, x);
    Advance(w, w', t);
  }

  /** A step that, besides its thread, only changes the status of `id`. */
  ghost predicate OnlyTable(w: World, w': World, id: RequestId) {
    && w' == w.(threads := w'.threads, reqs := w'.reqs, recorded := w'.recorded,
               lostFinal := w'.lostFinal, lostWithdraw := w'.lostWithdraw)
    && w.recorded <= w'.recorded <= w.recorded + {id}
    && w.reqs.Keys <= w'.reqs.Keys + {id} && w'.reqs.Keys <= w.reqs.Keys + {id}
    && (forall x :: x in w.reqs && x != id ==> w'.reqs[x] == w.reqs[x])
    && w.lostFinal <= w'.lostFinal <= w.lostFinal + {id}
    && w.lostWithdraw - {id} <= w'.lostWithdraw <= w.lostWithdraw + {id}
  }

  /** What such a step may do to `id`. */
  ghost predicate TableRow(w: World, w': World, t: nat, id: RequestId) {
    && (id in w'.recorded ==> id in w.recorded || IsPre(w, t, id))
    && (id in w.recorded && NotPending(w, id) ==> NotPending(w', id))
    && (id in w.reqs && Executing(w.reqs[id]) ==> StatusIs(w', id, w.reqs[id]) || IsRunner(w, t, id))
    && (id in w'.lostFinal ==> id in w.lostFinal || IsRunner(w, t, id))
    && (id in w'.lostFinal ==> id in w'.reqs && Executing(w'.reqs[id]))
    && (id in w'.lostWithdraw ==> StatusIs(w', id, ReqPending))
    && (id in w.lostWithdraw && id !in w'.lostWithdraw ==> NotPending(w', id))
    && w'.reqs.Keys <= w'.recorded <= w.links.Keys
  }

  ghost predicate TableChange(w: World, w': World, t: nat, id: RequestId) {
    OnlyTable(w, w', id) && TableRow(w, w', t, id)
  }

  lemma TableEvolves(w: World, w': World, t: nat, id: RequestId)
    requires OnlyTable(w, w', id) && TableRow(w, w', t, id)
    ensures Evolution(w, w', t)
  {
    assert forall x :: WasDelivered(w', x) <==> WasDelivered(w, x);
    forall x ensures Evolves(w, w', t, x) {
      if x != id {
        assert x in w.reqs <==> x in w'.reqs;
      }
    }
  }

  lemma TableShared(w: World, w': World, t: nat, id: RequestId)
    requires Sound(w) && TableChange(w, w', t, id)
    ensures IdsOk(w') && GateOk(w') && DeliveriesOk(w') && TaintOk(w')
  {
    assert forall x :: WasDelivered(w', x) <==> WasDelivered(w, x);
    TableIds(w, w', t, id);
  }

  lemma TableIds(w: World, w': World, t: nat, id: RequestId)
    requires IdsOk(w) && TableChange(w, w', t, id)
    ensures IdsOk(w')
  {
    forall x | x in w'.lostFinal ensures x in w'.reqs && Executing(w'.reqs[x]) {
      assert x != id ==> x in w.lostFinal;
    }
    forall x | x in w'.lostWithdraw ensures StatusIs(w', x, ReqPending) {
      assert x != id ==> x in w.lostWithdraw && (x in w.reqs <==> x in w'.reqs);
    }
  }

  lemma TableStep(w: World, w': World, t: nat, id: RequestId)
    requires Sound(w) && OnlyMoves(w, w', t) && TableChange(w, w', t, id) && Lands(w, w', t)
    ensures Sound(w')
  {
    TableEvolves(w, w', t, id);
    TableShared(w, w', t, id);
    Advance(w, w', t);
  }

  /** A step that, besides its thread, only changes the gate and what is finished. */
  lemma GateStep(w: World, w': World, t: nat)
    requires Sound(w) && OnlyMoves(w, w', t) && Lands(w, w', t)
    requires w' == w.(threads := w'.threads, gate := w'.gate, finished := w'.finished)
    requires GateOk(w') && TaintOk(w')
    requires IsClosing(w.gate) ==> IsClosing(w'.gate)
    requires w.gate.inflight.Some? && w.gate.inflight.value.phase == Running ==>
               w'.gate.inflight == w.gate.inflight || IsRunner(w, t, w.gate.inflight.value.id)
    requires w'.gate.inflight.Some? ==>
               && w.gate.inflight.Some?
               && SameLine(w.gate.inflight.value, w'.gate.inflight.value)
    ensures Sound(w')
  {
    assert forall x :: WasDelivered(w', x) <==> WasDelivered(w, x);
    assert Evolution(w, w', t);
    Advance(w, w', t);
  }

  // ----- who still acts after a step -----

  predicate HandedAt(w: World, t: nat, id: RequestId) {
    t in w.threads && Handed(w.threads[t]) && w.threads[t].id == id
  }

  predicate UnsettledAt(w: World, t: nat, id: RequestId) {
    t in w.threads && Unsettled(w.threads[t]) && w.threads[t].id == id
  }

  predicate WithdrawerAt(w: World, t: nat, id: RequestId) {
    t in w.threads && Withdrawer(w.threads[t]) && w.threads[t].id == id
  }

  predicate CustodianAt(w: World, t: nat, id: RequestId) {
    t in w.threads && Custodian(w.threads[t]) && w.threads[t].id == id
  }

  predicate RefuserAt(w: World, t: nat, id: RequestId) {
    t in w.threads && Refuser(w.threads[t]) && w.threads[t].id == id
  }

  predicate ExecutingIn(w: World, id: RequestId) {
    id in w.reqs && Executing(w.reqs[id])
  }

  predicate WaitsOpen(w: World, id: RequestId) {
    !IsClosing(w.gate) && HoldsIn(w.gate, id, Pending)
  }

  predicate Undelivered(w: World, id: RequestId) {
    HoldsLine(w.gate, id) && w.gate.inflight.value.phase != Running
  }

  /** After a step of `t`, each duty about `id` is either with `t` or was and
      stays with another thread. */
  lemma HeldAfter(w: World, w': World, t: nat, id: RequestId)
    requires HeldFor(w, id) && OnlyMoves(w, w', t)
    requires id in w.lostFinal ==> id in w'.lostFinal
    requires id in w.lostWithdraw && StatusIs(w', id, ReqPending) ==> id in w'.lostWithdraw
    requires HoldsIn(w'.gate, id, Running) ==>
               HandedAt(w', t, id) || (HoldsIn(w.gate, id, Running) && !HandedAt(w, t, id))
    requires ExecutingIn(w', id) && id !in w'.lostFinal ==>
               UnsettledAt(w', t, id) || (ExecutingIn(w, id) && !UnsettledAt(w, t, id))
    requires StatusIs(w', id, ReqPending) && id !in w'.lostWithdraw ==>
               || WaitsOpen(w', id)
               || WithdrawerAt(w', t, id)
               || (StatusIs(w, id, ReqPending) && !WithdrawerAt(w, t, id) && !WaitsOpen(w, id))
    requires ExecutingIn(w', id) && Undelivered(w', id) ==>
               RefuserAt(w', t, id) || (ExecutingIn(w, id) && Undelivered(w, id) && !RefuserAt(w, t, id))
    requires IsClosing(w'.gate) && Undelivered(w', id) ==>
               || CustodianOf(w', id)
               || CustodianAt(w', t, id)
               || (IsClosing(w.gate) && Undelivered(w, id) && !CustodianAt(w, t, id))
    ensures HeldFor(w', id)
  {
  }
}
