/**
 The invariant of the request runs.
 */
module RequestProof {
  import opened LineTypes
  import opened RequestTable
  import opened RequestRuns

  // ----- executions and requests -----

  /** The execution that delivers the request, or is about to. */
  predicate Carries(pc: Pc, id: RequestId) {
    (pc.Granted? || pc.Started? || pc.Finishing?) && pc.id == id
  }

  predicate Names(pc: Pc, id: RequestId) {
    Carries(pc, id) || ((pc.AutoReserved? || pc.AutoInserted?) && pc.id == id)
  }

  predicate OwnedBy(w: World, id: RequestId, k: nat) {
    id in w.owner && w.owner[id] == k
  }

  /** Some execution that holds a reservation carries the request. */
  predicate Carried(w: World, id: RequestId) {
    id in w.owner && w.owner[id] in w.runs && Carries(w.runs[w.owner[id]], id)
  }

  predicate LeftRunning(w: World, id: RequestId) {
    id in w.stale || id in w.unsaved
  }

  // ----- the invariant -----

  predicate Settled(w: World, id: RequestId) {
    id in w.tb.db && w.tb.db[id].status != ReqPending
  }

  predicate MemOk(w: World, id: RequestId) {
    id in w.tb.mem ==>
      && id in w.tb.db && id !in w.queuing
      && (w.tb.mem[id] != ReqPending ==> Settled(w, id))
      && (Executing(w.tb.mem[id]) ==> LeftRunning(w, id) || Carried(w, id))
  }

  predicate IdOk(w: World, id: RequestId) {
    && MemOk(w, id)
    && (id in w.tb.db ==> id in w.used)
    && (id in w.begun ==> Settled(w, id) && (id in w.tb.mem ==> w.tb.mem[id] != ReqPending) && id !in w.queuing)
    && (id in w.queuing ==> id in w.tb.db)
    && (id in w.foreign ==> id in w.tb.db && Final(w.tb.db[id].status))
    && (LeftRunning(w, id) ==> id in w.tb.mem && Executing(w.tb.mem[id]))
  }

  predicate Grip(w: World, id: RequestId, from: Status) {
    && id in w.tb.mem && w.tb.mem[id] == from && Executing(from)
    && id in w.tb.db && (w.tb.db[id].status == from || id in w.foreign)
    && !LeftRunning(w, id)
  }

  predicate Unseen(w: World, id: RequestId) {
    id in w.used && id !in w.tb.mem && id !in w.begun && id !in w.queuing
  }

  predicate PcOk(w: World, k: nat, pc: Pc) {
    match pc
    case AutoReserved(id, _) => OwnedBy(w, id, k) && Unseen(w, id) && id !in w.tb.db
    case AutoInserted(id, _) =>
      OwnedBy(w, id, k) && Unseen(w, id) && Settled(w, id)
      && (w.tb.db[id].status == ReqAutoRunning || id in w.foreign)
    case Granted(id, _, from) => OwnedBy(w, id, k) && Grip(w, id, from) && id !in w.begun
    case Started(id, _, from) => OwnedBy(w, id, k) && Grip(w, id, from)
    case Finishing(id, _, from, final) => OwnedBy(w, id, k) && Grip(w, id, from) && Final(final)
    case _ => true
  }

  ghost predicate RegistryOk(w: World) {
    && w.execs.wg == |w.runs.Keys|
    && (forall k :: k in w.execs.keys <==> k in w.runs && w.runs[k] != Unregistered)
    && (forall k :: k in w.runs ==> k <= w.execs.last)
    && (!w.up ==> w.runs == map[] && w.tb.mem == map[] && w.queuing == {})
  }

  /** Every start was allowed by its status, which the store held. */
  predicate StartOk(w: World, s: Start) {
    s.id in w.begun && Executing(s.from) && (s.stored == s.from || s.id in w.foreign)
  }

  ghost predicate StartsOk(w: World) {
    && (forall i :: 0 <= i < |w.starts| ==> StartOk(w, w.starts[i]))
    && (forall i, j :: 0 <= i < j < |w.starts| ==> w.starts[i].id != w.starts[j].id)
  }

  ghost predicate Inv(w: World) {
    && (forall id :: IdOk(w, id))
    && (forall k :: k in w.runs ==> PcOk(w, k, w.runs[k]))
    && RegistryOk(w)
    && StartsOk(w)
  }

  // ----- one step changes one request and one execution -----

  predicate SameId(w: World, w': World, id: RequestId) {
    && (id in w.tb.mem <==> id in w'.tb.mem) && (id in w.tb.mem ==> w'.tb.mem[id] == w.tb.mem[id])
    && (id in w.tb.db <==> id in w'.tb.db) && (id in w.tb.db ==> w'.tb.db[id] == w.tb.db[id])
    && (id in w.used <==> id in w'.used)
    && (id in w.begun <==> id in w'.begun)
    && (id in w.queuing <==> id in w'.queuing)
    && (id in w.owner <==> id in w'.owner) && (id in w.owner ==> w'.owner[id] == w.owner[id])
    && (id in w.stale <==> id in w'.stale)
    && (id in w.unsaved <==> id in w'.unsaved)
    && (id in w.foreign <==> id in w'.foreign)
  }

  predicate SameRun(w: World, w': World, k: nat) {
    (k in w.runs <==> k in w'.runs) && (k in w.runs ==> w'.runs[k] == w.runs[k])
  }

  ghost predicate Local(w: World, w': World, k: nat, x: RequestId) {
    && (forall id :: id != x ==> SameId(w, w', id))
    && (forall j: nat :: j != k ==> SameRun(w, w', j))
    && (k in w.runs ==> forall id :: Carries(w.runs[k], id) ==> id == x)
  }

  lemma OtherId(w: World, w': World, k: nat, x: RequestId, id: RequestId)
    requires Local(w, w', k, x) && IdOk(w, id) && id != x
    ensures IdOk(w', id)
  {
    assert SameId(w, w', id);
    if Carried(w, id) {
      var j := w.owner[id];
      assert SameRun(w, w', j);
    }
  }

  lemma OtherRun(w: World, w': World, k: nat, x: RequestId, j: nat)
    requires Local(w, w', k, x) && j != k && j in w.runs && PcOk(w, j, w.runs[j]) && !Names(w.runs[j], x)
    ensures j in w'.runs && PcOk(w', j, w'.runs[j])
  {
    assert SameRun(w, w', j);
    var pc := w.runs[j];
    if !pc.Releasing? && !pc.Unregistered? && !pc.Holding? {
      assert SameId(w, w', pc.id);
    }
  }

  /** No other execution names the request. */
  ghost predicate Alone(w: World, k: nat, x: RequestId) {
    forall j :: j in w.runs && j != k ==> !Names(w.runs[j], x)
  }

  lemma Advance(w: World, w': World, k: nat, x: RequestId)
    requires Inv(w) && Local(w, w', k, x)
    requires forall j :: j in w.runs && j != k && Names(w.runs[j], x) ==> PcOk(w', j, w.runs[j])
    requires IdOk(w', x) && (k in w'.runs ==> PcOk(w', k, w'.runs[k]))
    requires RegistryOk(w') && StartsOk(w')
    ensures Inv(w')
  {
    forall id ensures IdOk(w', id) {
      if id != x {
        OtherId(w, w', k, x, id);
      }
    }
    forall j | j in w'.runs ensures PcOk(w', j, w'.runs[j]) {
      if j != k {
        assert SameRun(w, w', j);
        if !Names(w.runs[j], x) {
          OtherRun(w, w', k, x, j);
        }
      }
    }
  }

  /** A request that is pending in memory, or that another execution owns, is nobody else's. */
  lemma PendingIsFree(w: World, k: nat, x: RequestId)
    requires Inv(w) && x in w.tb.mem && !Executing(w.tb.mem[x])
    ensures Alone(w, k, x)
  {
    forall j | j in w.runs && j != k ensures !Names(w.runs[j], x) {
      assert PcOk(w, j, w.runs[j]);
    }
  }

  lemma OwnerIsAlone(w: World, k: nat, x: RequestId)
    requires Inv(w) && OwnedBy(w, x, k)
    ensures Alone(w, k, x)
  {
    forall j | j in w.runs && j != k ensures !Names(w.runs[j], x) {
      assert PcOk(w, j, w.runs[j]);
    }
  }

  lemma UnusedIsFree(w: World, k: nat, x: RequestId)
    requires Inv(w) && x !in w.used
    ensures Alone(w, k, x)
  {
    forall j | j in w.runs && j != k ensures !Names(w.runs[j], x) {
      assert PcOk(w, j, w.runs[j]) && IdOk(w, x);
    }
  }

  // ----- the registry -----

  lemma RunChanged(w: World, w': World, k: nat)
    requires RegistryOk(w) && k in w.runs && k in w'.runs && w'.runs.Keys == w.runs.Keys
    requires w'.execs == w.execs && w'.up && w.up
    requires forall j :: j in w.runs && j != k ==> w'.runs[j] == w.runs[j]
    requires w.runs[k] != Unregistered && w'.runs[k] != Unregistered
    ensures RegistryOk(w')
  {
  }

  lemma KeyAdded(w: World, w': World, k: nat, pc: Pc)
    requires RegistryOk(w) && w.up && w'.up && k == w.execs.last + 1 && pc != Unregistered
    requires w'.runs == w.runs[k := pc] && w'.execs == Execs(w.execs.closed, w.execs.keys + {k}, k, w.execs.wg + 1)
    ensures RegistryOk(w') && k !in w.runs
  {
    assert k !in w.runs;
    OneMoreKey(w.runs, k, pc);
    forall j | j in w'.runs ensures j <= k {
      assert j != k ==> j in w.runs;
    }
    forall j ensures j in w'.execs.keys <==> j in w'.runs && w'.runs[j] != Unregistered {
      assert j != k ==> (j in w'.runs <==> j in w.runs);
    }
  }

  lemma OneMoreKey(runs: map<nat, Pc>, k: nat, pc: Pc)
    requires k !in runs
    ensures |runs[k := pc].Keys| == |runs.Keys| + 1
  {
    assert runs[k := pc].Keys == runs.Keys + {k};
  }

  lemma StartsSame(w: World, w': World)
    requires StartsOk(w) && w'.starts == w.starts && w.begun <= w'.begun && w.foreign <= w'.foreign
    ensures StartsOk(w')
  {
    forall i | 0 <= i < |w'.starts| ensures StartOk(w', w'.starts[i]) {
      assert StartOk(w, w.starts[i]);
    }
  }

  // ----- one lemma per step -----

  lemma ReserveInv(w: World, id: RequestId, line: bool)
    requires Inv(w) && HoldEnabled(w, DoReserve(id, line))
    ensures Inv(HoldStepped(w, DoReserve(id, line)))
  {
    var w' := HoldStepped(w, DoReserve(id, line));
    var k := w.execs.last + 1;
    KeyAdded(w, w', k, Holding(id, line));
    StartsSame(w, w');
    SameOkAfter(w, w', k, id);
    Advance(w, w', k, id);
  }

  /** Nothing about the request changed, and the execution does not carry it. */
  lemma SameOkAfter(w: World, w': World, k: nat, x: RequestId)
    requires Inv(w) && SameId(w, w', x)
    requires forall j: nat :: j != k ==> SameRun(w, w', j)
    requires k in w.runs && Carries(w.runs[k], x) ==> k in w'.runs && Carries(w'.runs[k], x)
    ensures IdOk(w', x)
    ensures forall j :: j in w.runs && j != k && Names(w.runs[j], x) ==> PcOk(w', j, w.runs[j])
  {
    assert IdOk(w, x);
    if Carried(w, x) {
      assert w.owner[x] != k ==> SameRun(w, w', w.owner[x]);
    }
    forall j | j in w.runs && j != k && Names(w.runs[j], x) ensures PcOk(w', j, w.runs[j]) {
      assert PcOk(w, j, w.runs[j]);
    }
  }

  lemma ReserveAutoInv(w: World, id: RequestId, line: bool)
    requires Inv(w) && HoldEnabled(w, DoReserveAuto(id, line))
    ensures Inv(HoldStepped(w, DoReserveAuto(id, line)))
  {
    var w' := HoldStepped(w, DoReserveAuto(id, line));
    var k := w.execs.last + 1;
    KeyAdded(w, w', k, AutoReserved(id, line));
    StartsSame(w, w');
    UnusedIsFree(w, k, id);
    ReserveAutoOk(w, id, line);
    Advance(w, w', k, id);
  }

  lemma ReserveAutoOk(w: World, id: RequestId, line: bool)
    requires Inv(w) && HoldEnabled(w, DoReserveAuto(id, line))
    ensures IdOk(HoldStepped(w, DoReserveAuto(id, line)), id)
    ensures PcOk(HoldStepped(w, DoReserveAuto(id, line)), w.execs.last + 1, AutoReserved(id, line))
  {
    assert IdOk(w, id);
  }

  /** The execution changes its program counter only, and lets go of no request. */
  lemma MoveInv(w: World, k: nat, pc: Pc, x: RequestId)
    requires Inv(w) && w.up && k in w.runs && w.runs[k] != Unregistered && pc != Unregistered
    requires forall id :: Carries(w.runs[k], id) ==> id == x
    requires Carries(w.runs[k], x) ==> Carries(pc, x)
    requires PcOk(Goto(w, k, pc), k, pc)
    ensures Inv(Goto(w, k, pc))
  {
    var w' := Goto(w, k, pc);
    RunChanged(w, w', k);
    StartsSame(w, w');
    SameOkAfter(w, w', k, x);
    Advance(w, w', k, x);
  }

  lemma AbortInv(w: World, k: nat)
    requires Inv(w) && HoldEnabled(w, DoAbort(k))
    ensures Inv(HoldStepped(w, DoAbort(k)))
  {
    MoveInv(w, k, Releasing, 0);
  }

  lemma UnregisterInv(w: World, k: nat)
    requires Inv(w) && HoldEnabled(w, DoUnregister(k))
    ensures Inv(HoldStepped(w, DoUnregister(k)))
  {
    var w' := HoldStepped(w, DoUnregister(k));
    assert w'.runs.Keys == w.runs.Keys;
    StartsSame(w, w');
    SameOkAfter(w, w', k, 0);
    Advance(w, w', k, 0);
  }

  lemma DoneInv(w: World, k: nat)
    requires Inv(w) && HoldEnabled(w, DoDone(k))
    ensures Inv(HoldStepped(w, DoDone(k)))
  {
    var w' := HoldStepped(w, DoDone(k));
    assert w'.runs.Keys == w.runs.Keys - {k};
    StartsSame(w, w');
    SameOkAfter(w, w', k, 0);
    Advance(w, w', k, 0);
  }

  lemma ApproveId(w: World, k: nat, weather: Weather)
    requires Inv(w) && RunEnabled(w, DoApprove(k, weather))
    ensures IdOk(StepApprove(w, k, weather), w.runs[k].id)
  {
    var w', x := StepApprove(w, k, weather), w.runs[k].id;
    assert IdOk(w, x);
    if !(x in w.tb.mem && w.tb.mem[x] == ReqPending) {
      SameOkAfter(w, w', k, x);
    }
  }

  lemma ApproveOthers(w: World, k: nat, weather: Weather)
    requires Inv(w) && RunEnabled(w, DoApprove(k, weather))
    ensures var w', x := StepApprove(w, k, weather), w.runs[k].id;
            forall j :: j in w.runs && j != k && Names(w.runs[j], x) ==> PcOk(w', j, w.runs[j])
  {
    var w', x := StepApprove(w, k, weather), w.runs[k].id;
    if x in w.tb.mem && w.tb.mem[x] == ReqPending {
      PendingIsFree(w, k, x);
    } else {
      SameOkAfter(w, w', k, x);
    }
  }

  lemma ApproveLocal(w: World, k: nat, weather: Weather)
    requires RunEnabled(w, DoApprove(k, weather))
    ensures Local(w, StepApprove(w, k, weather), k, w.runs[k].id)
  {
  }

  lemma ApproveRest(w: World, k: nat, weather: Weather)
    requires RegistryOk(w) && StartsOk(w) && RunEnabled(w, DoApprove(k, weather))
    ensures RegistryOk(StepApprove(w, k, weather)) && StartsOk(StepApprove(w, k, weather))
  {
    var w' := StepApprove(w, k, weather);
    assert w'.runs.Keys == w.runs.Keys;
    RunChanged(w, w', k);
    StartsSame(w, w');
  }

  lemma ApproveInv(w: World, k: nat, weather: Weather)
    requires Inv(w) && RunEnabled(w, DoApprove(k, weather))
    ensures Inv(StepApprove(w, k, weather))
  {
    ApproveLocal(w, k, weather);
    ApproveRest(w, k, weather);
    ApproveId(w, k, weather);
    ApproveOthers(w, k, weather);
    ApproveGrants(w, k, weather);
    Advance(w, StepApprove(w, k, weather), k, w.runs[k].id);
  }

  lemma ApproveGrants(w: World, k: nat, weather: Weather)
    requires Inv(w) && RunEnabled(w, DoApprove(k, weather))
    ensures PcOk(StepApprove(w, k, weather), k, StepApprove(w, k, weather).runs[k])
  {
    assert IdOk(w, w.runs[k].id);
  }

  lemma InsertInv(w: World, k: nat, weather: Weather)
    requires Inv(w) && RunEnabled(w, DoInsert(k, weather))
    ensures Inv(StepInsert(w, k, weather))
  {
    var w', x := StepInsert(w, k, weather), w.runs[k].id;
    assert w'.runs.Keys == w.runs.Keys;
    RunChanged(w, w', k);
    StartsSame(w, w');
    assert IdOk(w, x) && PcOk(w, k, w.runs[k]);
    OwnerIsAlone(w, k, x);
    Advance(w, w', k, x);
  }

  lemma PublishInv(w: World, k: nat)
    requires Inv(w) && RunEnabled(w, DoPublish(k))
    ensures Inv(StepPublish(w, k))
  {
    var w', x := StepPublish(w, k), w.runs[k].id;
    assert w'.runs.Keys == w.runs.Keys;
    RunChanged(w, w', k);
    StartsSame(w, w');
    assert IdOk(w, x) && PcOk(w, k, w.runs[k]);
    OwnerIsAlone(w, k, x);
    Advance(w, w', k, x);
  }

  lemma StartedOnce(w: World, k: nat)
    requires Inv(w) && RunEnabled(w, DoStart(k))
    ensures StartsOk(StepStart(w, k))
  {
    var w', x := StepStart(w, k), w.runs[k].id;
    assert PcOk(w, k, w.runs[k]);
    forall i | 0 <= i < |w'.starts| ensures StartOk(w', w'.starts[i]) {
      if i < |w.starts| {
        assert StartOk(w, w.starts[i]);
      }
    }
    forall i, j | 0 <= i < j < |w'.starts| ensures w'.starts[i].id != w'.starts[j].id {
      assert StartOk(w, w.starts[i]);
    }
  }

  lemma StartInv(w: World, k: nat)
    requires Inv(w) && RunEnabled(w, DoStart(k))
    ensures Inv(StepStart(w, k))
  {
    var w', x := StepStart(w, k), w.runs[k].id;
    assert w'.runs.Keys == w.runs.Keys;
    RunChanged(w, w', k);
    StartedOnce(w, k);
    assert IdOk(w, x) && PcOk(w, k, w.runs[k]);
    OwnerIsAlone(w, k, x);
    Advance(w, w', k, x);
  }

  lemma SkipInv(w: World, k: nat, interrupted: bool)
    requires Inv(w) && RunEnabled(w, DoSkip(k, interrupted))
    ensures Inv(RunStepped(w, DoSkip(k, interrupted)))
  {
    var pc := w.runs[k];
    assert PcOk(w, k, pc);
    var next := Finishing(pc.id, pc.line, pc.from, OutcomeOf(pc.from, false, interrupted));
    MoveInv(w, k, next, pc.id);
    ObserverInv(Goto(w, k, next), RunStepped(w, DoSkip(k, interrupted)));
  }

  /** The invariant does not look at how executions ended nor at failed writes. */
  lemma ObserverInv(w: World, w': World)
    requires Inv(w) && w' == w.(ended := w'.ended, torn := w'.torn)
    ensures Inv(w')
  {
    forall id ensures IdOk(w', id) {
      assert IdOk(w, id);
    }
    forall k | k in w'.runs ensures PcOk(w', k, w'.runs[k]) {
      assert PcOk(w, k, w.runs[k]);
    }
    StartsSame(w, w');
  }

  lemma EndInv(w: World, k: nat, ok: bool, interrupted: bool)
    requires Inv(w) && RunEnabled(w, DoEnd(k, ok, interrupted))
    ensures Inv(RunStepped(w, DoEnd(k, ok, interrupted)))
  {
    var pc := w.runs[k];
    assert PcOk(w, k, pc);
    var next := Finishing(pc.id, pc.line, pc.from, OutcomeOf(pc.from, ok, interrupted));
    MoveInv(w, k, next, pc.id);
    ObserverInv(Goto(w, k, next), RunStepped(w, DoEnd(k, ok, interrupted)));
  }

  lemma FinalizeId(w: World, k: nat, weather: Weather, looks: bool)
    requires Inv(w) && RunEnabled(w, DoFinalize(k, weather, looks))
    ensures IdOk(StepFinalize(w, k, weather, looks), w.runs[k].id)
  {
    assert IdOk(w, w.runs[k].id) && PcOk(w, k, w.runs[k]);
    if w.runs[k].line {
      FinalizeLineId(w, k, weather, looks);
    } else {
      FinalizeCommandId(w, k, weather, looks);
    }
  }

  lemma FinalizeLineId(w: World, k: nat, weather: Weather, looks: bool)
    requires RunEnabled(w, DoFinalize(k, weather, looks)) && w.runs[k].line
    requires IdOk(w, w.runs[k].id) && PcOk(w, k, w.runs[k])
    ensures IdOk(StepFinalize(w, k, weather, looks), w.runs[k].id)
  {
    TransitionMeans(w.tb, w.runs[k].id, {w.runs[k].from}, w.runs[k].final, weather);
  }

  lemma FinalizeCommandId(w: World, k: nat, weather: Weather, looks: bool)
    requires RunEnabled(w, DoFinalize(k, weather, looks)) && !w.runs[k].line
    requires IdOk(w, w.runs[k].id) && PcOk(w, k, w.runs[k])
    ensures IdOk(StepFinalize(w, k, weather, looks), w.runs[k].id)
  {
    FinalizeMeans(w.tb, w.runs[k].id, w.runs[k].from, w.runs[k].final, weather, looks);
  }

  lemma FinalizeLocal(w: World, k: nat, weather: Weather, looks: bool)
    requires Inv(w) && RunEnabled(w, DoFinalize(k, weather, looks))
    ensures Local(w, StepFinalize(w, k, weather, looks), k, w.runs[k].id)
  {
  }

  lemma FinalizeRest(w: World, k: nat, weather: Weather, looks: bool)
    requires Inv(w) && RunEnabled(w, DoFinalize(k, weather, looks))
    ensures StartsOk(StepFinalize(w, k, weather, looks))
    ensures RegistryOk(StepFinalize(w, k, weather, looks))
    ensures StepFinalize(w, k, weather, looks).runs == w.runs[k := Releasing]
  {
    var w' := StepFinalize(w, k, weather, looks);
    assert w'.runs.Keys == w.runs.Keys;
    RunChanged(w, w', k);
    StartsSame(w, w');
  }

  lemma FinalizeInv(w: World, k: nat, weather: Weather, looks: bool)
    requires Inv(w) && RunEnabled(w, DoFinalize(k, weather, looks))
    ensures Inv(StepFinalize(w, k, weather, looks))
  {
    FinalizeId(w, k, weather, looks);
    FinalizeLocal(w, k, weather, looks);
    FinalizeRest(w, k, weather, looks);
    assert PcOk(w, k, w.runs[k]);
    OwnerIsAlone(w, k, w.runs[k].id);
    Advance(w, StepFinalize(w, k, weather, looks), k, w.runs[k].id);
  }

  lemma QueueInv(w: World, id: RequestId, weather: Weather)
    requires Inv(w) && TableEnabled(w, DoQueue(id, weather))
    ensures Inv(TableStepped(w, DoQueue(id, weather)))
  {
    var w' := TableStepped(w, DoQueue(id, weather));
    StartsSame(w, w');
    assert IdOk(w, id);
    UnusedIsFree(w, w.execs.last + 1, id);
    Advance(w, w', w.execs.last + 1, id);
  }

  lemma QueuedInv(w: World, id: RequestId)
    requires Inv(w) && TableEnabled(w, DoQueued(id))
    ensures Inv(TableStepped(w, DoQueued(id)))
  {
    var w' := TableStepped(w, DoQueued(id));
    StartsSame(w, w');
    assert IdOk(w, id);
    forall j | j in w.runs ensures !Names(w.runs[j], id) {
      assert PcOk(w, j, w.runs[j]);
    }
    Advance(w, w', w.execs.last + 1, id);
  }

  lemma DecideInv(w: World, id: RequestId, to: Status, weather: Weather)
    requires Inv(w) && TableEnabled(w, DoDecide(id, to, weather))
    ensures Inv(TableStepped(w, DoDecide(id, to, weather)))
  {
    var w' := TableStepped(w, DoDecide(id, to, weather));
    StartsSame(w, w');
    assert IdOk(w, id);
    if id in w.tb.mem && w.tb.mem[id] == ReqPending {
      PendingIsFree(w, w.execs.last + 1, id);
      Advance(w, w', w.execs.last + 1, id);
    } else {
      assert w' == w;
    }
  }

  lemma DeleteId(w: World, id: RequestId, weather: Weather, looks: bool)
    requires Inv(w) && TableEnabled(w, DoDelete(id, weather, looks))
    ensures IdOk(TableStepped(w, DoDelete(id, weather, looks)), id)
  {
    assert IdOk(w, id);
  }

  predicate SameEntry(tb: Tables, tb': Tables, id: RequestId) {
    && (id in tb.mem <==> id in tb'.mem) && (id in tb.mem ==> tb'.mem[id] == tb.mem[id])
    && (id in tb.db <==> id in tb'.db) && (id in tb.db ==> tb'.db[id] == tb.db[id])
  }

  lemma DeleteElsewhere(tb: Tables, id: RequestId, weather: Weather, looks: bool, other: RequestId)
    requires other != id
    ensures SameEntry(tb, Delete(tb, id, weather, looks), other)
  {
  }

  lemma DeleteLocal(w: World, id: RequestId, weather: Weather, looks: bool)
    requires Inv(w) && TableEnabled(w, DoDelete(id, weather, looks))
    ensures var w' := TableStepped(w, DoDelete(id, weather, looks));
            Local(w, w', w.execs.last + 1, id) && w'.runs == w.runs && RegistryOk(w')
  {
    var w' := TableStepped(w, DoDelete(id, weather, looks));
    forall other | other != id ensures SameId(w, w', other) {
      DeleteElsewhere(w.tb, id, weather, looks, other);
    }
  }

  lemma DeleteInv(w: World, id: RequestId, weather: Weather, looks: bool)
    requires Inv(w) && TableEnabled(w, DoDelete(id, weather, looks))
    ensures Inv(TableStepped(w, DoDelete(id, weather, looks)))
  {
    var w', k := TableStepped(w, DoDelete(id, weather, looks)), w.execs.last + 1;
    DeleteId(w, id, weather, looks);
    DeleteLocal(w, id, weather, looks);
    DeleteOthers(w, id, weather, looks);
    StartsSame(w, w');
    Advance(w, w', k, id);
  }

  lemma DeleteOthers(w: World, id: RequestId, weather: Weather, looks: bool)
    requires Inv(w) && TableEnabled(w, DoDelete(id, weather, looks))
    ensures var w' := TableStepped(w, DoDelete(id, weather, looks));
            forall j :: j in w.runs && Names(w.runs[j], id) ==> PcOk(w', j, w.runs[j])
  {
    if id in w.tb.mem && !Executing(w.tb.mem[id]) {
      PendingIsFree(w, w.execs.last + 1, id);
    } else {
      assert TableStepped(w, DoDelete(id, weather, looks)) == w;
    }
  }

  lemma ForeignInv(w: World, id: RequestId, to: Status)
    requires Inv(w) && TableEnabled(w, DoForeign(id, to))
    ensures Inv(TableStepped(w, DoForeign(id, to)))
  {
    var w' := TableStepped(w, DoForeign(id, to));
    StartsSame(w, w');
    assert IdOk(w, id);
    forall j | j in w.runs && Names(w.runs[j], id) ensures PcOk(w', j, w.runs[j]) {
      assert PcOk(w, j, w.runs[j]);
    }
    Advance(w, w', w.execs.last + 1, id);
  }

  lemma CloseInv(w: World)
    requires Inv(w) && w.up
    ensures Inv(LifeStepped(w, DoCloseIntake))
  {
    var w' := LifeStepped(w, DoCloseIntake);
    StartsSame(w, w');
    SameOkAfter(w, w', w.execs.last + 1, 0);
    Advance(w, w', w.execs.last + 1, 0);
  }

  lemma CrashInv(w: World)
    requires Inv(w) && LifeEnabled(w, DoCrash)
    ensures Inv(LifeStepped(w, DoCrash))
  {
    var w' := LifeStepped(w, DoCrash);
    StartsSame(w, w');
    forall id ensures IdOk(w', id) {
      assert IdOk(w, id);
    }
  }

  lemma RestartInv(w: World, weather: Weather, kept: set<RequestId>)
    requires Inv(w) && LifeEnabled(w, DoRestart(weather, kept))
    ensures Inv(StepRestart(w, weather, kept))
  {
    var w' := StepRestart(w, weather, kept);
    StartsSame(w, w');
    forall id ensures IdOk(w', id) {
      assert IdOk(w, id);
    }
  }
}
