/**
 What memory and store show of a request: the outcome of its execution, and the same
 status in both, as long as no other process and no failed write comes between.
 */
module RequestOutcomes {
  import opened LineTypes
  import opened RequestTable
  import opened RequestRuns
  import opened RequestProof
  import opened RequestTheorems

  /** Interrupted when it was interrupted; else succeeded exactly when the command ended ok,
      failed exactly when it did not, in the form that fits how the request was granted. */
  predicate ShowsEnd(s: Status, e: End) {
    if e.interrupted then s == ReqInterrupted
    else if e.from == ReqRunning then s == (if e.ok then ReqSucceeded else ReqFailed)
    else s == (if e.ok then ReqAutoSucceeded else ReqAutoFailed)
  }

  // ----- the invariant -----

  predicate EndOk(w: World, id: RequestId) {
    id in w.ended ==>
      && id in w.used && id !in w.queuing
      && (id in w.tb.mem ==>
            && w.tb.mem[id] != ReqPending
            && (Executing(w.tb.mem[id]) || ShowsEnd(w.tb.mem[id], w.ended[id]) || id in w.foreign))
  }

  predicate Untouched(w: World, id: RequestId) {
    id !in w.foreign && id !in w.torn
  }

  predicate AgreeOk(w: World, id: RequestId) {
    Untouched(w, id) ==>
      && (id in w.tb.mem ==> id in w.tb.db && w.tb.db[id] == Row(w.tb.mem[id], false))
      && (id in w.queuing ==> id in w.tb.db && w.tb.db[id] == Row(ReqPending, false))
  }

  predicate RunOk(w: World, pc: Pc) {
    match pc
    case AutoReserved(id, _) => id !in w.ended
    case AutoInserted(id, _) =>
      && id !in w.ended
      && (Untouched(w, id) ==> id in w.tb.db && w.tb.db[id] == Row(ReqAutoRunning, false))
    case Granted(id, _, _) => id !in w.ended
    case Started(id, _, _) => id !in w.ended
    case Finishing(id, _, from, final) => id in w.ended && w.ended[id].from == from && ShowsEnd(final, w.ended[id])
    case _ => true
  }

  predicate IdShown(w: World, id: RequestId) {
    EndOk(w, id) && AgreeOk(w, id)
  }

  ghost predicate OutInv(w: World) {
    && (forall id :: IdShown(w, id))
    && (forall k :: k in w.runs ==> RunOk(w, w.runs[k]))
    && (!w.up ==> w.ended == map[])
  }

  /** Nothing about request `id` changes that the invariant looks at. */
  predicate SameShown(w: World, w': World, id: RequestId) {
    && (id in w.ended <==> id in w'.ended) && (id in w.ended ==> w'.ended[id] == w.ended[id])
    && (id in w.torn ==> id in w'.torn) && (id in w.foreign ==> id in w'.foreign)
    && (id in w.used ==> id in w'.used)
    && (id in w.queuing <==> id in w'.queuing)
    && (id in w.tb.mem <==> id in w'.tb.mem) && (id in w.tb.mem ==> w'.tb.mem[id] == w.tb.mem[id])
    && (id in w.tb.db <==> id in w'.tb.db) && (id in w.tb.db ==> w'.tb.db[id] == w.tb.db[id])
  }

  predicate Named(pc: Pc) {
    pc.AutoReserved? || pc.AutoInserted? || pc.Granted? || pc.Started? || pc.Finishing?
  }

  lemma RunKept(w: World, w': World, pc: Pc)
    requires RunOk(w, pc) && (Named(pc) ==> SameShown(w, w', pc.id))
    ensures RunOk(w', pc)
  {
  }

  lemma IdKept(w: World, w': World, id: RequestId)
    requires IdShown(w, id) && SameShown(w, w', id)
    ensures IdShown(w', id)
  {
  }

  /** Only request `x` and execution `k` change. */
  lemma OnlyOne(w: World, w': World, k: nat, x: RequestId)
    requires OutInv(w) && (forall id :: id != x ==> SameShown(w, w', id)) && IdShown(w', x)
    requires forall j :: j in w'.runs && j != k ==> j in w.runs && w'.runs[j] == w.runs[j]
    requires forall j :: j in w'.runs && j != k && Names(w'.runs[j], x) ==> RunOk(w', w'.runs[j])
    requires (k in w'.runs ==> RunOk(w', w'.runs[k])) && w'.up == w.up && (!w.up ==> w'.ended == w.ended)
    ensures OutInv(w')
  {
    forall id ensures IdShown(w', id) {
      if id != x {
        IdKept(w, w', id);
      }
    }
    forall j | j in w'.runs ensures RunOk(w', w'.runs[j]) {
      if j != k && !Names(w'.runs[j], x) {
        RunKept(w, w', w.runs[j]);
      }
    }
  }

  // ----- the steps -----

  lemma ReserveShown(w: World, id: RequestId, line: bool)
    requires OutInv(w) && HoldEnabled(w, DoReserve(id, line))
    ensures OutInv(HoldStepped(w, DoReserve(id, line)))
  {
    ObserversKept(w, HoldStepped(w, DoReserve(id, line)), w.execs.last + 1);
  }

  lemma ReserveAutoShown(w: World, id: RequestId, line: bool)
    requires Inv(w) && OutInv(w) && HoldEnabled(w, DoReserveAuto(id, line))
    ensures OutInv(HoldStepped(w, DoReserveAuto(id, line)))
  {
    assert IdShown(w, id);
    ObserversKept(w, HoldStepped(w, DoReserveAuto(id, line)), w.execs.last + 1);
  }

  lemma ReleaseShown(w: World, s: HoldStep)
    requires OutInv(w) && HoldEnabled(w, s) && (s.DoAbort? || s.DoUnregister? || s.DoDone?)
    ensures OutInv(HoldStepped(w, s))
  {
    ObserversKept(w, HoldStepped(w, s), s.k);
  }

  /** A step that touches no table and records no end. */
  lemma ObserversKept(w: World, w': World, k: nat)
    requires OutInv(w) && w'.tb == w.tb && w'.ended == w.ended && w'.torn == w.torn && w'.foreign == w.foreign
    requires w'.queuing == w.queuing && w.used <= w'.used && w'.up == w.up
    requires forall j :: j in w'.runs && j != k ==> j in w.runs && w'.runs[j] == w.runs[j]
    requires k in w'.runs ==> RunOk(w', w'.runs[k])
    ensures OutInv(w')
  {
    forall id ensures IdShown(w', id) {
      IdKept(w, w', id);
    }
    forall j | j in w'.runs ensures RunOk(w', w'.runs[j]) {
      if j != k {
        RunKept(w, w', w.runs[j]);
      }
    }
  }

  lemma HoldShown(w: World, s: HoldStep)
    requires Inv(w) && OutInv(w) && HoldEnabled(w, s)
    ensures OutInv(HoldStepped(w, s))
  {
    match s
    case DoReserve(id, line) => ReserveShown(w, id, line);
    case DoReserveAuto(id, line) => ReserveAutoShown(w, id, line);
    case _ => ReleaseShown(w, s);
  }

  /** The execution of a request that owns it is the only one that names it. */
  lemma NobodyElse(w: World, w': World, k: nat, x: RequestId)
    requires Alone(w, k, x)
    requires forall j :: j in w'.runs && j != k ==> j in w.runs && w'.runs[j] == w.runs[j]
    ensures forall j :: j in w'.runs && j != k ==> !Names(w'.runs[j], x)
  {
  }

  lemma ApproveSelf(w: World, k: nat, weather: Weather)
    requires RunEnabled(w, DoApprove(k, weather)) && IdShown(w, w.runs[k].id) && IdOk(w, w.runs[k].id)
    ensures IdShown(StepApprove(w, k, weather), w.runs[k].id)
    ensures RunOk(StepApprove(w, k, weather), StepApprove(w, k, weather).runs[k])
  {
    TransitionMeans(w.tb, w.runs[k].id, {ReqPending}, ReqRunning, weather);
  }

  lemma ApproveElse(w: World, k: nat, weather: Weather, id: RequestId)
    requires RunEnabled(w, DoApprove(k, weather)) && id != w.runs[k].id
    ensures SameShown(w, StepApprove(w, k, weather), id)
  {
    TransitionMeans(w.tb, w.runs[k].id, {ReqPending}, ReqRunning, weather);
  }

  lemma ApproveNothing(w: World, k: nat, weather: Weather, pc: Pc)
    requires RunEnabled(w, DoApprove(k, weather)) && !ShowsPending(w, w.runs[k].id) && RunOk(w, pc)
    ensures RunOk(StepApprove(w, k, weather), pc)
  {
  }

  lemma ApproveShown(w: World, k: nat, weather: Weather)
    requires Inv(w) && OutInv(w) && RunEnabled(w, DoApprove(k, weather))
    ensures OutInv(StepApprove(w, k, weather))
  {
    var w', x := StepApprove(w, k, weather), w.runs[k].id;
    assert IdShown(w, x) && IdOk(w, x);
    ApproveSelf(w, k, weather);
    forall id | id != x ensures SameShown(w, w', id) {
      ApproveElse(w, k, weather, id);
    }
    if ShowsPending(w, x) {
      PendingIsFree(w, k, x);
      NobodyElse(w, w', k, x);
    } else {
      forall j | j in w'.runs && j != k ensures RunOk(w', w'.runs[j]) {
        ApproveNothing(w, k, weather, w.runs[j]);
      }
    }
    OnlyOne(w, w', k, x);
  }

  lemma InsertShown(w: World, k: nat, weather: Weather)
    requires Inv(w) && OutInv(w) && RunEnabled(w, DoInsert(k, weather))
    ensures OutInv(StepInsert(w, k, weather))
  {
    var w', x := StepInsert(w, k, weather), w.runs[k].id;
    assert IdShown(w, x) && IdOk(w, x) && PcOk(w, k, w.runs[k]) && RunOk(w, w.runs[k]);
    StoreInsertMeans(w.tb.db, x, ReqAutoRunning, weather);
    OwnerIsAlone(w, k, x);
    NobodyElse(w, w', k, x);
    OnlyOne(w, w', k, x);
  }

  lemma PublishShown(w: World, k: nat)
    requires Inv(w) && OutInv(w) && RunEnabled(w, DoPublish(k))
    ensures OutInv(StepPublish(w, k))
  {
    var w', x := StepPublish(w, k), w.runs[k].id;
    assert IdShown(w, x) && IdOk(w, x) && PcOk(w, k, w.runs[k]) && RunOk(w, w.runs[k]);
    OwnerIsAlone(w, k, x);
    NobodyElse(w, w', k, x);
    OnlyOne(w, w', k, x);
  }

  lemma MoveShown(w: World, k: nat)
    requires Inv(w) && OutInv(w) && RunEnabled(w, DoStart(k))
    ensures OutInv(StepStart(w, k))
  {
    var w', x := StepStart(w, k), w.runs[k].id;
    assert IdShown(w, x) && PcOk(w, k, w.runs[k]) && RunOk(w, w.runs[k]);
    OwnerIsAlone(w, k, x);
    NobodyElse(w, w', k, x);
    OnlyOne(w, w', k, x);
  }

  /** The end of an execution fixes the outcome that it will publish. */
  lemma EndShown(w: World, k: nat, s: RunStep)
    requires Inv(w) && OutInv(w) && RunEnabled(w, s) && s.k == k && (s.DoEnd? || s.DoSkip?)
    ensures OutInv(RunStepped(w, s))
  {
    var w', x := RunStepped(w, s), w.runs[k].id;
    assert IdShown(w, x) && IdOk(w, x) && PcOk(w, k, w.runs[k]) && RunOk(w, w.runs[k]);
    OwnerIsAlone(w, k, x);
    NobodyElse(w, w', k, x);
    OnlyOne(w, w', k, x);
  }

  lemma FinalizeSelf(w: World, k: nat, weather: Weather, looks: bool)
    requires RunEnabled(w, DoFinalize(k, weather, looks)) && PcOk(w, k, w.runs[k]) && RunOk(w, w.runs[k])
    requires IdShown(w, w.runs[k].id) && IdOk(w, w.runs[k].id)
    ensures IdShown(StepFinalize(w, k, weather, looks), w.runs[k].id)
  {
    var pc := w.runs[k];
    TransitionMeans(w.tb, pc.id, {pc.from}, pc.final, weather);
    FinalizeMeans(w.tb, pc.id, pc.from, pc.final, weather, looks);
  }

  lemma FinalizeElse(w: World, k: nat, weather: Weather, looks: bool, id: RequestId)
    requires RunEnabled(w, DoFinalize(k, weather, looks)) && id != w.runs[k].id
    ensures SameShown(w, StepFinalize(w, k, weather, looks), id)
  {
    var pc := w.runs[k];
    if pc.line {
      TransitionMeans(w.tb, pc.id, {pc.from}, pc.final, weather);
    } else {
      FinalizeMeans(w.tb, pc.id, pc.from, pc.final, weather, looks);
    }
  }

  lemma FinalizeShown(w: World, k: nat, weather: Weather, looks: bool)
    requires Inv(w) && OutInv(w) && RunEnabled(w, DoFinalize(k, weather, looks))
    ensures OutInv(StepFinalize(w, k, weather, looks))
  {
    var w', x := StepFinalize(w, k, weather, looks), w.runs[k].id;
    assert IdShown(w, x) && IdOk(w, x) && PcOk(w, k, w.runs[k]) && RunOk(w, w.runs[k]);
    FinalizeSelf(w, k, weather, looks);
    forall id | id != x ensures SameShown(w, w', id) {
      FinalizeElse(w, k, weather, looks, id);
    }
    OwnerIsAlone(w, k, x);
    NobodyElse(w, w', k, x);
    OnlyOne(w, w', k, x);
  }

  lemma RunShown(w: World, s: RunStep)
    requires Inv(w) && OutInv(w) && RunEnabled(w, s)
    ensures OutInv(RunStepped(w, s))
  {
    match s
    case DoApprove(k, weather) => ApproveShown(w, k, weather);
    case DoInsert(k, weather) => InsertShown(w, k, weather);
    case DoPublish(k) => PublishShown(w, k);
    case DoStart(k) => MoveShown(w, k);
    case DoSkip(k, _) => EndShown(w, k, s);
    case DoEnd(k, _, _) => EndShown(w, k, s);
    case DoFinalize(k, weather, looks) => FinalizeShown(w, k, weather, looks);
  }

  lemma TableShown(w: World, s: TableStep)
    requires Inv(w) && OutInv(w) && TableEnabled(w, s)
    ensures OutInv(TableStepped(w, s))
  {
    assert IdShown(w, s.id) && IdOk(w, s.id);
    match s
    case DoQueue(id, weather) => QueueShown(w, id, weather);
    case DoQueued(id) => QueuedShown(w, id);
    case DoDecide(id, to, weather) => DecideShown(w, id, to, weather);
    case DoDelete(id, weather, looks) => DeleteShown(w, id, weather, looks);
    case DoForeign(id, to) => ForeignShown(w, id, to);
  }

  lemma OthersAsBefore(w: World, w': World, x: RequestId)
    requires OutInv(w) && w'.runs == w.runs && SameShown(w, w', x)
    ensures forall j :: j in w'.runs && Names(w'.runs[j], x) ==> RunOk(w', w'.runs[j])
  {
    forall j | j in w'.runs && Names(w'.runs[j], x) ensures RunOk(w', w'.runs[j]) {
      assert RunOk(w, w.runs[j]);
    }
  }

  lemma QueueShown(w: World, id: RequestId, weather: Weather)
    requires Inv(w) && OutInv(w) && TableEnabled(w, DoQueue(id, weather))
    ensures OutInv(TableStepped(w, DoQueue(id, weather)))
  {
    var w', k := TableStepped(w, DoQueue(id, weather)), w.execs.last + 1;
    assert IdShown(w, id) && IdOk(w, id);
    StoreInsertMeans(w.tb.db, id, ReqPending, weather);
    UnusedIsFree(w, k, id);
    OnlyOne(w, w', k, id);
  }

  lemma QueuedShown(w: World, id: RequestId)
    requires Inv(w) && OutInv(w) && TableEnabled(w, DoQueued(id))
    ensures OutInv(TableStepped(w, DoQueued(id)))
  {
    var w', k := TableStepped(w, DoQueued(id)), w.execs.last + 1;
    assert IdShown(w, id) && IdOk(w, id);
    forall j | j in w'.runs && Names(w'.runs[j], id) ensures RunOk(w', w'.runs[j]) {
      assert RunOk(w, w.runs[j]) && PcOk(w, j, w.runs[j]);
    }
    OnlyOne(w, w', k, id);
  }

  lemma DecideShown(w: World, id: RequestId, to: Status, weather: Weather)
    requires Inv(w) && OutInv(w) && TableEnabled(w, DoDecide(id, to, weather))
    ensures OutInv(TableStepped(w, DoDecide(id, to, weather)))
  {
    var w', k := TableStepped(w, DoDecide(id, to, weather)), w.execs.last + 1;
    assert IdShown(w, id) && IdOk(w, id);
    TransitionMeans(w.tb, id, {ReqPending}, to, weather);
    if ShowsPending(w, id) {
      PendingIsFree(w, k, id);
      NobodyElse(w, w', k, id);
      OnlyOne(w, w', k, id);
    } else {
      assert w' == w;
    }
  }

  lemma DeleteSelf(w: World, id: RequestId, weather: Weather, looks: bool)
    requires TableEnabled(w, DoDelete(id, weather, looks)) && IdShown(w, id) && IdOk(w, id)
    ensures IdShown(TableStepped(w, DoDelete(id, weather, looks)), id)
  {
    DeleteMeans(w.tb, id, weather, looks);
  }

  lemma DeleteElse(w: World, id: RequestId, weather: Weather, looks: bool, other: RequestId)
    requires TableEnabled(w, DoDelete(id, weather, looks)) && other != id
    ensures SameShown(w, TableStepped(w, DoDelete(id, weather, looks)), other)
  {
    DeleteMeans(w.tb, id, weather, looks);
  }

  lemma DeleteShown(w: World, id: RequestId, weather: Weather, looks: bool)
    requires Inv(w) && OutInv(w) && TableEnabled(w, DoDelete(id, weather, looks))
    ensures OutInv(TableStepped(w, DoDelete(id, weather, looks)))
  {
    var w', k := TableStepped(w, DoDelete(id, weather, looks)), w.execs.last + 1;
    assert IdShown(w, id) && IdOk(w, id);
    if id in w.tb.mem && !Executing(w.tb.mem[id]) {
      DeleteSelf(w, id, weather, looks);
      forall other | other != id ensures SameShown(w, w', other) {
        DeleteElse(w, id, weather, looks, other);
      }
      PendingIsFree(w, k, id);
      NobodyElse(w, w', k, id);
      OnlyOne(w, w', k, id);
    } else {
      assert w' == w;
    }
  }

  lemma ForeignShown(w: World, id: RequestId, to: Status)
    requires Inv(w) && OutInv(w) && TableEnabled(w, DoForeign(id, to))
    ensures OutInv(TableStepped(w, DoForeign(id, to)))
  {
    var w', k := TableStepped(w, DoForeign(id, to)), w.execs.last + 1;
    assert IdShown(w, id);
    forall j | j in w'.runs && Names(w'.runs[j], id) ensures RunOk(w', w'.runs[j]) {
      assert RunOk(w, w.runs[j]);
    }
    OnlyOne(w, w', k, id);
  }

  lemma LifeShown(w: World, s: LifeStep)
    requires Inv(w) && OutInv(w) && LifeEnabled(w, s)
    ensures OutInv(LifeStepped(w, s))
  {
    match s
    case DoCloseIntake => IntakeShown(w);
    case DoCrash => CrashShown(w);
    case DoRestart(weather, kept) => RestartShown(w, weather, kept);
  }

  lemma IntakeShown(w: World)
    requires OutInv(w) && LifeEnabled(w, DoCloseIntake)
    ensures OutInv(LifeStepped(w, DoCloseIntake))
  {
    var w' := LifeStepped(w, DoCloseIntake);
    forall id ensures IdShown(w', id) {
      IdKept(w, w', id);
    }
    forall k | k in w'.runs ensures RunOk(w', w'.runs[k]) {
      RunKept(w, w', w.runs[k]);
    }
  }

  lemma CrashShown(w: World)
    requires LifeEnabled(w, DoCrash)
    ensures OutInv(LifeStepped(w, DoCrash))
  {
  }

  lemma RestartShown(w: World, weather: Weather, kept: set<RequestId>)
    requires Inv(w) && OutInv(w) && LifeEnabled(w, DoRestart(weather, kept))
    ensures OutInv(StepRestart(w, weather, kept))
  {
    var w' := StepRestart(w, weather, kept);
    RecoveredMeans(w.tb.db, weather);
    forall id ensures IdShown(w', id) {
      assert IdShown(w, id);
    }
  }

  lemma StepShown(w: World, s: Step)
    requires Inv(w) && OutInv(w) && Enabled(w, s)
    ensures OutInv(Do(w, s))
  {
    match s
    case HoldDo(x) => HoldShown(w, x);
    case RunDo(x) => RunShown(w, x);
    case TableDo(x) => TableShown(w, x);
    case LifeDo(x) => LifeShown(w, x);
  }

  lemma {:induction false} RunOutInv(run: seq<World>, i: nat)
    requires IsRun(run) && i < |run|
    ensures OutInv(run[i])
  {
    if i > 0 {
      RunOutInv(run, i - 1);
      RunInv(run, i - 1);
      assert StepAt(run, i);
      var s :| Enabled(run[i - 1], s) && run[i] == Do(run[i - 1], s);
      StepShown(run[i - 1], s);
    }
  }

  // ----- the results -----

  /** In every run: a request whose execution ended in this life of the process is shown in
      memory as still running, because its outcome is not written yet or the store refused
      it, or with exactly the outcome of that execution, unless another process wrote its row. */
  lemma MemoryShowsTheOutcome(run: seq<World>, i: nat, id: RequestId)
    requires IsRun(run) && i < |run| && id in run[i].ended && id in run[i].tb.mem && id !in run[i].foreign
    ensures var w := run[i];
            || ShowsEnd(w.tb.mem[id], w.ended[id])
            || ((w.tb.mem[id] == ReqRunning || w.tb.mem[id] == ReqAutoRunning) && (Carried(w, id) || LeftRunning(w, id)))
  {
    RunOutInv(run, i);
    RunInv(run, i);
    assert IdShown(run[i], id) && IdOk(run[i], id);
  }

  /** The outcome of a command is shown from the moment on in which its execution is
      finalized, whatever the store says. */
  lemma FinalizedIsShown(run: seq<World>, i: nat, k: nat, weather: Weather, looks: bool)
    requires IsRun(run) && i < |run| && RunEnabled(run[i], DoFinalize(k, weather, looks)) && !run[i].runs[k].line
    ensures var w, w', id := run[i], StepFinalize(run[i], k, weather, looks), run[i].runs[k].id;
            && id in w.ended && id in w'.tb.mem
            && (ShowsEnd(w'.tb.mem[id], w.ended[id])
                || (id in w.foreign && Stores(w.tb.db, id, w'.tb.mem[id])))
            && (weather == Fine && id !in w.foreign ==> Stores(w'.tb.db, id, w'.tb.mem[id]))
  {
    var w, pc := run[i], run[i].runs[k];
    RunOutInv(run, i);
    RunInv(run, i);
    assert PcOk(w, k, pc) && RunOk(w, pc);
    FinalizeMeans(w.tb, pc.id, pc.from, pc.final, weather, looks);
  }

  /** In every run memory and store show the same status of a request, and the store has not
      marked it deleted, unless another process wrote the row or a write of it went wrong. */
  lemma MemoryAndStoreAgree(run: seq<World>, i: nat, id: RequestId)
    requires IsRun(run) && i < |run| && id in run[i].tb.mem
    requires id !in run[i].foreign && id !in run[i].torn
    ensures id in run[i].tb.db && run[i].tb.db[id] == Row(run[i].tb.mem[id], false)
  {
    RunOutInv(run, i);
    assert IdShown(run[i], id);
  }
}
