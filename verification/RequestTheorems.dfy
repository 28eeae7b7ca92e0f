/**
 What holds in every run of the program, across store failures, crashes,
 restarts and shutdown.
 */
module RequestTheorems {
  import opened LineTypes
  import opened RequestTable
  import opened RequestRuns
  import opened RequestProof

  lemma HoldInv(w: World, s: HoldStep)
    requires Inv(w) && HoldEnabled(w, s)
    ensures Inv(HoldStepped(w, s))
  {
    match s
    case DoReserve(id, line) => ReserveInv(w, id, line);
    case DoReserveAuto(id, line) => ReserveAutoInv(w, id, line);
    case DoAbort(k) => AbortInv(w, k);
    case DoUnregister(k) => UnregisterInv(w, k);
    case DoDone(k) => DoneInv(w, k);
  }

  lemma RunStepInv(w: World, s: RunStep)
    requires Inv(w) && RunEnabled(w, s)
    ensures Inv(RunStepped(w, s))
  {
    match s
    case DoApprove(k, weather) => ApproveInv(w, k, weather);
    case DoInsert(k, weather) => InsertInv(w, k, weather);
    case DoPublish(k) => PublishInv(w, k);
    case DoStart(k) => StartInv(w, k);
    case DoSkip(k, interrupted) => SkipInv(w, k, interrupted);
    case DoEnd(k, ok, interrupted) => EndInv(w, k, ok, interrupted);
    case DoFinalize(k, weather, looks) => FinalizeInv(w, k, weather, looks);
  }

  lemma TableInv(w: World, s: TableStep)
    requires Inv(w) && TableEnabled(w, s)
    ensures Inv(TableStepped(w, s))
  {
    match s
    case DoQueue(id, weather) => QueueInv(w, id, weather);
    case DoQueued(id) => QueuedInv(w, id);
    case DoDecide(id, to, weather) => DecideInv(w, id, to, weather);
    case DoDelete(id, weather, looks) => DeleteInv(w, id, weather, looks);
    case DoForeign(id, to) => ForeignInv(w, id, to);
  }

  lemma LifeInv(w: World, s: LifeStep)
    requires Inv(w) && LifeEnabled(w, s)
    ensures Inv(LifeStepped(w, s))
  {
    match s
    case DoCloseIntake => CloseInv(w);
    case DoCrash => CrashInv(w);
    case DoRestart(weather, kept) => RestartInv(w, weather, kept);
  }

  lemma StepInv(w: World, s: Step)
    requires Inv(w) && Enabled(w, s)
    ensures Inv(Do(w, s))
  {
    match s
    case HoldDo(x) => HoldInv(w, x);
    case RunDo(x) => RunStepInv(w, x);
    case TableDo(x) => TableInv(w, x);
    case LifeDo(x) => LifeInv(w, x);
  }

  lemma {:induction false} RunInv(run: seq<World>, i: nat)
    requires IsRun(run) && i < |run|
    ensures Inv(run[i])
  {
    if i > 0 {
      RunInv(run, i - 1);
      assert StepAt(run, i);
      var s :| Enabled(run[i - 1], s) && run[i] == Do(run[i - 1], s);
      StepInv(run[i - 1], s);
    }
  }

  // ----- at most once -----

  /** No command is started twice, in one life of the program or in several, and
      at every start the store already held the request as running or
      auto_running, unless another process had written its end. */
  lemma StartedAtMostOnce(run: seq<World>, i: nat)
    requires IsRun(run) && i < |run|
    ensures var starts := run[i].starts;
            && (forall a, b :: 0 <= a < b < |starts| ==> starts[a].id != starts[b].id)
            && (forall a :: 0 <= a < |starts| ==>
                  && Executing(starts[a].from)
                  && (starts[a].stored == starts[a].from || starts[a].id in run[i].foreign))
  {
    RunInv(run, i);
    forall a | 0 <= a < |run[i].starts|
      ensures Executing(run[i].starts[a].from)
      ensures run[i].starts[a].stored == run[i].starts[a].from || run[i].starts[a].id in run[i].foreign
    {
      assert StartOk(run[i], run[i].starts[a]);
    }
  }

  /** The request has left pending for good. */
  predicate Decided(w: World, id: RequestId) {
    && Settled(w, id) && id !in w.queuing
    && (id in w.tb.mem ==> w.tb.mem[id] != ReqPending)
  }

  lemma HoldDecided(w: World, s: HoldStep, id: RequestId)
    requires HoldEnabled(w, s) && Decided(w, id)
    ensures Decided(HoldStepped(w, s), id)
  {
  }

  lemma RunDecided(w: World, s: RunStep, id: RequestId)
    requires Inv(w) && RunEnabled(w, s) && Decided(w, id)
    ensures Decided(RunStepped(w, s), id)
  {
    assert PcOk(w, s.k, w.runs[s.k]) && IdOk(w, id);
    match s
    case DoApprove(k, weather) => ApproveDecided(w, k, weather, id);
    case DoFinalize(k, weather, looks) => FinalizeDecided(w, k, weather, looks, id);
    case _ => PlainRunDecided(w, s, id);
  }

  lemma ApproveDecided(w: World, k: nat, weather: Weather, id: RequestId)
    requires RunEnabled(w, DoApprove(k, weather)) && Decided(w, id)
    ensures Decided(StepApprove(w, k, weather), id)
  {
  }

  lemma FinalizeDecided(w: World, k: nat, weather: Weather, looks: bool, id: RequestId)
    requires RunEnabled(w, DoFinalize(k, weather, looks)) && PcOk(w, k, w.runs[k]) && Decided(w, id)
    ensures Decided(StepFinalize(w, k, weather, looks), id)
  {
  }

  lemma PlainRunDecided(w: World, s: RunStep, id: RequestId)
    requires RunEnabled(w, s) && PcOk(w, s.k, w.runs[s.k]) && Decided(w, id) && !s.DoApprove? && !s.DoFinalize?
    ensures Decided(RunStepped(w, s), id)
  {
  }

  lemma TableDecided(w: World, s: TableStep, id: RequestId)
    requires Inv(w) && TableEnabled(w, s) && Decided(w, id)
    ensures Decided(TableStepped(w, s), id)
  {
    assert IdOk(w, id);
    if s.DoDelete? {
      DeleteDecided(w, s, id);
    } else if s.DoDecide? {
      DecideDecided(w, s, id);
    } else {
      OtherDecided(w, s, id);
    }
  }

  lemma DeleteDecided(w: World, s: TableStep, id: RequestId)
    requires s.DoDelete? && TableEnabled(w, s) && Decided(w, id)
    ensures Decided(TableStepped(w, s), id)
  {
    if s.id != id {
      DeleteElsewhere(w.tb, s.id, s.weather, s.looks, id);
    }
  }

  lemma DecideDecided(w: World, s: TableStep, id: RequestId)
    requires s.DoDecide? && TableEnabled(w, s) && Decided(w, id)
    ensures Decided(TableStepped(w, s), id)
  {
  }

  lemma OtherDecided(w: World, s: TableStep, id: RequestId)
    requires s.DoQueue? || s.DoQueued? || s.DoForeign?
    requires TableEnabled(w, s) && Decided(w, id) && id in w.used
    ensures Decided(TableStepped(w, s), id)
  {
  }

  lemma LifeDecided(w: World, s: LifeStep, id: RequestId)
    requires LifeEnabled(w, s) && Decided(w, id)
    ensures Decided(LifeStepped(w, s), id)
  {
  }

  lemma StepDecided(w: World, s: Step, id: RequestId)
    requires Inv(w) && Enabled(w, s) && Decided(w, id)
    ensures Decided(Do(w, s), id)
  {
    match s
    case HoldDo(x) => HoldDecided(w, x, id);
    case RunDo(x) => RunDecided(w, x, id);
    case TableDo(x) => TableDecided(w, x, id);
    case LifeDo(x) => LifeDecided(w, x, id);
  }

  lemma {:induction false} DecidedStays(run: seq<World>, i: nat, j: nat, id: RequestId)
    requires IsRun(run) && i <= j < |run| && Decided(run[i], id)
    ensures Decided(run[j], id)
    decreases j
  {
    if i < j {
      DecidedStays(run, i, j - 1, id);
      DecidedNext(run, j, id);
    }
  }

  lemma DecidedNext(run: seq<World>, j: nat, id: RequestId)
    requires IsRun(run) && 0 < j < |run| && Decided(run[j - 1], id)
    ensures Decided(run[j], id)
  {
    RunInv(run, j - 1);
    assert StepAt(run, j);
    var s :| Enabled(run[j - 1], s) && run[j] == Do(run[j - 1], s);
    StepDecided(run[j - 1], s, id);
  }

  /** A request that was seen in any state but pending, or whose command was ever
      started, is never pending again, neither in memory nor in the store, and is
      never lost from the store, whatever crashes and failed writes come between. */
  lemma NeverPendingAgain(run: seq<World>, i: nat, j: nat, id: RequestId)
    requires IsRun(run) && i <= j < |run|
    requires id in run[i].begun || (id in run[i].tb.mem && run[i].tb.mem[id] != ReqPending)
    ensures id in run[j].tb.db && run[j].tb.db[id].status != ReqPending
    ensures id in run[j].tb.mem ==> run[j].tb.mem[id] != ReqPending
  {
    RunInv(run, i);
    assert IdOk(run[i], id);
    DecidedStays(run, i, j, id);
  }

  // ----- the drain -----

  /** Every request that memory shows as running has an execution that holds a
      reservation, so the wait count is not zero; the exceptions are exactly the
      requests whose recovery or whose session-line outcome the store refused. */
  lemma RunningIsReserved(run: seq<World>, i: nat, id: RequestId)
    requires IsRun(run) && i < |run|
    requires id in run[i].tb.mem && Executing(run[i].tb.mem[id])
    ensures var w := run[i];
            || LeftRunning(w, id)
            || (Carried(w, id) && w.owner[id] in w.execs.keys && w.execs.wg > 0)
  {
    RunInv(run, i);
    assert IdOk(run[i], id);
    if Carried(run[i], id) {
      assert run[i].owner[id] in run[i].runs.Keys;
    }
  }

  /** Intake is closed and the wait count is zero. */
  predicate Drained(w: World) {
    w.up && w.execs.closed && w.execs.wg == 0
  }

  lemma DrainedIsIdle(w: World)
    requires Inv(w) && Drained(w)
    ensures w.runs == map[]
    ensures forall id :: (id in w.tb.mem && Executing(w.tb.mem[id])) <==> LeftRunning(w, id)
  {
    assert w.runs.Keys == {};
    forall id ensures (id in w.tb.mem && Executing(w.tb.mem[id])) <==> LeftRunning(w, id) {
      assert IdOk(w, id);
    }
  }

  lemma DrainedStep(w: World, s: Step)
    requires Inv(w) && Drained(w) && Enabled(w, s) && Do(w, s).epoch == w.epoch
    ensures Drained(Do(w, s)) && Do(w, s).starts == w.starts
    ensures Do(w, s).stale == w.stale && Do(w, s).unsaved == w.unsaved
  {
    DrainedIsIdle(w);
  }

  lemma DrainedNext(run: seq<World>, j: nat)
    requires IsRun(run) && 0 < j < |run| && Drained(run[j - 1]) && run[j].epoch == run[j - 1].epoch
    ensures Drained(run[j]) && run[j].starts == run[j - 1].starts
    ensures run[j].stale == run[j - 1].stale && run[j].unsaved == run[j - 1].unsaved
  {
    RunInv(run, j - 1);
    assert StepAt(run, j);
    var s :| Enabled(run[j - 1], s) && run[j] == Do(run[j - 1], s);
    DrainedStep(run[j - 1], s);
  }

  /** Once intake is closed and the wait count is zero it stays so until the
      process ends: no command starts any more, and a request is still running in
      memory exactly when its recovery or its outcome was refused by the store. */
  lemma {:induction false} DrainIsFinal(run: seq<World>, i: nat, j: nat)
    requires IsRun(run) && i <= j < |run|
    requires Drained(run[i]) && run[j].epoch == run[i].epoch
    ensures Drained(run[j]) && run[j].starts == run[i].starts
    ensures run[j].stale == run[i].stale && run[j].unsaved == run[i].unsaved
    ensures forall id :: (id in run[j].tb.mem && Executing(run[j].tb.mem[id])) <==> LeftRunning(run[i], id)
    decreases j
  {
    RunInv(run, j);
    if i < j {
      EpochGrows(run, i, j - 1);
      EpochGrows(run, j - 1, j);
      DrainIsFinal(run, i, j - 1);
      DrainedNext(run, j);
    }
    DrainedIsIdle(run[j]);
  }

  lemma {:induction false} EpochGrows(run: seq<World>, i: nat, j: nat)
    requires IsRun(run) && i <= j < |run|
    ensures run[i].epoch <= run[j].epoch
    decreases j
  {
    if i < j {
      EpochGrows(run, i, j - 1);
      assert StepAt(run, j);
      StepEpoch(run[j - 1], run[j]);
    }
  }

  lemma RunEpoch(w: World, s: RunStep)
    requires RunEnabled(w, s)
    ensures RunStepped(w, s).epoch == w.epoch
  {
  }

  lemma TableEpoch(w: World, s: TableStep)
    requires TableEnabled(w, s)
    ensures TableStepped(w, s).epoch == w.epoch
  {
  }

  lemma StepEpoch(w: World, w': World)
    requires CanStep(w, w')
    ensures w.epoch <= w'.epoch
  {
    var s :| Enabled(w, s) && w' == Do(w, s);
    match s
    case HoldDo(x) => assert HoldStepped(w, x).epoch == w.epoch;
    case RunDo(x) => RunEpoch(w, x);
    case TableDo(x) => TableEpoch(w, x);
    case LifeDo(x) => assert LifeStepped(w, x).epoch >= w.epoch;
  }

  // ----- recovery -----

  /** Memory shows the request as running and no execution carries it. */
  predicate RunsAlone(w: World, id: RequestId) {
    id in w.tb.mem && Executing(w.tb.mem[id]) && !Carried(w, id)
  }

  /** The start-up loaded the request as running, because its recovery write failed. */
  predicate NotRecovered(before: World, weather: Weather, kept: set<RequestId>, id: RequestId)
    requires LifeEnabled(before, DoRestart(weather, kept))
  {
    weather == Fails && id in kept && Executing(before.tb.db[id].status)
  }

  lemma StaleAtRestart(w: World, weather: Weather, kept: set<RequestId>, id: RequestId)
    requires LifeEnabled(w, DoRestart(weather, kept))
    ensures id in StepRestart(w, weather, kept).stale <==> NotRecovered(w, weather, kept, id)
  {
  }

  lemma StaleStep(w: World, s: Step)
    requires w.up && Enabled(w, s) && Do(w, s).epoch == w.epoch
    ensures Do(w, s).up && Do(w, s).stale == w.stale
  {
  }

  lemma {:induction false} StaleStays(run: seq<World>, i: nat, j: nat)
    requires IsRun(run) && i <= j < |run| && run[i].up && run[j].epoch == run[i].epoch
    ensures run[j].up && run[j].stale == run[i].stale
    decreases j
  {
    if i < j {
      EpochGrows(run, i, j - 1);
      EpochGrows(run, j - 1, j);
      StaleStays(run, i, j - 1);
      assert StepAt(run, j);
      var s :| Enabled(run[j - 1], s) && run[j] == Do(run[j - 1], s);
      StaleStep(run[j - 1], s);
    }
  }

  lemma AloneIsLeft(w: World, id: RequestId)
    requires Inv(w)
    ensures RunsAlone(w, id) <==> LeftRunning(w, id)
  {
    assert IdOk(w, id);
    if Carried(w, id) {
      assert PcOk(w, w.owner[id], w.runs[w.owner[id]]);
    }
  }

  /** From a start-up until the process ends: a request runs in memory without an
      execution that carries it exactly when that start-up loaded it as running
      because the recovery write failed, or when the store refused the outcome of
      its session line since. So a recovery that was applied leaves nothing running
      behind, up to the first refused write. */
  lemma RecoveryLeavesNothingRunning(run: seq<World>, r: nat, j: nat, weather: Weather, kept: set<RequestId>, id: RequestId)
    requires IsRun(run) && 0 < r <= j < |run| && LifeEnabled(run[r - 1], DoRestart(weather, kept))
    requires run[r] == StepRestart(run[r - 1], weather, kept) && run[j].epoch == run[r].epoch
    ensures RunsAlone(run[j], id) <==> NotRecovered(run[r - 1], weather, kept, id) || id in run[j].unsaved
    ensures Drained(run[j]) && id in run[j].tb.mem && Executing(run[j].tb.mem[id]) ==> RunsAlone(run[j], id)
  {
    StaleAtRestart(run[r - 1], weather, kept, id);
    StaleStays(run, r, j);
    RunInv(run, j);
    AloneIsLeft(run[j], id);
    if Drained(run[j]) {
      DrainedIsIdle(run[j]);
    }
  }

  /** When start-up recovery fails, a request stays "running" through a complete
      drain although its command was never started. */
  lemma FailedRecoveryLeavesRunning() returns (run: seq<World>)
    ensures IsRun(run)
    ensures var last := run[|run| - 1];
            Drained(last) && last.starts == [] && 0 in last.tb.mem && last.tb.mem[0] == ReqAutoRunning
  {
    run := [Init()];
    run := Extend(run, HoldDo(DoReserveAuto(0, false)));
    run := Extend(run, RunDo(DoInsert(1, Fine)));
    run := Extend(run, RunDo(DoPublish(1)));
    run := Extend(run, LifeDo(DoCrash));
    run := Extend(run, LifeDo(DoRestart(Fails, {0})));
    run := Extend(run, LifeDo(DoCloseIntake));
  }

  lemma Extend(run: seq<World>, s: Step) returns (longer: seq<World>)
    requires IsRun(run) && Enabled(run[|run| - 1], s)
    ensures IsRun(longer) && |longer| == |run| + 1 && longer[|run|] == Do(run[|run| - 1], s)
  {
    longer := run + [Do(run[|run| - 1], s)];
    assert longer[0] == run[0];
    forall i | 0 < i < |longer| ensures StepAt(longer, i) {
      if i < |run| {
        assert StepAt(run, i);
      }
    }
  }
}
