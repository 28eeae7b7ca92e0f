/**
 What becomes of a request when nobody interferes: approved, or started without a human,
 it runs once, memory and store show its outcome, and its reservation is given back. And
 in every step, why the status that memory shows may change.
 */
module RequestPaths {
  import opened Chains
  import opened LineTypes
  import opened RequestTable
  import opened RequestRuns

  ghost predicate Reaches(w: World, w': World) {
    Joined(CanStep, w, w')
  }

  lemma ReachesOn(w: World, m: World, w': World)
    requires Reaches(w, m) && Reaches(m, w')
    ensures Reaches(w, w')
  {
    JoinedOn(CanStep, w, m, w');
  }

  lemma StepReaches(w: World, s: Step)
    requires Enabled(w, s)
    ensures Reaches(w, Do(w, s))
  {
    NextIsJoined(CanStep, w, Do(w, s));
  }

  lemma GotoTwice(w: World, k: nat, a: Pc, b: Pc)
    ensures Goto(Goto(w, k, a), k, b) == Goto(w, k, b)
  {
    Twice(w.runs, k, a, b);
  }

  // ----- the steps of an execution -----

  function Registered(e: Execs): Execs {
    e.(keys := e.keys + {e.last + 1}, last := e.last + 1, wg := e.wg + 1)
  }

  lemma ReserveReaches(w: World, id: RequestId, line: bool)
    requires w.up && !w.execs.closed
    ensures Reaches(w, Goto(w.(execs := Registered(w.execs)), w.execs.last + 1, Holding(id, line)))
  {
    StepReaches(w, HoldDo(DoReserve(id, line)));
  }

  /** Memory and store show `status` for the request. */
  function Showing(tb: Tables, id: RequestId, status: Status): Tables
    requires id in tb.db
  {
    Tables(tb.mem[id := status], tb.db[id := tb.db[id].(status := status)])
  }

  predicate BothShow(tb: Tables, id: RequestId, status: Status) {
    id in tb.mem && tb.mem[id] == status && id in tb.db && tb.db[id].status == status
  }

  lemma ApproveReaches(w: World, k: nat, id: RequestId, line: bool)
    requires w.up && BothShow(w.tb, id, ReqPending)
    ensures Reaches(Goto(w, k, Holding(id, line)),
                    Goto(w.(tb := Showing(w.tb, id, ReqRunning), owner := w.owner[id := k]), k, Granted(id, line, ReqRunning)))
  {
    var w1 := w.(tb := Showing(w.tb, id, ReqRunning), owner := w.owner[id := k]);
    GotoTwice(w1, k, Holding(id, line), Granted(id, line, ReqRunning));
    StepReaches(Goto(w, k, Holding(id, line)), RunDo(DoApprove(k, Fine)));
  }

  lemma StartReaches(w: World, k: nat, id: RequestId, line: bool, from: Status)
    requires w.up && id in w.tb.db
    ensures Reaches(Goto(w, k, Granted(id, line, from)),
                    Goto(w.(starts := w.starts + [Start(id, from, w.tb.db[id].status)], begun := w.begun + {id}),
                         k, Started(id, line, from)))
  {
    var w1 := w.(starts := w.starts + [Start(id, from, w.tb.db[id].status)], begun := w.begun + {id});
    GotoTwice(w1, k, Granted(id, line, from), Started(id, line, from));
    StepReaches(Goto(w, k, Granted(id, line, from)), RunDo(DoStart(k)));
  }

  /** What the outcome of an approved, or of an automatic, execution is called. */
  function Named(approved: bool, ok: bool, interrupted: bool): Status {
    if interrupted then ReqInterrupted
    else if ok then (if approved then ReqSucceeded else ReqAutoSucceeded)
    else if approved then ReqFailed
    else ReqAutoFailed
  }

  lemma EndReaches(w: World, k: nat, id: RequestId, line: bool, from: Status, ok: bool, interrupted: bool)
    requires w.up && Executing(from)
    ensures Reaches(Goto(w, k, Started(id, line, from)),
                    Goto(w.(ended := w.ended[id := End(from, ok, interrupted)]), k,
                         Finishing(id, line, from, Named(from == ReqRunning, ok, interrupted))))
  {
    var a, b := Started(id, line, from), Finishing(id, line, from, Named(from == ReqRunning, ok, interrupted));
    GotoTwice(w.(ended := w.ended[id := End(from, ok, interrupted)]), k, a, b);
    StepReaches(Goto(w, k, a), RunDo(DoEnd(k, ok, interrupted)));
  }

  lemma FinalReaches(w: World, k: nat, id: RequestId, line: bool, from: Status, final: Status)
    requires w.up && BothShow(w.tb, id, from)
    ensures Reaches(Goto(w, k, Finishing(id, line, from, final)), Goto(w.(tb := Showing(w.tb, id, final)), k, Releasing))
  {
    GotoTwice(w.(tb := Showing(w.tb, id, final)), k, Finishing(id, line, from, final), Releasing);
    StepReaches(Goto(w, k, Finishing(id, line, from, final)), RunDo(DoFinalize(k, Fine, true)));
  }

  function WithoutKey(e: Execs, k: nat): Execs {
    e.(keys := e.keys - {k}, wg := e.wg - 1)
  }

  lemma LeaveReaches(w: World, k: nat)
    requires w.up && k !in w.runs
    ensures Reaches(Goto(w, k, Releasing), w.(execs := WithoutKey(w.execs, k)))
  {
    var w1 := w.(execs := w.execs.(keys := w.execs.keys - {k}));
    GotoTwice(w1, k, Releasing, Unregistered);
    StepReaches(Goto(w, k, Releasing), HoldDo(DoUnregister(k)));
    assert w.runs[k := Unregistered] - {k} == w.runs;
    StepReaches(Goto(w1, k, Unregistered), HoldDo(DoDone(k)));
    ReachesOn(Goto(w, k, Releasing), Goto(w1, k, Unregistered), w.(execs := WithoutKey(w.execs, k)));
  }

  lemma ReserveAutoReaches(w: World, id: RequestId, line: bool)
    requires w.up && !w.execs.closed && id !in w.used
    ensures var k := w.execs.last + 1;
            Reaches(w, Goto(w.(execs := Registered(w.execs), used := w.used + {id}, owner := w.owner[id := k]), k,
                            AutoReserved(id, line)))
  {
    StepReaches(w, HoldDo(DoReserveAuto(id, line)));
  }

  lemma PublishReaches(w: World, k: nat, id: RequestId, line: bool)
    requires w.up
    ensures Reaches(Goto(w, k, AutoReserved(id, line)),
                    Goto(w.(tb := Tables(w.tb.mem[id := ReqAutoRunning], w.tb.db[id := Row(ReqAutoRunning, false)])), k,
                         Granted(id, line, ReqAutoRunning)))
  {
    var w1 := w.(tb := w.tb.(db := w.tb.db[id := Row(ReqAutoRunning, false)]));
    var w2 := w.(tb := Tables(w.tb.mem[id := ReqAutoRunning], w.tb.db[id := Row(ReqAutoRunning, false)]));
    GotoTwice(w1, k, AutoReserved(id, line), AutoInserted(id, line));
    StepReaches(Goto(w, k, AutoReserved(id, line)), RunDo(DoInsert(k, Fine)));
    GotoTwice(w2, k, AutoInserted(id, line), Granted(id, line, ReqAutoRunning));
    StepReaches(Goto(w1, k, AutoInserted(id, line)), RunDo(DoPublish(k)));
    ReachesOn(Goto(w, k, AutoReserved(id, line)), Goto(w1, k, AutoInserted(id, line)),
              Goto(w2, k, Granted(id, line, ReqAutoRunning)));
  }

  // ----- from the grant to the end -----

  /** The execution started once, ended, and its outcome is written. */
  function RunFrom(w: World, id: RequestId, from: Status, ok: bool, interrupted: bool): World
    requires id in w.tb.db
  {
    w.(starts := w.starts + [Start(id, from, w.tb.db[id].status)], begun := w.begun + {id},
       ended := w.ended[id := End(from, ok, interrupted)],
       tb := Showing(w.tb, id, Named(from == ReqRunning, ok, interrupted)))
  }

  lemma FinishReaches(w: World, k: nat, id: RequestId, line: bool, from: Status, ok: bool, interrupted: bool)
    requires w.up && Executing(from) && BothShow(w.tb, id, from)
    ensures Reaches(Goto(w, k, Started(id, line, from)),
                    Goto(w.(ended := w.ended[id := End(from, ok, interrupted)],
                            tb := Showing(w.tb, id, Named(from == ReqRunning, ok, interrupted))), k, Releasing))
  {
    var final := Named(from == ReqRunning, ok, interrupted);
    var w1 := w.(ended := w.ended[id := End(from, ok, interrupted)]);
    EndReaches(w, k, id, line, from, ok, interrupted);
    FinalReaches(w1, k, id, line, from, final);
    ReachesOn(Goto(w, k, Started(id, line, from)), Goto(w1, k, Finishing(id, line, from, final)),
              Goto(w1.(tb := Showing(w1.tb, id, final)), k, Releasing));
  }

  lemma GrantedReaches(w: World, k: nat, id: RequestId, line: bool, from: Status, ok: bool, interrupted: bool)
    requires w.up && Executing(from) && BothShow(w.tb, id, from) && k !in w.runs
    ensures var w' := RunFrom(w, id, from, ok, interrupted);
            Reaches(Goto(w, k, Granted(id, line, from)), w'.(execs := WithoutKey(w.execs, k)))
  {
    var w1 := w.(starts := w.starts + [Start(id, from, w.tb.db[id].status)], begun := w.begun + {id});
    var w2 := RunFrom(w, id, from, ok, interrupted);
    StartReaches(w, k, id, line, from);
    FinishReaches(w1, k, id, line, from, ok, interrupted);
    ReachesOn(Goto(w, k, Granted(id, line, from)), Goto(w1, k, Started(id, line, from)), Goto(w2, k, Releasing));
    LeaveReaches(w2, k);
    ReachesOn(Goto(w, k, Granted(id, line, from)), Goto(w2, k, Releasing), w2.(execs := WithoutKey(w2.execs, k)));
  }

  // ----- the theorems -----

  /** From `w` to `w'` nothing happened but one execution of this request: it was started
      once, memory and store show its outcome, and its reservation is given back. */
  predicate RanOnce(w: World, w': World, id: RequestId, from: Status, final: Status) {
    && w'.runs == w.runs && w'.starts == w.starts + [Start(id, from, from)]
    && w'.tb.mem == w.tb.mem[id := final]
    && id in w'.tb.db && w'.tb.db[id].status == final && w'.tb.db - {id} == w.tb.db - {id}
    && w'.execs == w.execs.(last := w.execs.last + 1)
  }

  /** The next reservation is a new one. */
  predicate NextIsNew(w: World) {
    w.execs.last + 1 !in w.runs && w.execs.last + 1 !in w.execs.keys
  }

  lemma KeyGivenBack(e: Execs)
    requires e.last + 1 !in e.keys
    ensures WithoutKey(Registered(e), e.last + 1) == e.(last := e.last + 1)
  {
    assert e.keys + {e.last + 1} - {e.last + 1} == e.keys;
  }

  lemma ShownTwice(tb: Tables, id: RequestId, a: Status, b: Status)
    requires id in tb.db
    ensures var tb' := Showing(Showing(tb, id, a), id, b);
            && tb'.mem == tb.mem[id := b] && id in tb'.db && tb'.db[id].status == b && tb'.db - {id} == tb.db - {id}
  {
    Twice(tb.mem, id, a, b);
  }

  /** While the intake is open, an approved request can run. */
  lemma ApprovedRequestRuns(w: World, id: RequestId, line: bool, ok: bool, interrupted: bool) returns (w': World)
    requires w.up && !w.execs.closed && NextIsNew(w) && BothShow(w.tb, id, ReqPending)
    ensures Reaches(w, w')
    ensures RanOnce(w, w', id, ReqRunning, if interrupted then ReqInterrupted else if ok then ReqSucceeded else ReqFailed)
  {
    var k := w.execs.last + 1;
    var w1 := w.(execs := Registered(w.execs));
    var w2 := w1.(tb := Showing(w1.tb, id, ReqRunning), owner := w1.owner[id := k]);
    ReserveReaches(w, id, line);
    ApproveReaches(w1, k, id, line);
    ReachesOn(w, Goto(w1, k, Holding(id, line)), Goto(w2, k, Granted(id, line, ReqRunning)));
    GrantedReaches(w2, k, id, line, ReqRunning, ok, interrupted);
    w' := RunFrom(w2, id, ReqRunning, ok, interrupted).(execs := WithoutKey(w2.execs, k));
    ReachesOn(w, Goto(w2, k, Granted(id, line, ReqRunning)), w');
    KeyGivenBack(w.execs);
    ShownTwice(w.tb, id, ReqRunning, Named(true, ok, interrupted));
  }

  /** While the intake is open, a request that needs no human can run. */
  lemma AutomaticRequestRuns(w: World, id: RequestId, line: bool, ok: bool, interrupted: bool) returns (w': World)
    requires w.up && !w.execs.closed && NextIsNew(w) && id !in w.used
    ensures Reaches(w, w')
    ensures RanOnce(w, w', id, ReqAutoRunning,
                    if interrupted then ReqInterrupted else if ok then ReqAutoSucceeded else ReqAutoFailed)
  {
    var k := w.execs.last + 1;
    var w1 := w.(execs := Registered(w.execs), used := w.used + {id}, owner := w.owner[id := k]);
    var w2 := w1.(tb := Tables(w.tb.mem[id := ReqAutoRunning], w.tb.db[id := Row(ReqAutoRunning, false)]));
    ReserveAutoReaches(w, id, line);
    PublishReaches(w1, k, id, line);
    ReachesOn(w, Goto(w1, k, AutoReserved(id, line)), Goto(w2, k, Granted(id, line, ReqAutoRunning)));
    GrantedReaches(w2, k, id, line, ReqAutoRunning, ok, interrupted);
    w' := RunFrom(w2, id, ReqAutoRunning, ok, interrupted).(execs := WithoutKey(w2.execs, k));
    ReachesOn(w, Goto(w2, k, Granted(id, line, ReqAutoRunning)), w');
    KeyGivenBack(w.execs);
    Twice(w.tb.mem, id, ReqAutoRunning, Named(false, ok, interrupted));
  }

  // ----- why the shown status changes -----

  function Shown(w: World, id: RequestId): Option<Status> {
    if id in w.tb.mem then Some(w.tb.mem[id]) else None
  }

  predicate RunCause(w: World, s: RunStep, id: RequestId, from: Option<Status>, to: Option<Status>)
    requires RunEnabled(w, s)
  {
    || (s.DoApprove? && w.runs[s.k].id == id && s.weather == Fine && from == Some(ReqPending) && to == Some(ReqRunning))
    || (s.DoPublish? && w.runs[s.k].id == id && to == Some(ReqAutoRunning))
    || (s.DoFinalize? && w.runs[s.k].id == id && from == Some(w.runs[s.k].from)
        && (to == Some(w.runs[s.k].final)
            || (!w.runs[s.k].line && s.weather == Fine && s.looks && id in w.tb.db && to == Some(w.tb.db[id].status))))
  }

  predicate TableCause(w: World, s: TableStep, id: RequestId, from: Option<Status>, to: Option<Status>) {
    || (s.DoQueued? && s.id == id && to == Some(ReqPending))
    || (s.DoDecide? && s.id == id && s.weather == Fine && from == Some(ReqPending) && to == Some(s.to))
    || (s.DoDelete? && s.id == id && s.weather == Fine
        && from.Some? && from.value != ReqRunning && from.value != ReqAutoRunning && to == None)
  }

  lemma RunShows(w: World, s: RunStep, id: RequestId)
    requires RunEnabled(w, s) && Shown(w, id) != Shown(RunStepped(w, s), id)
    ensures RunCause(w, s, id, Shown(w, id), Shown(RunStepped(w, s), id))
  {
    if s.DoFinalize? {
      FinalizeShows(w, s.k, s.weather, s.looks, id);
    }
  }

  lemma FinalizeShows(w: World, k: nat, weather: Weather, looks: bool, id: RequestId)
    requires RunEnabled(w, DoFinalize(k, weather, looks)) && Shown(w, id) != Shown(StepFinalize(w, k, weather, looks), id)
    ensures RunCause(w, DoFinalize(k, weather, looks), id, Shown(w, id), Shown(StepFinalize(w, k, weather, looks), id))
  {
    var pc := w.runs[k];
    TransitionMeans(w.tb, pc.id, {pc.from}, pc.final, weather);
    FinalizeMeans(w.tb, pc.id, pc.from, pc.final, weather, looks);
  }

  lemma TableShows(w: World, s: TableStep, id: RequestId)
    requires TableEnabled(w, s) && Shown(w, id) != Shown(TableStepped(w, s), id)
    ensures TableCause(w, s, id, Shown(w, id), Shown(TableStepped(w, s), id))
  {
    if s.DoDecide? {
      TransitionMeans(w.tb, s.id, {ReqPending}, s.to, s.weather);
    } else if s.DoDelete? {
      DeleteMeans(w.tb, s.id, s.weather, s.looks);
    }
  }

  /** In every step, what memory shows of a request changes only so: it appears as pending
      once it is stored, or as auto_running; an approval or a decision that the store took
      changes pending; an end changes what was executing, into the outcome or into another
      process's row; a deletion that the store took removes what does not execute; and
      otherwise only a crash forgets and only a restart loads. */
  lemma ShownStatusMovesForACause(w: World, s: Step, id: RequestId)
    requires Enabled(w, s) && Shown(w, id) != Shown(Do(w, s), id)
    ensures var from, to := Shown(w, id), Shown(Do(w, s), id);
            match s
            case HoldDo(_) => false
            case RunDo(x) => RunCause(w, x, id, from, to)
            case TableDo(x) => TableCause(w, x, id, from, to)
            case LifeDo(x) => if x.DoCrash? then to == None else x.DoRestart?
  {
    match s
    case HoldDo(_) =>
    case RunDo(x) => RunShows(w, x, id);
    case TableDo(x) => TableShows(w, x, id);
    case LifeDo(_) =>
  }

  /** Shutdown, crash and start-up: the intake is closed; memory and executions are gone and
      the store is not; memory shows what is loaded, with what was running interrupted when
      the recovery works. */
  lemma LifeMeans(w: World, s: LifeStep)
    requires LifeEnabled(w, s)
    ensures var w' := LifeStepped(w, s);
            match s
            case DoCloseIntake => w'.execs.closed && w'.tb == w.tb && w'.runs == w.runs
            case DoCrash => !w'.up && w'.tb == Tables(map[], w.tb.db) && w'.runs == map[] && w'.execs == Execs(false, {}, 0, 0)
            case DoRestart(weather, kept) =>
              && w'.up && w'.tb.mem.Keys == kept && w'.tb.db.Keys == w.tb.db.Keys && w'.runs == w.runs
              && forall id :: id in kept ==>
                   var stored := w.tb.db[id].status;
                   w'.tb.mem[id] == (if weather != Fails && (stored == ReqRunning || stored == ReqAutoRunning) then ReqInterrupted
                                     else stored)
  {
    if s.DoRestart? {
      RecoveredMeans(w.tb.db, s.weather);
    }
  }
}
