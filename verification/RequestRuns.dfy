/**
 Requests across crashes, restarts and shutdown (`approve`,
 `approveAISessionLine`, `runBypassedCommand`, the auto-run of `sendSessionLine`,
 `finishRequest`, `finishAISessionRequest`, `closeExecIntake`,
 `drainMCPCommands`, start-up recovery).

 A run of the program is a sequence of steps of any number of executions, each
 with its own program counter, of single table operations, and of crashes and
 restarts. The store may refuse any write. Another process may write final
 states into the store.
 */
module RequestRuns {
  import opened LineTypes
  import opened RequestTable

  /** `line` marks a line of an AI session, whose outcome the store may refuse. */
  datatype Pc =
    | Holding(id: RequestId, line: bool)
    | AutoReserved(id: RequestId, line: bool)
    | AutoInserted(id: RequestId, line: bool)
    | Granted(id: RequestId, line: bool, from: Status)
    | Started(id: RequestId, line: bool, from: Status)
    | Finishing(id: RequestId, line: bool, from: Status, final: Status)
    | Releasing
    | Unregistered

  /** A start of a command: the status that allows it and the stored one. */
  datatype Start = Start(id: RequestId, from: Status, stored: Status)

  /** How an execution ended: whether the command ended ok, and whether it was interrupted. */
  datatype End = End(from: Status, ok: bool, interrupted: bool)

  /** `runs` is keyed by reservation; `queuing` holds the requests stored and not
      yet published. The rest only observes: IDs ever made, commands started,
      which execution took a request, requests left running by a recovery
      that the store refused, session lines whose outcome the store refused,
      rows that another process wrote, how executions of this life ended, and requests a
      write of which failed in this life. `epoch` counts crashes. */
  datatype World = World(
    tb: Tables,
    execs: Execs,
    runs: map<nat, Pc>,
    queuing: set<RequestId>,
    up: bool,
    epoch: nat,
    used: set<RequestId>,
    starts: seq<Start>,
    begun: set<RequestId>,
    owner: map<RequestId, nat>,
    stale: set<RequestId>,
    unsaved: set<RequestId>,
    foreign: set<RequestId>,
    ended: map<RequestId, End>,
    torn: set<RequestId>)

  function Init(): World {
    World(Tables(map[], map[]), Execs(false, {}, 0, 0), map[], {}, true, 0, {}, [], {}, map[], {}, {}, {}, map[], {})
  }

  function Goto(w: World, k: nat, pc: Pc): World {
    w.(runs := w.runs[k := pc])
  }

  function OutcomeOf(from: Status, ok: bool, interrupted: bool): Status {
    if interrupted then ReqInterrupted
    else if from == ReqRunning then (if ok then ReqSucceeded else ReqFailed)
    else if ok then ReqAutoSucceeded else ReqAutoFailed
  }

  /** The request joins the torn ones when a write of it was tried and did not go well. */
  function Tear(torn: set<RequestId>, id: RequestId, tried: bool, weather: Weather): set<RequestId> {
    if tried && weather != Fine then torn + {id} else torn
  }

  predicate ShowsPending(w: World, id: RequestId) {
    id in w.tb.mem && w.tb.mem[id] == ReqPending
  }

  // ----- taking and giving back a reservation -----

  datatype HoldStep =
    | DoReserve(id: RequestId, line: bool)
    | DoReserveAuto(id: RequestId, line: bool)
    | DoAbort(k: nat)
    | DoUnregister(k: nat)
    | DoDone(k: nat)

  predicate HoldEnabled(w: World, s: HoldStep) {
    w.up &&
    match s
    case DoReserve(id, line) => !w.execs.closed
    case DoReserveAuto(id, line) => !w.execs.closed && id !in w.used
    case DoAbort(k) => k in w.runs && (w.runs[k].Holding? || w.runs[k].AutoReserved?)
    case DoUnregister(k) => k in w.runs && w.runs[k] == Releasing
    case DoDone(k) => k in w.runs && w.runs[k] == Unregistered
  }

  function StepReserve(w: World, pc: Pc): World {
    var (execs, key) := Reserve(w.execs);
    match key
    case None => w
    case Some(k) => Goto(w.(execs := execs), k, pc)
  }

  function HoldStepped(w: World, s: HoldStep): World
    requires HoldEnabled(w, s)
  {
    match s
    case DoReserve(id, line) => StepReserve(w, Holding(id, line))
    case DoReserveAuto(id, line) =>
      StepReserve(w.(used := w.used + {id}, owner := w.owner[id := w.execs.last + 1]), AutoReserved(id, line))
    case DoAbort(k) => Goto(w, k, Releasing)
    case DoUnregister(k) => Goto(w.(execs := w.execs.(keys := w.execs.keys - {k})), k, Unregistered)
    case DoDone(k) => w.(execs := w.execs.(wg := w.execs.wg - 1), runs := w.runs - {k})
  }

  // ----- an execution -----

  datatype RunStep =
    | DoApprove(k: nat, weather: Weather)
    | DoInsert(k: nat, weather: Weather)
    | DoPublish(k: nat)
    | DoStart(k: nat)
    | DoSkip(k: nat, interrupted: bool)
    | DoEnd(k: nat, ok: bool, interrupted: bool)
    | DoFinalize(k: nat, weather: Weather, looks: bool)

  predicate RunEnabled(w: World, s: RunStep) {
    w.up && s.k in w.runs &&
    match s
    case DoApprove(k, _) => w.runs[k].Holding?
    case DoInsert(k, _) => w.runs[k].AutoReserved?
    case DoPublish(k) => w.runs[k].AutoInserted?
    case DoStart(k) => w.runs[k].Granted?
    case DoSkip(k, _) => w.runs[k].Granted?
    case DoEnd(k, _, _) => w.runs[k].Started?
    case DoFinalize(k, _, _) => w.runs[k].Finishing?
  }

  /** The compare-and-swap that takes the request out of pending. */
  function StepApprove(w: World, k: nat, weather: Weather): World
    requires k in w.runs && w.runs[k].Holding?
  {
    var id := w.runs[k].id;
    var (tb, verdict) := Transition(w.tb, id, {ReqPending}, ReqRunning, weather);
    var torn := Tear(w.torn, id, ShowsPending(w, id), weather);
    if verdict == Won then
      Goto(w.(tb := tb, owner := w.owner[id := k], torn := torn), k, Granted(id, w.runs[k].line, ReqRunning))
    else Goto(w.(tb := tb, torn := torn), k, Releasing)
  }

  function StepInsert(w: World, k: nat, weather: Weather): World
    requires k in w.runs && w.runs[k].AutoReserved?
  {
    var id := w.runs[k].id;
    var (db, answer) := StoreInsert(w.tb.db, id, ReqAutoRunning, weather);
    Goto(w.(tb := w.tb.(db := db), torn := Tear(w.torn, id, true, weather)), k,
         if answer == Stored then AutoInserted(id, w.runs[k].line) else Releasing)
  }

  function StepPublish(w: World, k: nat): World
    requires k in w.runs && w.runs[k].AutoInserted?
  {
    var id := w.runs[k].id;
    Goto(w.(tb := w.tb.(mem := w.tb.mem[id := ReqAutoRunning])), k,
         Granted(id, w.runs[k].line, ReqAutoRunning))
  }

  function StoredStatus(db: map<RequestId, Row>, id: RequestId): Status {
    if id in db then db[id].status else ReqPending
  }

  function StepStart(w: World, k: nat): World
    requires k in w.runs && w.runs[k].Granted?
  {
    var pc := w.runs[k];
    Goto(w.(starts := w.starts + [Start(pc.id, pc.from, StoredStatus(w.tb.db, pc.id))], begun := w.begun + {pc.id}),
         k, Started(pc.id, pc.line, pc.from))
  }

  /** The outcome of a command is always published; that of a session line is
      refused when the store refuses it. */
  function StepFinalize(w: World, k: nat, weather: Weather, looks: bool): World
    requires k in w.runs && w.runs[k].Finishing?
  {
    var pc := w.runs[k];
    if pc.line then
      var (tb, verdict) := Transition(w.tb, pc.id, {pc.from}, pc.final, weather);
      Goto(w.(tb := tb, unsaved := if verdict == Won then w.unsaved else w.unsaved + {pc.id},
              torn := Tear(w.torn, pc.id, true, weather)), k, Releasing)
    else
      Goto(w.(tb := Finalize(w.tb, pc.id, pc.from, pc.final, weather, looks).0,
              torn := Tear(w.torn, pc.id, true, weather)), k, Releasing)
  }

  function RunStepped(w: World, s: RunStep): World
    requires RunEnabled(w, s)
  {
    match s
    case DoApprove(k, weather) => StepApprove(w, k, weather)
    case DoInsert(k, weather) => StepInsert(w, k, weather)
    case DoPublish(k) => StepPublish(w, k)
    case DoStart(k) => StepStart(w, k)
    case DoSkip(k, interrupted) =>
      var pc := w.runs[k];
      Goto(w.(ended := w.ended[pc.id := End(pc.from, false, interrupted)]), k,
           Finishing(pc.id, pc.line, pc.from, OutcomeOf(pc.from, false, interrupted)))
    case DoEnd(k, ok, interrupted) =>
      var pc := w.runs[k];
      Goto(w.(ended := w.ended[pc.id := End(pc.from, ok, interrupted)]), k,
           Finishing(pc.id, pc.line, pc.from, OutcomeOf(pc.from, ok, interrupted)))
    case DoFinalize(k, weather, looks) => StepFinalize(w, k, weather, looks)
  }

  // ----- single table operations -----

  datatype TableStep =
    | DoQueue(id: RequestId, weather: Weather)
    | DoQueued(id: RequestId)
    | DoDecide(id: RequestId, to: Status, weather: Weather)
    | DoDelete(id: RequestId, weather: Weather, looks: bool)
    | DoForeign(id: RequestId, to: Status)

  predicate TableEnabled(w: World, s: TableStep) {
    match s
    case DoQueue(id, _) => w.up && id !in w.used
    case DoQueued(id) => w.up && id in w.queuing
    case DoDecide(_, to, _) => w.up && (to == ReqRejected || to == ReqExpired || to == ReqWithdrawn)
    case DoDelete(_, _, _) => w.up
    case DoForeign(id, to) => id in w.tb.db && Final(to)
  }

  function TableStepped(w: World, s: TableStep): World
    requires TableEnabled(w, s)
  {
    match s
    case DoQueue(id, weather) =>
      var (db, answer) := StoreInsert(w.tb.db, id, ReqPending, weather);
      w.(tb := w.tb.(db := db), used := w.used + {id}, torn := Tear(w.torn, id, true, weather),
         queuing := if answer == Stored then w.queuing + {id} else w.queuing)
    case DoQueued(id) =>
      w.(tb := w.tb.(mem := w.tb.mem[id := ReqPending]), queuing := w.queuing - {id})
    case DoDecide(id, to, weather) =>
      w.(tb := Transition(w.tb, id, {ReqPending}, to, weather).0,
         torn := Tear(w.torn, id, ShowsPending(w, id), weather))
    case DoDelete(id, weather, looks) =>
      w.(tb := Delete(w.tb, id, weather, looks),
         torn := Tear(w.torn, id, id in w.tb.mem && !Executing(w.tb.mem[id]), weather))
    case DoForeign(id, to) =>
      w.(tb := w.tb.(db := w.tb.db[id := w.tb.db[id].(status := to)]), foreign := w.foreign + {id})
  }

  // ----- the life of the process -----

  datatype LifeStep =
    | DoCloseIntake
    | DoCrash
    | DoRestart(weather: Weather, kept: set<RequestId>)

  /** `kept` are the rows loaded; a row that was deleted is never loaded. */
  predicate LifeEnabled(w: World, s: LifeStep) {
    match s
    case DoCloseIntake => w.up
    case DoCrash => w.up
    case DoRestart(_, kept) => !w.up && (forall id :: id in kept ==> id in w.tb.db && !w.tb.db[id].deleted)
  }

  function Loaded(db: map<RequestId, Row>, kept: set<RequestId>): map<RequestId, Status> {
    map id | id in kept && id in db :: db[id].status
  }

  function StepRestart(w: World, weather: Weather, kept: set<RequestId>): World {
    var db := Recovered(w.tb.db, weather);
    var mem := Loaded(db, kept);
    w.(up := true, tb := Tables(mem, db),
       stale := set id | id in mem && Executing(mem[id]))
  }

  function LifeStepped(w: World, s: LifeStep): World
    requires LifeEnabled(w, s)
  {
    match s
    case DoCloseIntake => w.(execs := w.execs.(closed := true))
    case DoCrash =>
      w.(up := false, epoch := w.epoch + 1, tb := w.tb.(mem := map[]), execs := Execs(false, {}, 0, 0), runs := map[],
         queuing := {}, owner := map[], stale := {}, unsaved := {}, ended := map[], torn := {})
    case DoRestart(weather, kept) => StepRestart(w, weather, kept)
  }

  // ----- runs -----

  datatype Step = HoldDo(hold: HoldStep) | RunDo(run: RunStep) | TableDo(table: TableStep) | LifeDo(life: LifeStep)

  predicate Enabled(w: World, s: Step) {
    match s
    case HoldDo(x) => HoldEnabled(w, x)
    case RunDo(x) => RunEnabled(w, x)
    case TableDo(x) => TableEnabled(w, x)
    case LifeDo(x) => LifeEnabled(w, x)
  }

  function Do(w: World, s: Step): World
    requires Enabled(w, s)
  {
    match s
    case HoldDo(x) => HoldStepped(w, x)
    case RunDo(x) => RunStepped(w, x)
    case TableDo(x) => TableStepped(w, x)
    case LifeDo(x) => LifeStepped(w, x)
  }

  ghost predicate CanStep(w: World, w': World) {
    exists s :: Enabled(w, s) && w' == Do(w, s)
  }

  ghost predicate StepAt(run: seq<World>, i: nat)
    requires 0 < i < |run|
  {
    CanStep(run[i - 1], run[i])
  }

  ghost predicate IsRun(run: seq<World>) {
    && |run| > 0
    && run[0] == Init()
    && (forall i :: 0 < i < |run| ==> StepAt(run, i))
  }
}
