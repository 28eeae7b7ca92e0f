/**
 The line gate and the request table under every interleaving of `send_line`,
 approve, reject, expire, reconcile and close (ai_session_approval.go,
 approval.go).

 Each gate method and each compare-and-swap on the request table is one atomic
 step; between two steps a thread knows only what its program counter `Pc`
 holds. A run is any sequence of enabled steps of any number of threads. The
 store may refuse any write. The runner, the risk classifier and
 `needsHumanApproval` are oracles whose answers the step carries.
 */
module LineProtocol {
  import opened LineTypes
  import opened LineGate
  import opened ApprovalRule

  datatype Pc =
    // sendSessionLine
    | SendReserved(id: RequestId, rec: LineRecord, auto: bool, limit: Risk)
    | SendQueued(id: RequestId, rec: LineRecord, auto: bool, limit: Risk)
    | SendLinked(id: RequestId, rec: LineRecord, auto: bool, limit: Risk)
    | SendRelease(id: RequestId)
    | SendMark(id: RequestId)
    | SendWithdraw(id: RequestId)
    | SendDrop(id: RequestId)
    // startLine
    | Start(id: RequestId, approved: bool, limit: Risk)
    | Refused(id: RequestId, approved: bool)
    | RefusedLook(id: RequestId, final: Status)
    | RefusedFree(id: RequestId, rec: LineRecord, final: Status)
    | Delivering(id: RequestId, approved: bool, limit: Risk, rec: LineRecord)
    | AtRunner(id: RequestId, approved: bool, rec: LineRecord)
    | Ended(id: RequestId, approved: bool, rec: LineRecord, outcome: Outcome, final: Status)
    | Freeing(id: RequestId, rec: LineRecord, outcome: Outcome, final: Status)
    // approveAISessionLine, up to its compare-and-swap
    | ApproveCas(id: RequestId)
    // reconcileAISessionLine
    | ReconLook(id: RequestId)
    | ReconExpire(id: RequestId)
    | ReconAgain(id: RequestId)
    | ReconDrop(id: RequestId, status: Status)
    // settleAISessionLines and finishAISessionClose
    | CloseWithdraw(id: RequestId)
    | CloseLook(id: RequestId)
    | CloseDrop(id: RequestId, status: Status)
    | CloseMark

  /** A line on its way out, with what the request table, the gate and the approval
      screen said at that moment. */
  datatype Delivery = Delivery(
    plan: LineRecord,
    approved: bool,
    limit: Risk,
    status: Status,
    gate: Gate,
    shown: LineRecord)

  /** A delivered line that is finished. */
  datatype Ending = Ending(rec: LineRecord, outcome: Outcome)

  /** `used`, `recorded`, `deliveries`, `calls`, `finished` and the two `lost` sets only
      observe the run: IDs ever reserved, IDs ever recorded, the lines that
      `beginDelivery` let through, the calls of the runner, the delivered lines that are
      finished, the IDs whose final state the store refused, and the pending IDs whose
      withdrawal it refused. */
  datatype World = World(
    gate: Gate,
    reqs: map<RequestId, Status>,
    links: map<RequestId, LineRecord>,
    threads: map<nat, Pc>,
    used: set<RequestId>,
    recorded: set<RequestId>,
    deliveries: seq<Delivery>,
    calls: seq<Delivery>,
    finished: seq<Ending>,
    lostFinal: set<RequestId>,
    lostWithdraw: set<RequestId>)

  /** Steps of `sendSessionLine`. */
  datatype SendStep =
    | DoReserve(t: nat, id: RequestId, line: string, cls: LineClass, queued: Queued, human: bool, setting: Risk)
    | DoQueue(t: nat, stored: bool)
    | DoSlotRefused(t: nat)
    | DoLink(t: nat)
    | DoRecord(t: nat, stored: bool)
    | DoRelease(t: nat)
    | DoMark(t: nat)

  /** Steps of `startLine`. */
  datatype LineStep =
    | DoBegin(t: nat)
    | DoRefusedFinal(t: nat, stored: bool)
    | DoRefusedLook(t: nat)
    | DoRefusedFree(t: nat)
    | DoCall(t: nat)
    | DoRun(t: nat, outcome: Outcome, interrupted: bool)
    | DoFinal(t: nat, stored: bool)
    | DoFree(t: nat)

  /** Steps of approve, reject, expire, reconcile and delete. */
  datatype DecideStep =
    | DoApprove(t: nat, id: RequestId)
    | DoApproveCas(t: nat, stored: bool)
    | DoDecide(id: RequestId, expired: bool)
    | DoReconcile(t: nat)
    | DoReconLook(t: nat, due: bool)
    | DoReconExpire(t: nat, stored: bool)
    | DoReconAgain(t: nat)
    | DoReconDrop(t: nat)
    | DoDelete(id: RequestId)

  /** Steps of a close; a sender shares its two withdrawal steps. */
  datatype CloseStep =
    | DoClose(t: nat, reason: string)
    | DoWithdraw(t: nat, stored: bool)
    | DoDrop(t: nat)
    | DoCloseLook(t: nat)
    | DoCloseMark(t: nat)

  datatype Step = SendDo(send: SendStep) | LineDo(line: LineStep) | DecideDo(decide: DecideStep) | CloseDo(close: CloseStep)

  function Init(mode: Mode, cwd: string): World {
    World(NewGate(mode, cwd), map[], map[], map[], {}, {}, [], [], [], {}, {})
  }

  predicate At(w: World, t: nat) {
    t in w.threads
  }

  predicate Fresh(w: World, t: nat) {
    t !in w.threads
  }

  predicate StatusIs(w: World, id: RequestId, s: Status) {
    id in w.reqs && w.reqs[id] == s
  }

  predicate SendEnabled(w: World, s: SendStep) {
    match s
    case DoReserve(t, id, _, _, _, _, _) => Fresh(w, t) && id !in w.used && CanReserve(w.gate)
    case DoQueue(t, _) => At(w, t) && w.threads[t].SendReserved?
    case DoSlotRefused(t) => At(w, t) && w.threads[t].SendQueued? && w.threads[t].auto
    case DoLink(t) => At(w, t) && w.threads[t].SendQueued?
    case DoRecord(t, _) => At(w, t) && w.threads[t].SendLinked?
    case DoRelease(t) => At(w, t) && w.threads[t].SendRelease?
    case DoMark(t) => At(w, t) && w.threads[t].SendMark?
  }

  predicate LineEnabled(w: World, s: LineStep) {
    match s
    case DoBegin(t) => At(w, t) && w.threads[t].Start?
    case DoRefusedFinal(t, _) => At(w, t) && w.threads[t].Refused?
    case DoRefusedLook(t) => At(w, t) && w.threads[t].RefusedLook?
    case DoRefusedFree(t) => At(w, t) && w.threads[t].RefusedFree?
    case DoCall(t) => At(w, t) && w.threads[t].Delivering?
    case DoRun(t, o, interrupted) => At(w, t) && w.threads[t].AtRunner? && (interrupted ==> !o.ok)
    case DoFinal(t, _) => At(w, t) && w.threads[t].Ended?
    case DoFree(t) => At(w, t) && w.threads[t].Freeing?
  }

  predicate DecideEnabled(w: World, s: DecideStep) {
    match s
    case DoApprove(t, id) => Fresh(w, t) && id in w.links
    case DoApproveCas(t, _) => At(w, t) && w.threads[t].ApproveCas?
    case DoDecide(id, _) => StatusIs(w, id, ReqPending)
    case DoReconcile(t) => Fresh(w, t) && w.gate.inflight.Some? && w.gate.inflight.value.phase == Pending
    case DoReconLook(t, _) => At(w, t) && w.threads[t].ReconLook?
    case DoReconExpire(t, _) => At(w, t) && w.threads[t].ReconExpire?
    case DoReconAgain(t) => At(w, t) && w.threads[t].ReconAgain?
    case DoReconDrop(t) => At(w, t) && w.threads[t].ReconDrop?
    case DoDelete(id) => w.gate.state == Closed && id in w.reqs && !Executing(w.reqs[id])
  }

  predicate CloseEnabled(w: World, s: CloseStep) {
    match s
    case DoClose(t, _) => Fresh(w, t)
    case DoWithdraw(t, _) => At(w, t) && (w.threads[t].SendWithdraw? || w.threads[t].CloseWithdraw?)
    case DoDrop(t) => At(w, t) && (w.threads[t].SendDrop? || w.threads[t].CloseDrop?)
    case DoCloseLook(t) => At(w, t) && w.threads[t].CloseLook?
    case DoCloseMark(t) => At(w, t) && w.threads[t].CloseMark?
  }

  predicate Enabled(w: World, s: Step) {
    match s
    case SendDo(x) => SendEnabled(w, x)
    case LineDo(x) => LineEnabled(w, x)
    case DecideDo(x) => DecideEnabled(w, x)
    case CloseDo(x) => CloseEnabled(w, x)
  }

  // ----- helpers shared by the steps -----

  function Goto(w: World, t: nat, pc: Pc): World {
    w.(threads := w.threads[t := pc])
  }

  function Exit(w: World, t: nat): World {
    w.(threads := w.threads - {t})
  }

  function SetStatus(w: World, id: RequestId, s: Status): World {
    w.(reqs := w.reqs[id := s],
       lostWithdraw := if s == ReqPending then w.lostWithdraw else w.lostWithdraw - {id})
  }

  function SucceededState(approved: bool): Status {
    if approved then ReqSucceeded else ReqAutoSucceeded
  }

  function FailedState(approved: bool): Status {
    if approved then ReqFailed else ReqAutoFailed
  }

  function LaunchState(approved: bool): Status {
    if approved then ReqRunning else ReqAutoRunning
  }

  // ----- send_line -----

  function StepReserve(w: World, t: nat, id: RequestId, line: string, cls: LineClass, queued: Queued, human: bool,
                       setting: Risk): World
  {
    var rec := NewRecord(w.gate, id, line, cls, queued);
    var needs := human || SessionNeedsApproval(rec.tainted, cls, setting);
    Goto(w.(gate := Reserve(w.gate, id, line, cls, queued), used := w.used + {id}), t,
         SendReserved(id, rec, !needs, setting))
  }

  function StepQueue(w: World, t: nat, stored: bool): World
    requires At(w, t) && w.threads[t].SendReserved?
  {
    var pc := w.threads[t];
    Goto(w, t, if stored then SendQueued(pc.id, pc.rec, pc.auto, pc.limit) else SendRelease(pc.id))
  }

  function StepLink(w: World, t: nat): World
    requires At(w, t) && w.threads[t].SendQueued?
  {
    var pc := w.threads[t];
    Goto(w.(links := w.links[pc.id := pc.rec]), t, SendLinked(pc.id, pc.rec, pc.auto, pc.limit))
  }

  function StepRecord(w: World, t: nat, stored: bool): World
    requires At(w, t) && w.threads[t].SendLinked?
  {
    var pc := w.threads[t];
    if stored then
      var w1 := SetStatus(w.(recorded := w.recorded + {pc.id}), pc.id,
                          if pc.auto then ReqAutoRunning else ReqPending);
      Goto(w1, t, if pc.auto then Start(pc.id, false, pc.limit) else SendMark(pc.id))
    else Goto(w, t, SendRelease(pc.id))
  }

  function StepRelease(w: World, t: nat): World
    requires At(w, t) && w.threads[t].SendRelease?
  {
    Exit(w.(gate := Release(w.gate, w.threads[t].id)), t)
  }

  function StepMark(w: World, t: nat): World
    requires At(w, t) && w.threads[t].SendMark?
  {
    var id := w.threads[t].id;
    var w1 := w.(gate := MarkPending(w.gate, id));
    if CanMarkPending(w.gate, id) then Exit(w1, t) else Goto(w1, t, SendWithdraw(id))
  }

  /** `withdrawAISessionRequest`: the compare-and-swap pending -> withdrawn. */
  function StepWithdraw(w: World, t: nat, stored: bool): World
    requires At(w, t) && (w.threads[t].SendWithdraw? || w.threads[t].CloseWithdraw?)
  {
    var pc := w.threads[t];
    var w1 :=
      if !StatusIs(w, pc.id, ReqPending) then w
      else if stored then SetStatus(w, pc.id, ReqWithdrawn)
      else w.(lostWithdraw := w.lostWithdraw + {pc.id});
    Goto(w1, t, if pc.SendWithdraw? then SendDrop(pc.id) else CloseLook(pc.id))
  }

  function StepDrop(w: World, t: nat): World
    requires At(w, t) && (w.threads[t].SendDrop? || w.threads[t].CloseDrop?)
  {
    var pc := w.threads[t];
    if pc.SendDrop? then Exit(w.(gate := DropOnClose(w.gate, pc.id, ReqWithdrawn)), t)
    else Goto(w.(gate := DropOnClose(w.gate, pc.id, pc.status)), t, CloseMark)
  }

  // ----- startLine -----

  function Outgoing(w: World, rec: LineRecord, approved: bool, limit: Risk): Delivery {
    Delivery(rec, approved, limit,
             if rec.id in w.reqs then w.reqs[rec.id] else ReqWithdrawn,
             w.gate,
             if rec.id in w.links then w.links[rec.id] else rec)
  }

  /** `beginDelivery`. The gate's lock is free again before the runner is called. */
  function StepBegin(w: World, t: nat): World
    requires At(w, t) && w.threads[t].Start?
  {
    var pc := w.threads[t];
    if CanDeliver(w.gate, pc.id) then
      var g := BeginDelivery(w.gate, pc.id);
      var rec := g.inflight.value;
      Goto(w.(gate := g, deliveries := w.deliveries + [Outgoing(w, rec, pc.approved, pc.limit)]), t,
           Delivering(pc.id, pc.approved, pc.limit, rec))
    else Goto(w, t, Refused(pc.id, pc.approved))
  }

  /** The gateway keeps the overlay: an environment line never goes to an exec runner. */
  predicate KeptByGateway(rec: LineRecord) {
    rec.cls.effect == Env && rec.mode == Exec
  }

  /** The call of `RunLine`, which no lock protects. */
  function StepCall(w: World, t: nat): World
    requires At(w, t) && w.threads[t].Delivering?
  {
    var pc := w.threads[t];
    if KeptByGateway(pc.rec) then
      Goto(w, t, Ended(pc.id, pc.approved, pc.rec, Outcome("", true, 0, Some(0)), SucceededState(pc.approved)))
    else
      Goto(w.(calls := w.calls + [Outgoing(w, pc.rec, pc.approved, pc.limit)]), t,
           AtRunner(pc.id, pc.approved, pc.rec))
  }

  /** `finishAISessionRequest`: the compare-and-swap from the launch state; the
      result is the new state, or the current one when it is refused. */
  function FinalCas(w: World, id: RequestId, from: Status, to: Status, stored: bool): (World, Status) {
    if !StatusIs(w, id, from) then (w, if id in w.reqs then w.reqs[id] else to)
    else if stored then (SetStatus(w, id, to), to)
    else (w.(lostFinal := w.lostFinal + {id}), from)
  }

  function StepRefusedFinal(w: World, t: nat, stored: bool): World
    requires At(w, t) && w.threads[t].Refused?
  {
    var pc := w.threads[t];
    var (w1, final) := FinalCas(w, pc.id, LaunchState(pc.approved), FailedState(pc.approved), stored);
    Goto(w1, t, RefusedLook(pc.id, final))
  }

  function StepRefusedLook(w: World, t: nat): World
    requires At(w, t) && w.threads[t].RefusedLook?
  {
    var pc := w.threads[t];
    if HoldsLine(w.gate, pc.id) then Goto(w, t, RefusedFree(pc.id, w.gate.inflight.value, pc.final))
    else Exit(w, t)
  }

  function StepRefusedFree(w: World, t: nat): World
    requires At(w, t) && w.threads[t].RefusedFree?
  {
    var pc := w.threads[t];
    Exit(w.(gate := FinishLine(w.gate, pc.rec, false, Outcome("", false, 0, None), pc.final)), t)
  }

  function StepRun(w: World, t: nat, outcome: Outcome, interrupted: bool): World
    requires At(w, t) && w.threads[t].AtRunner?
  {
    var pc := w.threads[t];
    var final :=
      if interrupted then ReqInterrupted
      else if outcome.ok then SucceededState(pc.approved)
      else FailedState(pc.approved);
    Goto(w, t, Ended(pc.id, pc.approved, pc.rec, outcome, final))
  }

  function StepFinal(w: World, t: nat, stored: bool): World
    requires At(w, t) && w.threads[t].Ended?
  {
    var pc := w.threads[t];
    var (w1, final) := FinalCas(w, pc.id, LaunchState(pc.approved), pc.final, stored);
    Goto(w1, t, Freeing(pc.id, pc.rec, pc.outcome, final))
  }

  function StepFree(w: World, t: nat): World
    requires At(w, t) && w.threads[t].Freeing?
  {
    var pc := w.threads[t];
    Exit(w.(gate := FinishLine(w.gate, pc.rec, true, pc.outcome, pc.final),
            finished := w.finished + [Ending(pc.rec, pc.outcome)]), t)
  }

  // ----- approve, reject, expire, reconcile -----

  function StepApproveCas(w: World, t: nat, stored: bool): World
    requires At(w, t) && w.threads[t].ApproveCas?
  {
    var id := w.threads[t].id;
    if StatusIs(w, id, ReqPending) && stored then
      Goto(SetStatus(w, id, ReqRunning), t, Start(id, true, High))
    else Exit(w, t)
  }

  function StepReconLook(w: World, t: nat, due: bool): World
    requires At(w, t) && w.threads[t].ReconLook?
  {
    var id := w.threads[t].id;
    if id !in w.reqs then Goto(w, t, ReconDrop(id, ReqWithdrawn))
    else if w.reqs[id] == ReqPending then (if due then Goto(w, t, ReconExpire(id)) else Exit(w, t))
    else if w.reqs[id] == ReqRunning then Exit(w, t)
    else Goto(w, t, ReconDrop(id, w.reqs[id]))
  }

  function StepReconExpire(w: World, t: nat, stored: bool): World
    requires At(w, t) && w.threads[t].ReconExpire?
  {
    var id := w.threads[t].id;
    var w1 := if StatusIs(w, id, ReqPending) && stored then SetStatus(w, id, ReqExpired) else w;
    Goto(w1, t, ReconAgain(id))
  }

  function StepReconAgain(w: World, t: nat): World
    requires At(w, t) && w.threads[t].ReconAgain?
  {
    var id := w.threads[t].id;
    if id in w.reqs && w.reqs[id] != ReqPending then Goto(w, t, ReconDrop(id, w.reqs[id])) else Exit(w, t)
  }

  function StepReconDrop(w: World, t: nat): World
    requires At(w, t) && w.threads[t].ReconDrop?
  {
    var pc := w.threads[t];
    Exit(w.(gate := DropPending(w.gate, pc.id, pc.status)), t)
  }

  // ----- close -----

  function StepClose(w: World, t: nat, reason: string): World {
    var w1 := w.(gate := BeginClose(w.gate, reason));
    if !IsClosing(w.gate) && w.gate.inflight.Some? && w.gate.inflight.value.phase != Running then
      Goto(w1, t, CloseWithdraw(w.gate.inflight.value.id))
    else Goto(w1, t, CloseMark)
  }

  function StepCloseLook(w: World, t: nat): World
    requires At(w, t) && w.threads[t].CloseLook?
  {
    var id := w.threads[t].id;
    var status := if id in w.reqs then w.reqs[id] else ReqWithdrawn;
    Goto(w, t, if Executing(status) then CloseMark else CloseDrop(id, status))
  }

  function SendStepped(w: World, s: SendStep): World
    requires SendEnabled(w, s)
  {
    match s
    case DoReserve(t, id, line, cls, queued, human, setting) => StepReserve(w, t, id, line, cls, queued, human, setting)
    case DoQueue(t, stored) => StepQueue(w, t, stored)
    case DoSlotRefused(t) => Goto(w, t, SendRelease(w.threads[t].id))
    case DoLink(t) => StepLink(w, t)
    case DoRecord(t, stored) => StepRecord(w, t, stored)
    case DoRelease(t) => StepRelease(w, t)
    case DoMark(t) => StepMark(w, t)
  }

  function LineStepped(w: World, s: LineStep): World
    requires LineEnabled(w, s)
  {
    match s
    case DoBegin(t) => StepBegin(w, t)
    case DoRefusedFinal(t, stored) => StepRefusedFinal(w, t, stored)
    case DoRefusedLook(t) => StepRefusedLook(w, t)
    case DoRefusedFree(t) => StepRefusedFree(w, t)
    case DoCall(t) => StepCall(w, t)
    case DoRun(t, outcome, interrupted) => StepRun(w, t, outcome, interrupted)
    case DoFinal(t, stored) => StepFinal(w, t, stored)
    case DoFree(t) => StepFree(w, t)
  }

  function DecideStepped(w: World, s: DecideStep): World
    requires DecideEnabled(w, s)
  {
    match s
    case DoApprove(t, id) => Goto(w, t, ApproveCas(id))
    case DoApproveCas(t, stored) => StepApproveCas(w, t, stored)
    case DoDecide(id, expired) => SetStatus(w, id, if expired then ReqExpired else ReqRejected)
    case DoReconcile(t) => Goto(w, t, ReconLook(w.gate.inflight.value.id))
    case DoReconLook(t, due) => StepReconLook(w, t, due)
    case DoReconExpire(t, stored) => StepReconExpire(w, t, stored)
    case DoReconAgain(t) => StepReconAgain(w, t)
    case DoReconDrop(t) => StepReconDrop(w, t)
    case DoDelete(id) => w.(reqs := w.reqs - {id}, lostWithdraw := w.lostWithdraw - {id})
  }

  function CloseStepped(w: World, s: CloseStep): World
    requires CloseEnabled(w, s)
  {
    match s
    case DoClose(t, reason) => StepClose(w, t, reason)
    case DoWithdraw(t, stored) => StepWithdraw(w, t, stored)
    case DoDrop(t) => StepDrop(w, t)
    case DoCloseLook(t) => StepCloseLook(w, t)
    case DoCloseMark(t) => Exit(w.(gate := MarkClosed(w.gate)), t)
  }

  function Do(w: World, s: Step): World
    requires Enabled(w, s)
  {
    match s
    case SendDo(x) => SendStepped(w, x)
    case LineDo(x) => LineStepped(w, x)
    case DecideDo(x) => DecideStepped(w, x)
    case CloseDo(x) => CloseStepped(w, x)
  }

  /** `run` lists the worlds of a run, from a new session on. */
  ghost predicate IsRun(run: seq<World>) {
    && |run| > 0
    && (exists mode, cwd :: run[0] == Init(mode, cwd))
    && (forall i :: 0 < i < |run| ==> StepAt(run, i))
  }

  ghost predicate StepAt(run: seq<World>, i: nat)
    requires 0 < i < |run|
  {
    CanStep(run[i - 1], run[i])
  }

  ghost predicate CanStep(w: World, w': World) {
    exists s :: Enabled(w, s) && w' == Do(w, s)
  }
}
