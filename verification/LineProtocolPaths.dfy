/**
 What becomes of a line when nobody interferes, from any world with an open, idle gate:
 sent and approved it runs once, as it was shown; a harmless one runs by itself; a
 rejected one is logged and frees the slot.
 */
module LineProtocolPaths {
  import opened Chains
  import opened LineTypes
  import opened LineGate
  import opened ApprovalMeaning
  import opened LineProtocol

  /** Some steps lead from `w` to `w'`. */
  ghost predicate Reaches(w: World, w': World) {
    Joined(CanStep, w, w')
  }

  lemma ReachesOn(w: World, m: World, w': World)
    requires Reaches(w, m) && Reaches(m, w')
    ensures Reaches(w, w')
  {
    JoinedOn(CanStep, w, m, w');
  }

  lemma StepReaches(w: World, s: Step)
    requires Enabled(w, s)
    ensures Reaches(w, Do(w, s))
  {
    NextIsJoined(CanStep, w, Do(w, s));
  }

  // ----- sending -----

  predicate IsNew(w: World, rec: LineRecord) {
    rec == NewRecord(w.gate, rec.id, rec.line, rec.cls, rec.queued) && rec.id !in w.used && CanReserve(w.gate)
  }

  function Reserving(w: World, t: nat, rec: LineRecord, auto: bool, setting: Risk): World {
    Goto(w.(gate := w.gate.(number := rec.number, inflight := Some(rec)), used := w.used + {rec.id}), t,
         SendReserved(rec.id, rec, auto, setting))
  }

  lemma ReserveReaches(w: World, t: nat, rec: LineRecord, human: bool, setting: Risk)
    requires Fresh(w, t) && IsNew(w, rec)
    ensures Reaches(w, Reserving(w, t, rec, !human && MayRunUnseen(rec.tainted, rec.cls, setting), setting))
  {
    AskedExactlyWhen(rec.tainted, rec.cls, setting);
    StepReaches(w, SendDo(DoReserve(t, rec.id, rec.line, rec.cls, rec.queued, human, setting)));
  }

  lemma GotoTwice(w: World, t: nat, a: Pc, b: Pc)
    ensures Goto(Goto(w, t, a), t, b) == Goto(w, t, b)
  {
    Twice(w.threads, t, a, b);
  }

  lemma QueueReaches(w: World, t: nat, rec: LineRecord, auto: bool, setting: Risk)
    ensures Reaches(Goto(w, t, SendReserved(rec.id, rec, auto, setting)), Goto(w, t, SendQueued(rec.id, rec, auto, setting)))
  {
    var a, b := SendReserved(rec.id, rec, auto, setting), SendQueued(rec.id, rec, auto, setting);
    GotoTwice(w, t, a, b);
    StepReaches(Goto(w, t, a), SendDo(DoQueue(t, true)));
  }

  lemma LinkReaches(w: World, t: nat, rec: LineRecord, auto: bool, setting: Risk)
    ensures Reaches(Goto(w, t, SendQueued(rec.id, rec, auto, setting)),
                    Goto(w.(links := w.links[rec.id := rec]), t, SendLinked(rec.id, rec, auto, setting)))
  {
    var a, b := SendQueued(rec.id, rec, auto, setting), SendLinked(rec.id, rec, auto, setting);
    GotoTwice(w.(links := w.links[rec.id := rec]), t, a, b);
    StepReaches(Goto(w, t, a), SendDo(DoLink(t)));
  }

  function Noted(w: World, id: RequestId, status: Status): World {
    SetStatus(w.(recorded := w.recorded + {id}), id, status)
  }

  lemma RecordReaches(w: World, t: nat, rec: LineRecord, auto: bool, setting: Risk)
    ensures Reaches(Goto(w, t, SendLinked(rec.id, rec, auto, setting)),
                    if auto then Goto(Noted(w, rec.id, ReqAutoRunning), t, Start(rec.id, false, setting))
                    else Goto(Noted(w, rec.id, ReqPending), t, SendMark(rec.id)))
  {
    var a, b := SendLinked(rec.id, rec, auto, setting), if auto then Start(rec.id, false, setting) else SendMark(rec.id);
    GotoTwice(Noted(w, rec.id, if auto then ReqAutoRunning else ReqPending), t, a, b);
    StepReaches(Goto(w, t, a), SendDo(DoRecord(t, true)));
  }

  lemma GotoExit(w: World, t: nat, a: Pc)
    requires Fresh(w, t)
    ensures Exit(Goto(w, t, a), t) == w
  {
    assert w.threads[t := a] - {t} == w.threads;
  }

  lemma MarkReaches(w: World, t: nat, id: RequestId)
    requires Fresh(w, t) && CanMarkPending(w.gate, id)
    ensures Reaches(Goto(w, t, SendMark(id)), w.(gate := MarkPending(w.gate, id)))
  {
    GotoExit(w.(gate := MarkPending(w.gate, id)), t, SendMark(id));
    StepReaches(Goto(w, t, SendMark(id)), SendDo(DoMark(t)));
  }

  // ----- deciding -----

  lemma ApproveReaches(w: World, t: nat, id: RequestId)
    requires Fresh(w, t) && id in w.links && StatusIs(w, id, ReqPending)
    ensures Reaches(w, Goto(SetStatus(w, id, ReqRunning), t, Start(id, true, High)))
  {
    StepReaches(w, DecideDo(DoApprove(t, id)));
    GotoTwice(SetStatus(w, id, ReqRunning), t, ApproveCas(id), Start(id, true, High));
    StepReaches(Goto(w, t, ApproveCas(id)), DecideDo(DoApproveCas(t, true)));
    ReachesOn(w, Goto(w, t, ApproveCas(id)), Goto(SetStatus(w, id, ReqRunning), t, Start(id, true, High)));
  }

  lemma DecideReaches(w: World, id: RequestId, expired: bool)
    requires StatusIs(w, id, ReqPending)
    ensures Reaches(w, SetStatus(w, id, if expired then ReqExpired else ReqRejected))
  {
    StepReaches(w, DecideDo(DoDecide(id, expired)));
  }

  // ----- reconciling -----

  predicate WaitsFor(w: World, id: RequestId) {
    HoldsIn(w.gate, id, Pending)
  }

  lemma LookReaches(w: World, t: nat, id: RequestId, due: bool)
    requires Fresh(w, t) && WaitsFor(w, id) && (id in w.reqs ==> w.reqs[id] != ReqRunning)
    requires StatusIs(w, id, ReqPending) ==> due
    ensures Reaches(w, Goto(w, t, if id !in w.reqs then ReconDrop(id, ReqWithdrawn)
                                  else if w.reqs[id] == ReqPending then ReconExpire(id)
                                  else ReconDrop(id, w.reqs[id])))
  {
    var pc := if id !in w.reqs then ReconDrop(id, ReqWithdrawn)
              else if w.reqs[id] == ReqPending then ReconExpire(id)
              else ReconDrop(id, w.reqs[id]);
    StepReaches(w, DecideDo(DoReconcile(t)));
    GotoTwice(w, t, ReconLook(id), pc);
    StepReaches(Goto(w, t, ReconLook(id)), DecideDo(DoReconLook(t, due)));
    ReachesOn(w, Goto(w, t, ReconLook(id)), Goto(w, t, pc));
  }

  lemma DropReaches(w: World, t: nat, id: RequestId, status: Status)
    requires Fresh(w, t)
    ensures Reaches(Goto(w, t, ReconDrop(id, status)), w.(gate := DropPending(w.gate, id, status)))
  {
    GotoExit(w.(gate := DropPending(w.gate, id, status)), t, ReconDrop(id, status));
    StepReaches(Goto(w, t, ReconDrop(id, status)), DecideDo(DoReconDrop(t)));
  }

  lemma ExpireReaches(w: World, t: nat, id: RequestId)
    requires StatusIs(w, id, ReqPending)
    ensures Reaches(Goto(w, t, ReconExpire(id)), Goto(SetStatus(w, id, ReqExpired), t, ReconDrop(id, ReqExpired)))
  {
    var w1 := SetStatus(w, id, ReqExpired);
    GotoTwice(w1, t, ReconExpire(id), ReconAgain(id));
    StepReaches(Goto(w, t, ReconExpire(id)), DecideDo(DoReconExpire(t, true)));
    GotoTwice(w1, t, ReconAgain(id), ReconDrop(id, ReqExpired));
    StepReaches(Goto(w1, t, ReconAgain(id)), DecideDo(DoReconAgain(t)));
    ReachesOn(Goto(w, t, ReconExpire(id)), Goto(w1, t, ReconAgain(id)), Goto(w1, t, ReconDrop(id, ReqExpired)));
  }

  /** One pass of reconcile frees the slot of a waiting line whose request was decided or
      deleted, and of one that is due. */
  lemma ReconcileReaches(w: World, t: nat, id: RequestId, due: bool)
    requires Fresh(w, t) && WaitsFor(w, id) && (id in w.reqs ==> w.reqs[id] != ReqRunning)
    requires StatusIs(w, id, ReqPending) ==> due
    ensures StatusIs(w, id, ReqPending) ==>
              Reaches(w, SetStatus(w, id, ReqExpired).(gate := DropPending(w.gate, id, ReqExpired)))
    ensures !StatusIs(w, id, ReqPending) ==>
              Reaches(w, w.(gate := DropPending(w.gate, id, if id in w.reqs then w.reqs[id] else ReqWithdrawn)))
  {
    LookReaches(w, t, id, due);
    if StatusIs(w, id, ReqPending) {
      var w1 := SetStatus(w, id, ReqExpired);
      ExpireReaches(w, t, id);
      ReachesOn(w, Goto(w, t, ReconExpire(id)), Goto(w1, t, ReconDrop(id, ReqExpired)));
      DropReaches(w1, t, id, ReqExpired);
      ReachesOn(w, Goto(w1, t, ReconDrop(id, ReqExpired)), w1.(gate := DropPending(w.gate, id, ReqExpired)));
    } else {
      var status := if id in w.reqs then w.reqs[id] else ReqWithdrawn;
      DropReaches(w, t, id, status);
      ReachesOn(w, Goto(w, t, ReconDrop(id, status)), w.(gate := DropPending(w.gate, id, status)));
    }
  }

  // ----- running -----

  function Granted(w: World, rec: LineRecord, approved: bool, limit: Risk): World {
    w.(gate := BeginDelivery(w.gate, rec.id), deliveries := w.deliveries + [Outgoing(w, rec, approved, limit)])
  }

  lemma BeginReaches(w: World, t: nat, rec: LineRecord, approved: bool, limit: Risk)
    requires CanDeliver(w.gate, rec.id) && rec == w.gate.inflight.value.(phase := Running)
    ensures Reaches(Goto(w, t, Start(rec.id, approved, limit)),
                    Goto(Granted(w, rec, approved, limit), t, Delivering(rec.id, approved, limit, rec)))
  {
    var a, b := Start(rec.id, approved, limit), Delivering(rec.id, approved, limit, rec);
    GotoTwice(Granted(w, rec, approved, limit), t, a, b);
    StepReaches(Goto(w, t, a), LineDo(DoBegin(t)));
  }

  function Called(w: World, rec: LineRecord, approved: bool, limit: Risk): World {
    w.(calls := w.calls + [Outgoing(w, rec, approved, limit)])
  }

  lemma CallReaches(w: World, t: nat, rec: LineRecord, approved: bool, limit: Risk)
    requires !(rec.cls.effect == Env && rec.mode == Exec)
    ensures Reaches(Goto(w, t, Delivering(rec.id, approved, limit, rec)),
                    Goto(Called(w, rec, approved, limit), t, AtRunner(rec.id, approved, rec)))
  {
    var a, b := Delivering(rec.id, approved, limit, rec), AtRunner(rec.id, approved, rec);
    GotoTwice(Called(w, rec, approved, limit), t, a, b);
    StepReaches(Goto(w, t, a), LineDo(DoCall(t)));
  }

  /** How a line ends. */
  function EndStatus(approved: bool, ok: bool, interrupted: bool): Status {
    if interrupted then ReqInterrupted
    else if approved then (if ok then ReqSucceeded else ReqFailed)
    else (if ok then ReqAutoSucceeded else ReqAutoFailed)
  }

  const KEPT := Outcome("", true, 0, Some(0))

  lemma KeptReaches(w: World, t: nat, rec: LineRecord, approved: bool, limit: Risk)
    requires rec.cls.effect == Env && rec.mode == Exec
    ensures Reaches(Goto(w, t, Delivering(rec.id, approved, limit, rec)),
                    Goto(w, t, Ended(rec.id, approved, rec, KEPT, EndStatus(approved, true, false))))
  {
    var a := Delivering(rec.id, approved, limit, rec);
    GotoTwice(w, t, a, Ended(rec.id, approved, rec, KEPT, EndStatus(approved, true, false)));
    StepReaches(Goto(w, t, a), LineDo(DoCall(t)));
  }

  lemma RunReaches(w: World, t: nat, rec: LineRecord, approved: bool, o: Outcome, interrupted: bool)
    requires interrupted ==> !o.ok
    ensures Reaches(Goto(w, t, AtRunner(rec.id, approved, rec)),
                    Goto(w, t, Ended(rec.id, approved, rec, o, EndStatus(approved, o.ok, interrupted))))
  {
    var a := AtRunner(rec.id, approved, rec);
    GotoTwice(w, t, a, Ended(rec.id, approved, rec, o, EndStatus(approved, o.ok, interrupted)));
    StepReaches(Goto(w, t, a), LineDo(DoRun(t, o, interrupted)));
  }

  lemma FinalReaches(w: World, t: nat, rec: LineRecord, approved: bool, o: Outcome, final: Status)
    requires StatusIs(w, rec.id, if approved then ReqRunning else ReqAutoRunning)
    ensures Reaches(Goto(w, t, Ended(rec.id, approved, rec, o, final)),
                    Goto(SetStatus(w, rec.id, final), t, Freeing(rec.id, rec, o, final)))
  {
    var a := Ended(rec.id, approved, rec, o, final);
    GotoTwice(SetStatus(w, rec.id, final), t, a, Freeing(rec.id, rec, o, final));
    StepReaches(Goto(w, t, a), LineDo(DoFinal(t, true)));
  }

  function Freed(w: World, rec: LineRecord, o: Outcome, final: Status): World {
    w.(gate := FinishLine(w.gate, rec, true, o, final), finished := w.finished + [Ending(rec, o)])
  }

  lemma FreeReaches(w: World, t: nat, rec: LineRecord, o: Outcome, final: Status)
    requires Fresh(w, t)
    ensures Reaches(Goto(w, t, Freeing(rec.id, rec, o, final)), Freed(w, rec, o, final))
  {
    var a := Freeing(rec.id, rec, o, final);
    GotoExit(Freed(w, rec, o, final), t, a);
    StepReaches(Goto(w, t, a), LineDo(DoFree(t)));
  }

  // ----- whole ways -----

  /** From the grant to the free slot. */
  function RunFrom(w: World, rec: LineRecord, approved: bool, limit: Risk, o: Outcome, final: Status): World {
    var w1 := Granted(w, rec, approved, limit);
    var w2 := if rec.cls.effect == Env && rec.mode == Exec then w1 else Called(w1, rec, approved, limit);
    Freed(SetStatus(w2, rec.id, final), rec, o, final)
  }

  lemma AnswerReaches(w: World, t: nat, rec: LineRecord, approved: bool, o: Outcome, final: Status)
    requires Fresh(w, t) && StatusIs(w, rec.id, if approved then ReqRunning else ReqAutoRunning)
    ensures Reaches(Goto(w, t, Ended(rec.id, approved, rec, o, final)), Freed(SetStatus(w, rec.id, final), rec, o, final))
  {
    FinalReaches(w, t, rec, approved, o, final);
    FreeReaches(SetStatus(w, rec.id, final), t, rec, o, final);
    ReachesOn(Goto(w, t, Ended(rec.id, approved, rec, o, final)),
              Goto(SetStatus(w, rec.id, final), t, Freeing(rec.id, rec, o, final)),
              Freed(SetStatus(w, rec.id, final), rec, o, final));
  }

  lemma CalledReaches(w: World, t: nat, rec: LineRecord, approved: bool, limit: Risk, o: Outcome, interrupted: bool)
    requires !(rec.cls.effect == Env && rec.mode == Exec) && (interrupted ==> !o.ok)
    requires Fresh(w, t) && StatusIs(w, rec.id, if approved then ReqRunning else ReqAutoRunning)
    ensures var final := EndStatus(approved, o.ok, interrupted);
            Reaches(Goto(w, t, Delivering(rec.id, approved, limit, rec)),
                    Freed(SetStatus(Called(w, rec, approved, limit), rec.id, final), rec, o, final))
  {
    var final := EndStatus(approved, o.ok, interrupted);
    var w1 := Called(w, rec, approved, limit);
    CallReaches(w, t, rec, approved, limit);
    RunReaches(w1, t, rec, approved, o, interrupted);
    ReachesOn(Goto(w, t, Delivering(rec.id, approved, limit, rec)), Goto(w1, t, AtRunner(rec.id, approved, rec)),
              Goto(w1, t, Ended(rec.id, approved, rec, o, final)));
    AnswerReaches(w1, t, rec, approved, o, final);
    ReachesOn(Goto(w, t, Delivering(rec.id, approved, limit, rec)), Goto(w1, t, Ended(rec.id, approved, rec, o, final)),
              Freed(SetStatus(w1, rec.id, final), rec, o, final));
  }

  lemma KeptFreed(w: World, t: nat, rec: LineRecord, approved: bool, limit: Risk)
    requires rec.cls.effect == Env && rec.mode == Exec
    requires Fresh(w, t) && StatusIs(w, rec.id, if approved then ReqRunning else ReqAutoRunning)
    ensures var final := EndStatus(approved, true, false);
            Reaches(Goto(w, t, Delivering(rec.id, approved, limit, rec)),
                    Freed(SetStatus(w, rec.id, final), rec, KEPT, final))
  {
    var final := EndStatus(approved, true, false);
    KeptReaches(w, t, rec, approved, limit);
    AnswerReaches(w, t, rec, approved, KEPT, final);
    ReachesOn(Goto(w, t, Delivering(rec.id, approved, limit, rec)), Goto(w, t, Ended(rec.id, approved, rec, KEPT, final)),
              Freed(SetStatus(w, rec.id, final), rec, KEPT, final));
  }

  /** The report of the line: an exec-mode environment line always succeeds. */
  predicate MayReport(rec: LineRecord, o: Outcome, interrupted: bool) {
    if rec.cls.effect == Env && rec.mode == Exec then o == KEPT && !interrupted else interrupted ==> !o.ok
  }

  lemma StartReaches(w: World, t: nat, rec: LineRecord, approved: bool, limit: Risk, o: Outcome, interrupted: bool)
    requires CanDeliver(w.gate, rec.id) && rec == w.gate.inflight.value.(phase := Running)
    requires Fresh(w, t) && StatusIs(w, rec.id, if approved then ReqRunning else ReqAutoRunning)
    requires MayReport(rec, o, interrupted)
    ensures Reaches(Goto(w, t, Start(rec.id, approved, limit)),
                    RunFrom(w, rec, approved, limit, o, EndStatus(approved, o.ok, interrupted)))
  {
    var w1 := Granted(w, rec, approved, limit);
    BeginReaches(w, t, rec, approved, limit);
    if rec.cls.effect == Env && rec.mode == Exec {
      KeptFreed(w1, t, rec, approved, limit);
    } else {
      CalledReaches(w1, t, rec, approved, limit, o, interrupted);
    }
    ReachesOn(Goto(w, t, Start(rec.id, approved, limit)), Goto(w1, t, Delivering(rec.id, approved, limit, rec)),
              RunFrom(w, rec, approved, limit, o, EndStatus(approved, o.ok, interrupted)));
  }

  // ----- a line is sent -----

  function Taken(w: World, rec: LineRecord): World {
    w.(gate := w.gate.(number := rec.number, inflight := Some(rec)), used := w.used + {rec.id})
  }

  /** The line has its slot, its approval screen and its request. */
  function Sent(w: World, rec: LineRecord, status: Status): World {
    Noted(Taken(w, rec).(links := w.links[rec.id := rec]), rec.id, status)
  }

  lemma LinkedReaches(w: World, t: nat, rec: LineRecord, human: bool, setting: Risk)
    requires Fresh(w, t) && IsNew(w, rec)
    ensures var auto := !human && MayRunUnseen(rec.tainted, rec.cls, setting);
            Reaches(w, Goto(Taken(w, rec).(links := w.links[rec.id := rec]), t, SendLinked(rec.id, rec, auto, setting)))
  {
    var auto := !human && MayRunUnseen(rec.tainted, rec.cls, setting);
    var w1 := Taken(w, rec);
    var w2 := w1.(links := w.links[rec.id := rec]);
    ReserveReaches(w, t, rec, human, setting);
    QueueReaches(w1, t, rec, auto, setting);
    ReachesOn(w, Goto(w1, t, SendReserved(rec.id, rec, auto, setting)), Goto(w1, t, SendQueued(rec.id, rec, auto, setting)));
    LinkReaches(w1, t, rec, auto, setting);
    ReachesOn(w, Goto(w1, t, SendQueued(rec.id, rec, auto, setting)), Goto(w2, t, SendLinked(rec.id, rec, auto, setting)));
  }

  lemma SentUnseen(w: World, t: nat, rec: LineRecord, setting: Risk)
    requires Fresh(w, t) && IsNew(w, rec) && MayRunUnseen(rec.tainted, rec.cls, setting)
    ensures Reaches(w, Goto(Sent(w, rec, ReqAutoRunning), t, Start(rec.id, false, setting)))
  {
    var w2 := Taken(w, rec).(links := w.links[rec.id := rec]);
    LinkedReaches(w, t, rec, false, setting);
    RecordReaches(w2, t, rec, true, setting);
    ReachesOn(w, Goto(w2, t, SendLinked(rec.id, rec, true, setting)),
              Goto(Sent(w, rec, ReqAutoRunning), t, Start(rec.id, false, setting)));
  }

  /** The line waits for a human. */
  function Waiting(w: World, rec: LineRecord): World {
    var w1 := Sent(w, rec, ReqPending);
    w1.(gate := MarkPending(w1.gate, rec.id))
  }

  lemma SentForApproval(w: World, t: nat, rec: LineRecord, human: bool, setting: Risk)
    requires Fresh(w, t) && IsNew(w, rec) && (human || !MayRunUnseen(rec.tainted, rec.cls, setting))
    ensures Reaches(w, Waiting(w, rec))
  {
    var w2 := Taken(w, rec).(links := w.links[rec.id := rec]);
    LinkedReaches(w, t, rec, human, setting);
    RecordReaches(w2, t, rec, false, setting);
    ReachesOn(w, Goto(w2, t, SendLinked(rec.id, rec, false, setting)),
              Goto(Sent(w, rec, ReqPending), t, SendMark(rec.id)));
    MarkReaches(Sent(w, rec, ReqPending), t, rec.id);
    ReachesOn(w, Goto(Sent(w, rec, ReqPending), t, SendMark(rec.id)), Waiting(w, rec));
  }

  // ----- the theorems -----

  /** The line's effect on the session, and its entry in the history. */
  ghost predicate Finishes(g: Gate, g': Gate, rec: LineRecord, o: Outcome, final: Status) {
    && g'.inflight.None? && g'.state == Idle
    && g'.cwd == (if MovesTo(g.mode, rec, true, o) then o.newCwd else g.cwd)
    && (if rec.cls.effect == Env && o.ok then NamesUpdated(rec.cls, g.env, g.unset, g'.env, g'.unset)
        else g'.env == g.env && g'.unset == g.unset)
    && (g'.tainted <==> g.tainted || (rec.cls.effect == StateChange && g.mode == Shell))
    && NewestEight(g.history, rec.(phase := Running, state := Some(final), exitCode := o.exitCode,
                                   cursorEnd := if o.cursorEnd > 0 then o.cursorEnd else rec.cursorEnd), g'.history)
  }

  /** The runner is called once, with the line as the approval screen shows it. */
  ghost predicate CalledOnce(w: World, w': World, rec: LineRecord, approved: bool) {
    && |w'.calls| == |w.calls| + 1 && w.calls <= w'.calls
    && var d := w'.calls[|w.calls|];
       d.plan == rec.(phase := Running) && d.shown == rec && d.approved == approved
  }

  /** From `w` to `w'` nothing happened but this line. */
  ghost predicate RanOnce(w: World, w': World, rec: LineRecord, approved: bool, o: Outcome, final: Status) {
    && w'.threads == w.threads && w'.reqs == w.reqs[rec.id := final]
    && (if rec.cls.effect == Env && rec.mode == Exec then w'.calls == w.calls else CalledOnce(w, w', rec, approved))
    && w'.finished == w.finished + [Ending(rec.(phase := Running), o)]
    && Finishes(w.gate, w'.gate, rec, o, final)
  }

  lemma GateFinishes(g: Gate, g1: Gate, rec: LineRecord, o: Outcome, final: Status)
    requires !IsClosing(g1) && g1.inflight == Some(rec) && rec.phase == Running
    requires g1.mode == g.mode && g1.cwd == g.cwd && g1.env == g.env && g1.unset == g.unset
    requires g1.tainted == g.tainted && g1.history == g.history
    ensures Finishes(g, FinishLine(g1, rec, true, o, final), rec, o, final)
  {
    FinishMeans(g1, rec, true, o, final);
    FinishLogs(g1, rec, true, o, final);
    var g2 := ApplyEffect(g1, rec, o);
    EffectMeans(g1, rec, o);
    LogFrees(g2, Finished(rec, o, final));
    LogLists(g2, Finished(rec, o, final));
    FinishedMeans(rec, o, final);
  }

  /** `m` differs from `w` only by the line that is about to run. */
  ghost predicate ReadyToRun(w: World, m: World, rec: LineRecord) {
    && m.threads == w.threads && m.calls == w.calls && m.finished == w.finished
    && rec.id in m.reqs && m.reqs.Keys == w.reqs.Keys + {rec.id}
    && (forall id :: id in w.reqs && id != rec.id ==> m.reqs[id] == w.reqs[id])
    && rec.id in m.links && m.links[rec.id] == rec
    && CanDeliver(m.gate, rec.id) && m.gate.inflight.value.(phase := Running) == rec.(phase := Running)
    && m.gate.mode == w.gate.mode && m.gate.cwd == w.gate.cwd && m.gate.env == w.gate.env
    && m.gate.unset == w.gate.unset && m.gate.tainted == w.gate.tainted && m.gate.history == w.gate.history
  }

  lemma RunFromFields(m: World, r: LineRecord, approved: bool, limit: Risk, o: Outcome, final: Status)
    ensures var w' := RunFrom(m, r, approved, limit, o, final);
            && w'.threads == m.threads && w'.reqs == m.reqs[r.id := final]
            && w'.finished == m.finished + [Ending(r, o)]
            && w'.gate == FinishLine(BeginDelivery(m.gate, r.id), r, true, o, final)
            && (r.cls.effect == Env && r.mode == Exec ==> w'.calls == m.calls)
            && (!(r.cls.effect == Env && r.mode == Exec) ==>
                  w'.calls == m.calls + [Outgoing(Granted(m, r, approved, limit), r, approved, limit)])
  {
  }

  lemma GrantedGate(w: World, m: World, rec: LineRecord, o: Outcome, final: Status)
    requires ReadyToRun(w, m, rec)
    ensures Finishes(w.gate, FinishLine(BeginDelivery(m.gate, rec.id), rec.(phase := Running), true, o, final),
                     rec.(phase := Running), o, final)
  {
    GateFinishes(w.gate, BeginDelivery(m.gate, rec.id), rec.(phase := Running), o, final);
  }

  lemma OnlyItsStatus(w: World, m: World, rec: LineRecord, final: Status)
    requires ReadyToRun(w, m, rec)
    ensures m.reqs[rec.id := final] == w.reqs[rec.id := final]
  {
  }

  lemma OneCall(w: World, m: World, w': World, rec: LineRecord, approved: bool, limit: Risk)
    requires ReadyToRun(w, m, rec)
    requires var r := rec.(phase := Running); w'.calls == m.calls + [Outgoing(Granted(m, r, approved, limit), r, approved, limit)]
    ensures CalledOnce(w, w', rec, approved)
  {
  }

  lemma RunFromRuns(w: World, m: World, rec: LineRecord, approved: bool, limit: Risk, o: Outcome, final: Status)
    requires ReadyToRun(w, m, rec)
    ensures RanOnce(w, RunFrom(m, rec.(phase := Running), approved, limit, o, final), rec, approved, o, final)
  {
    var r := rec.(phase := Running);
    RunFromFields(m, r, approved, limit, o, final);
    GrantedGate(w, m, rec, o, final);
    OnlyItsStatus(w, m, rec, final);
    if !(rec.cls.effect == Env && rec.mode == Exec) {
      OneCall(w, m, RunFrom(m, r, approved, limit, o, final), rec, approved, limit);
    }
  }

  lemma UnseenIsReady(w: World, rec: LineRecord)
    requires IsNew(w, rec)
    ensures ReadyToRun(w, Sent(w, rec, ReqAutoRunning), rec)
  {
  }

  lemma ApprovedIsReady(w: World, rec: LineRecord)
    requires IsNew(w, rec)
    ensures ReadyToRun(w, SetStatus(Waiting(w, rec), rec.id, ReqRunning), rec)
    ensures rec.id in Waiting(w, rec).links && StatusIs(Waiting(w, rec), rec.id, ReqPending)
    ensures Waiting(w, rec).threads == w.threads
  {
  }

  /** A line that may run unseen and for which nobody asks a human can run by itself: once,
      as it was classified, with the status that its report means. */
  lemma UnseenLineRuns(w: World, t: nat, rec: LineRecord, setting: Risk, o: Outcome, interrupted: bool) returns (w': World)
    requires Fresh(w, t) && IsNew(w, rec) && MayRunUnseen(rec.tainted, rec.cls, setting) && MayReport(rec, o, interrupted)
    ensures Reaches(w, w')
    ensures RanOnce(w, w', rec, false, o,
                    if interrupted then ReqInterrupted else if o.ok then ReqAutoSucceeded else ReqAutoFailed)
  {
    var m, r, final := Sent(w, rec, ReqAutoRunning), rec.(phase := Running), EndStatus(false, o.ok, interrupted);
    SentUnseen(w, t, rec, setting);
    UnseenIsReady(w, rec);
    StartReaches(m, t, r, false, setting, o, interrupted);
    w' := RunFrom(m, r, false, setting, o, final);
    ReachesOn(w, Goto(m, t, Start(rec.id, false, setting)), w');
    RunFromRuns(w, m, rec, false, setting, o, final);
  }

  /** Every other line waits for a human; when one approves it, it can run: once, as the
      approval screen showed it. */
  lemma ApprovedLineRuns(w: World, t: nat, rec: LineRecord, human: bool, setting: Risk, o: Outcome, interrupted: bool)
    returns (w': World)
    requires Fresh(w, t) && IsNew(w, rec) && MayReport(rec, o, interrupted)
    requires human || !MayRunUnseen(rec.tainted, rec.cls, setting)
    ensures Reaches(w, w')
    ensures RanOnce(w, w', rec, true, o, if interrupted then ReqInterrupted else if o.ok then ReqSucceeded else ReqFailed)
  {
    var wait, final := Waiting(w, rec), EndStatus(true, o.ok, interrupted);
    var m, r := SetStatus(wait, rec.id, ReqRunning), rec.(phase := Running);
    SentForApproval(w, t, rec, human, setting);
    ApprovedIsReady(w, rec);
    ApproveReaches(wait, t, rec.id);
    ReachesOn(w, wait, Goto(m, t, Start(rec.id, true, High)));
    StartReaches(m, t, r, true, High, o, interrupted);
    w' := RunFrom(m, r, true, High, o, final);
    ReachesOn(w, Goto(m, t, Start(rec.id, true, High)), w');
    RunFromRuns(w, m, rec, true, High, o, final);
  }

  /** From `w` to `w'` nothing happened but that this line waited and was dropped. */
  ghost predicate LeftUnrun(w: World, w': World, rec: LineRecord, status: Status) {
    && w'.threads == w.threads && w'.reqs == w.reqs[rec.id := status]
    && w'.calls == w.calls && w'.deliveries == w.deliveries
    && w'.gate.inflight.None? && w'.gate.state == Idle
    && w'.gate.cwd == w.gate.cwd && w'.gate.env == w.gate.env && w'.gate.unset == w.gate.unset
    && w'.gate.tainted == w.gate.tainted
    && NewestEight(w.gate.history, rec.(phase := Pending, state := Some(status)), w'.gate.history)
  }

  lemma WaitingMeans(w: World, rec: LineRecord)
    requires IsNew(w, rec)
    ensures var m := Waiting(w, rec);
            && m.threads == w.threads && m.reqs == w.reqs[rec.id := ReqPending]
            && m.calls == w.calls && m.deliveries == w.deliveries
            && m.gate == w.gate.(number := rec.number, inflight := Some(rec.(phase := Pending)), state := PendingApproval)
  {
  }

  lemma WaitingLeaves(w: World, m: World, rec: LineRecord, status: Status)
    requires !IsClosing(w.gate)
    requires m.threads == w.threads && m.reqs == w.reqs[rec.id := status]
    requires m.calls == w.calls && m.deliveries == w.deliveries
    requires m.gate == w.gate.(number := rec.number, inflight := Some(rec.(phase := Pending)), state := PendingApproval)
    ensures LeftUnrun(w, m.(gate := DropPending(m.gate, rec.id, status)), rec, status)
  {
    DropPendingMeans(m.gate, rec.id, status);
  }

  lemma StatusTwice(w: World, rec: LineRecord, status: Status)
    requires IsNew(w, rec)
    ensures SetStatus(Waiting(w, rec), rec.id, status).reqs == w.reqs[rec.id := status]
  {
    WaitingMeans(w, rec);
    Twice(w.reqs, rec.id, ReqPending, status);
  }

  lemma WaitingReaches(w: World, m: World, t: nat, rec: LineRecord, human: bool, setting: Risk)
    requires Fresh(w, t) && IsNew(w, rec) && (human || !MayRunUnseen(rec.tainted, rec.cls, setting))
    requires Reaches(Waiting(w, rec), m)
    ensures Reaches(w, m)
  {
    SentForApproval(w, t, rec, human, setting);
    ReachesOn(w, Waiting(w, rec), m);
  }

  function Decided(w: World, rec: LineRecord, status: Status): World {
    SetStatus(Waiting(w, rec), rec.id, status)
  }

  function Dropped(w: World, id: RequestId, status: Status): World {
    w.(gate := DropPending(w.gate, id, status))
  }

  lemma DroppedLeft(w: World, rec: LineRecord, status: Status)
    requires IsNew(w, rec)
    ensures LeftUnrun(w, Dropped(Decided(w, rec, status), rec.id, status), rec, status)
  {
    WaitingMeans(w, rec);
    StatusTwice(w, rec, status);
    WaitingLeaves(w, Decided(w, rec, status), rec, status);
  }

  lemma DecidedReaches(w: World, t: nat, rec: LineRecord, expired: bool)
    requires Fresh(w, t) && IsNew(w, rec)
    ensures var status := if expired then ReqExpired else ReqRejected;
            Reaches(Waiting(w, rec), Dropped(Decided(w, rec, status), rec.id, status))
  {
    var wait, status := Waiting(w, rec), if expired then ReqExpired else ReqRejected;
    WaitingMeans(w, rec);
    DecideReaches(wait, rec.id, expired);
    ReconcileReaches(Decided(w, rec, status), t, rec.id, false);
    ReachesOn(wait, Decided(w, rec, status), Dropped(Decided(w, rec, status), rec.id, status));
  }

  /** A line that is rejected or expires never runs: it is logged with that status and its
      slot is free for the next line. */
  lemma UnapprovedLineLeaves(w: World, t: nat, rec: LineRecord, human: bool, setting: Risk, status: Status)
    requires Fresh(w, t) && IsNew(w, rec) && (human || !MayRunUnseen(rec.tainted, rec.cls, setting))
    requires status == ReqRejected || status == ReqExpired
    ensures exists w' :: Reaches(w, w') && LeftUnrun(w, w', rec, status)
  {
    var w' := Dropped(Decided(w, rec, status), rec.id, status);
    DecidedReaches(w, t, rec, status == ReqExpired);
    WaitingReaches(w, w', t, rec, human, setting);
    DroppedLeft(w, rec, status);
  }
}
