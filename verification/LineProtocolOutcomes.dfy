/**
 What the request table says about a line: which status follows which and why, and that
 the status of a finished line tells what the runner reported.
 */
module LineProtocolOutcomes {
  import opened LineTypes
  import opened LineProtocol
  import opened LineProtocolProof
  import opened LineProtocolRuns

  // ----- which status follows which -----

  /** The status of a request, None when it is not in the table. */
  function StatusOf(w: World, id: RequestId): Option<Status> {
    if id in w.reqs then Some(w.reqs[id]) else None
  }

  /** The status that a runner's report means. */
  predicate Tells(status: Status, ok: bool) {
    if ok then status == ReqSucceeded || status == ReqAutoSucceeded
    else status == ReqFailed || status == ReqAutoFailed || status == ReqInterrupted
  }

  /** The end of a line that was approved, or that ran unseen. */
  predicate EndOf(status: Status, approved: bool) {
    || status == ReqInterrupted
    || (if approved then status == ReqSucceeded || status == ReqFailed
        else status == ReqAutoSucceeded || status == ReqAutoFailed)
  }

  /** Why a status may change in a step. */
  predicate SendCause(w: World, s: SendStep, id: RequestId, to: Status)
    requires SendEnabled(w, s)
  {
    && s.DoRecord? && s.stored && w.threads[s.t].id == id
    && to == (if w.threads[s.t].auto then ReqAutoRunning else ReqPending)
  }

  predicate LineCause(w: World, s: LineStep, id: RequestId, from: Status, to: Status)
    requires LineEnabled(w, s)
  {
    && (s.DoFinal? || s.DoRefusedFinal?) && s.stored
    && w.threads[s.t].id == id
    && from == (if w.threads[s.t].approved then ReqRunning else ReqAutoRunning)
    && to == (if s.DoFinal? then w.threads[s.t].final
              else if w.threads[s.t].approved then ReqFailed else ReqAutoFailed)
  }

  predicate DecideCause(w: World, s: DecideStep, id: RequestId, from: Status, to: Option<Status>)
    requires DecideEnabled(w, s)
  {
    || (s.DoApproveCas? && s.stored && w.threads[s.t].id == id && from == ReqPending && to == Some(ReqRunning))
    || (s.DoDecide? && s.id == id && from == ReqPending && to == Some(if s.expired then ReqExpired else ReqRejected))
    || (s.DoReconExpire? && s.stored && w.threads[s.t].id == id && from == ReqPending && to == Some(ReqExpired))
    || (s.DoDelete? && s.id == id && from != ReqRunning && from != ReqAutoRunning && w.gate.state == Closed && to == None)
  }

  predicate CloseCause(w: World, s: CloseStep, id: RequestId, from: Status, to: Status)
    requires CloseEnabled(w, s)
  {
    s.DoWithdraw? && s.stored && w.threads[s.t].id == id && from == ReqPending && to == ReqWithdrawn
  }

  lemma SendMoves(w: World, s: SendStep, id: RequestId)
    requires SendEnabled(w, s) && PcsOk(w) && IdsOk(w) && StatusOf(w, id) != StatusOf(SendStepped(w, s), id)
    ensures id !in w.recorded && StatusOf(w, id).None?
    ensures StatusOf(SendStepped(w, s), id).Some? && SendCause(w, s, id, SendStepped(w, s).reqs[id])
  {
    assert PcOk(w, w.threads[s.t]);
  }

  lemma LineMoves(w: World, s: LineStep, id: RequestId)
    requires LineEnabled(w, s) && StatusOf(w, id) != StatusOf(LineStepped(w, s), id)
    ensures id in w.reqs && id in LineStepped(w, s).reqs
    ensures LineCause(w, s, id, w.reqs[id], LineStepped(w, s).reqs[id])
  {
  }

  lemma DecideMoves(w: World, s: DecideStep, id: RequestId)
    requires DecideEnabled(w, s) && StatusOf(w, id) != StatusOf(DecideStepped(w, s), id)
    ensures id in w.reqs && DecideCause(w, s, id, w.reqs[id], StatusOf(DecideStepped(w, s), id))
  {
  }

  lemma CloseMoves(w: World, s: CloseStep, id: RequestId)
    requires CloseEnabled(w, s) && StatusOf(w, id) != StatusOf(CloseStepped(w, s), id)
    ensures id in w.reqs && id in CloseStepped(w, s).reqs
    ensures CloseCause(w, s, id, w.reqs[id], CloseStepped(w, s).reqs[id])
  {
  }

  /** In every step of every run a status changes only so: it appears as auto_running or
      pending; pending turns running by an approval, rejected or expired by a decision or a
      timeout, withdrawn by a sender or a close; running and auto_running turn into the end
      of their kind, or failed when the gate refused the line; and a request that is not
      executing may be deleted when the session is closed. */
  ghost predicate Moved(w: World, s: Step, id: RequestId)
    requires Enabled(w, s)
  {
    var from, to := StatusOf(w, id), StatusOf(Do(w, s), id);
    match s
    case SendDo(x) => from.None? && to.Some? && SendCause(w, x, id, to.value)
    case LineDo(x) => from.Some? && to.Some? && LineCause(w, x, id, from.value, to.value)
    case DecideDo(x) => from.Some? && DecideCause(w, x, id, from.value, to)
    case CloseDo(x) => from.Some? && to.Some? && CloseCause(w, x, id, from.value, to.value)
  }

  lemma StepMoves(w: World, s: Step, id: RequestId)
    requires PcsOk(w) && IdsOk(w) && Enabled(w, s) && StatusOf(w, id) != StatusOf(Do(w, s), id)
    ensures Moved(w, s, id)
  {
    match s
    case SendDo(x) => SendMoves(w, x, id);
    case LineDo(x) => LineMoves(w, x, id);
    case DecideDo(x) => DecideMoves(w, x, id);
    case CloseDo(x) => CloseMoves(w, x, id);
  }

  // ----- a final status stays -----

  /** Behind it nothing changes but a deletion. */
  predicate IsFinal(status: Status) {
    status != ReqPending && status != ReqRunning && status != ReqAutoRunning
  }

  lemma FinalStays(w: World, s: Step, id: RequestId)
    requires PcsOk(w) && IdsOk(w) && Enabled(w, s) && id in w.recorded
    requires id in w.reqs ==> IsFinal(w.reqs[id])
    ensures id in Do(w, s).reqs ==> id in w.reqs && Do(w, s).reqs[id] == w.reqs[id]
  {
    if StatusOf(w, id) != StatusOf(Do(w, s), id) {
      match s
      case SendDo(x) => SendMoves(w, x, id);
      case LineDo(x) => LineMoves(w, x, id);
      case DecideDo(x) => DecideMoves(w, x, id);
      case CloseDo(x) => CloseMoves(w, x, id);
    }
  }

  lemma LostStays(w: World, s: Step)
    requires Enabled(w, s)
    ensures w.lostFinal <= Do(w, s).lostFinal
  {
    match s
    case SendDo(x) => assert SendStepped(w, x).lostFinal == w.lostFinal;
    case LineDo(x) => LineKeepsLost(w, x);
    case DecideDo(x) => assert DecideStepped(w, x).lostFinal == w.lostFinal;
    case CloseDo(x) => assert CloseStepped(w, x).lostFinal == w.lostFinal;
  }

  lemma LineKeepsLost(w: World, s: LineStep)
    requires LineEnabled(w, s)
    ensures w.lostFinal <= LineStepped(w, s).lostFinal
  {
  }

  // ----- the status of a finished line -----

  /** Unless the store refused it, or the request is deleted, the status tells the report. */
  ghost predicate Told(w: World, id: RequestId, ok: bool) {
    id in w.recorded && (id in w.lostFinal || (id in w.reqs ==> Tells(w.reqs[id], ok)))
  }

  ghost predicate PcTells(w: World, pc: Pc) {
    && (pc.Ended? ==> Tells(pc.final, pc.outcome.ok) && EndOf(pc.final, pc.approved))
    && (pc.Freeing? ==> Told(w, pc.id, pc.outcome.ok))
  }

  ghost predicate EndingTells(w: World, e: Ending) {
    Told(w, e.rec.id, e.outcome.ok)
  }

  ghost predicate OutcomeInv(w: World) {
    && (forall t :: t in w.threads ==> PcTells(w, w.threads[t]))
    && (forall k :: 0 <= k < |w.finished| ==> EndingTells(w, w.finished[k]))
  }

  lemma RecordedStays(w: World, s: Step)
    requires Enabled(w, s)
    ensures w.recorded <= Do(w, s).recorded
  {
    match s
    case SendDo(x) => assert w.recorded <= SendStepped(w, x).recorded;
    case LineDo(x) => assert LineStepped(w, x).recorded == w.recorded;
    case DecideDo(x) => assert DecideStepped(w, x).recorded == w.recorded;
    case CloseDo(x) => assert CloseStepped(w, x).recorded == w.recorded;
  }

  lemma ToldStays(w: World, s: Step, id: RequestId, ok: bool)
    requires PcsOk(w) && IdsOk(w) && Enabled(w, s) && Told(w, id, ok)
    ensures Told(Do(w, s), id, ok)
  {
    RecordedStays(w, s);
    LostStays(w, s);
    if id !in w.lostFinal {
      FinalStays(w, s, id);
    }
  }

  /** The report of the runner, and the status it means: interrupted, or by exit code 0. */
  lemma RunReports(w: World, t: nat, o: Outcome, interrupted: bool)
    requires LineEnabled(w, DoRun(t, o, interrupted))
    ensures var pc, pc' := w.threads[t], StepRun(w, t, o, interrupted).threads[t];
            && pc'.Ended? && pc'.id == pc.id && pc'.rec == pc.rec && pc'.approved == pc.approved && pc'.outcome == o
            && (interrupted ==> pc'.final == ReqInterrupted)
            && (!interrupted && o.ok ==> pc'.final == if pc.approved then ReqSucceeded else ReqAutoSucceeded)
            && (!interrupted && !o.ok ==> pc'.final == if pc.approved then ReqFailed else ReqAutoFailed)
  {
  }

  lemma CallTells(w: World, t: nat)
    requires LineEnabled(w, DoCall(t))
    ensures PcTells(StepCall(w, t), StepCall(w, t).threads[t])
  {
  }

  lemma FinalTells(w: World, t: nat, stored: bool)
    requires LineEnabled(w, DoFinal(t, stored)) && PcOk(w, w.threads[t]) && PcTells(w, w.threads[t])
    ensures PcTells(StepFinal(w, t, stored), StepFinal(w, t, stored).threads[t])
  {
  }

  /** The other steps lead to no report and to no written end. */
  lemma OtherLineSteps(w: World, s: LineStep)
    requires LineEnabled(w, s) && !s.DoRun? && !s.DoCall? && !s.DoFinal?
    ensures s.t in LineStepped(w, s).threads ==>
              !LineStepped(w, s).threads[s.t].Ended? && !LineStepped(w, s).threads[s.t].Freeing?
  {
  }

  lemma LineTells(w: World, s: LineStep)
    requires LineEnabled(w, s) && PcOk(w, w.threads[s.t]) && PcTells(w, w.threads[s.t])
    ensures var w' := LineStepped(w, s); s.t in w'.threads ==> PcTells(w', w'.threads[s.t])
  {
    if s.DoRun? {
      RunReports(w, s.t, s.outcome, s.interrupted);
    } else if s.DoCall? {
      CallTells(w, s.t);
    } else if s.DoFinal? {
      FinalTells(w, s.t, s.stored);
    } else {
      OtherLineSteps(w, s);
    }
  }

  /** Thread `t` is as before, or it neither has a report nor a written end. */
  predicate Plain(w: World, w': World, t: nat)
    requires t in w'.threads
  {
    (t in w.threads && w'.threads[t] == w.threads[t]) || (!w'.threads[t].Ended? && !w'.threads[t].Freeing?)
  }

  lemma SendIsPlain(w: World, s: SendStep, t: nat)
    requires SendEnabled(w, s) && t in SendStepped(w, s).threads
    ensures Plain(w, SendStepped(w, s), t)
  {
  }

  lemma DecideIsPlain(w: World, s: DecideStep, t: nat)
    requires DecideEnabled(w, s) && t in DecideStepped(w, s).threads
    ensures Plain(w, DecideStepped(w, s), t)
  {
  }

  lemma CloseIsPlain(w: World, s: CloseStep, t: nat)
    requires CloseEnabled(w, s) && t in CloseStepped(w, s).threads
    ensures Plain(w, CloseStepped(w, s), t)
  {
  }

  lemma LineMovesOne(w: World, s: LineStep, t: nat)
    requires LineEnabled(w, s) && t != s.t && t in LineStepped(w, s).threads
    ensures t in w.threads && LineStepped(w, s).threads[t] == w.threads[t]
  {
  }

  lemma ThreadTells(w: World, s: Step, t: nat)
    requires PcsOk(w) && Enabled(w, s) && t in Do(w, s).threads
    requires forall u :: u in w.threads ==> PcTells(w, w.threads[u])
    ensures PcTells(Do(w, s), Do(w, s).threads[t]) || (t in w.threads && Do(w, s).threads[t] == w.threads[t])
  {
    match s
    case SendDo(x) => SendIsPlain(w, x, t);
    case DecideDo(x) => DecideIsPlain(w, x, t);
    case CloseDo(x) => CloseIsPlain(w, x, t);
    case LineDo(x) =>
      if t == x.t {
        assert PcOk(w, w.threads[t]) && PcTells(w, w.threads[t]);
        LineTells(w, x);
      } else {
        LineMovesOne(w, x, t);
      }
  }

  /** Only the last step of a delivered line adds an ending: its own. */
  lemma FinishedGrows(w: World, s: Step)
    requires Enabled(w, s)
    ensures var w' := Do(w, s);
            || w'.finished == w.finished
            || (s.LineDo? && s.line.DoFree?
                && var pc := w.threads[s.line.t]; w'.finished == w.finished + [Ending(pc.rec, pc.outcome)])
  {
    match s
    case SendDo(x) => assert SendStepped(w, x).finished == w.finished;
    case LineDo(x) => LineFinished(w, x);
    case DecideDo(x) => assert DecideStepped(w, x).finished == w.finished;
    case CloseDo(x) => assert CloseStepped(w, x).finished == w.finished;
  }

  lemma LineFinished(w: World, s: LineStep)
    requires LineEnabled(w, s)
    ensures LineStepped(w, s).finished
         == if s.DoFree? then w.finished + [Ending(w.threads[s.t].rec, w.threads[s.t].outcome)] else w.finished
  {
  }

  lemma EndingsTell(w: World, s: Step, k: nat)
    requires PcsOk(w) && IdsOk(w) && OutcomeInv(w) && Enabled(w, s) && k < |Do(w, s).finished|
    ensures EndingTells(Do(w, s), Do(w, s).finished[k])
  {
    FinishedGrows(w, s);
    if k < |w.finished| {
      assert EndingTells(w, w.finished[k]);
      ToldStays(w, s, w.finished[k].rec.id, w.finished[k].outcome.ok);
    } else {
      var t := s.line.t;
      assert PcOk(w, w.threads[t]) && PcTells(w, w.threads[t]);
      ToldStays(w, s, w.threads[t].id, w.threads[t].outcome.ok);
    }
  }

  lemma StepOutcomes(w: World, s: Step)
    requires PcsOk(w) && IdsOk(w) && OutcomeInv(w) && Enabled(w, s)
    ensures OutcomeInv(Do(w, s))
  {
    var w' := Do(w, s);
    forall t | t in w'.threads ensures PcTells(w', w'.threads[t]) {
      ThreadTells(w, s, t);
      if t in w.threads && w'.threads[t] == w.threads[t] {
        assert PcTells(w, w.threads[t]);
        if w.threads[t].Freeing? {
          ToldStays(w, s, w.threads[t].id, w.threads[t].outcome.ok);
        }
      }
    }
    forall k | 0 <= k < |w'.finished| ensures EndingTells(w', w'.finished[k]) {
      EndingsTell(w, s, k);
    }
  }

  lemma NextOutcomes(run: seq<World>, i: nat)
    requires IsRun(run) && 0 < i < |run| && OutcomeInv(run[i - 1])
    ensures OutcomeInv(run[i])
  {
    RunInv(run, i - 1);
    var s := StepTaken(run, i);
    StepOutcomes(run[i - 1], s);
  }

  lemma {:induction false} RunOutcomes(run: seq<World>, i: nat)
    requires IsRun(run) && i < |run|
    ensures OutcomeInv(run[i])
  {
    if i > 0 {
      RunOutcomes(run, i - 1);
      NextOutcomes(run, i);
    }
  }

  // ----- the theorems -----

  /** In every run the status of a finished line tells what the runner reported: succeeded
      exactly when it reported success, failed or interrupted exactly when it did not, unless
      the store refused the end or the request is deleted. */
  lemma StatusTellsTheOutcome(run: seq<World>, i: nat, k: nat)
    requires IsRun(run) && i < |run| && k < |run[i].finished|
    requires run[i].finished[k].rec.id !in run[i].lostFinal && run[i].finished[k].rec.id in run[i].reqs
    ensures var e := run[i].finished[k];
            Tells(run[i].reqs[e.rec.id], e.outcome.ok)
  {
    RunOutcomes(run, i);
    assert EndingTells(run[i], run[i].finished[k]);
  }

  ghost predicate CausedBy(w: World, w': World, s: Step, id: RequestId) {
    Enabled(w, s) && w' == Do(w, s) && Moved(w, s, id)
  }

  lemma EndsInItsKind(w: World, s: Step, id: RequestId)
    requires Enabled(w, s) && Moved(w, s, id) && id in w.reqs && !IsFinal(w.reqs[id]) && w.reqs[id] != ReqPending
    requires s.LineDo? ==> PcTells(w, w.threads[s.line.t])
    ensures id in Do(w, s).reqs && EndOf(Do(w, s).reqs[id], w.reqs[id] == ReqRunning)
  {
    if s.LineDo? {
      LineEndsInItsKind(w, s.line, id);
    }
  }

  lemma LineEndsInItsKind(w: World, s: LineStep, id: RequestId)
    requires LineEnabled(w, s) && PcTells(w, w.threads[s.t])
    requires id in w.reqs && id in LineStepped(w, s).reqs && LineCause(w, s, id, w.reqs[id], LineStepped(w, s).reqs[id])
    ensures EndOf(LineStepped(w, s).reqs[id], w.reqs[id] == ReqRunning)
  {
  }

  ghost predicate HasCause(w: World, w': World, id: RequestId) {
    exists s :: CausedBy(w, w', s, id)
  }

  /** A started line ends in its kind. */
  predicate KeepsKind(w: World, w': World, id: RequestId) {
    && (StatusIs(w, id, ReqRunning) ==> id in w'.reqs && EndOf(w'.reqs[id], true))
    && (StatusIs(w, id, ReqAutoRunning) ==> id in w'.reqs && EndOf(w'.reqs[id], false))
  }

  lemma StepHasCause(w: World, s: Step, id: RequestId)
    requires PcsOk(w) && IdsOk(w) && OutcomeInv(w) && Enabled(w, s) && StatusOf(w, id) != StatusOf(Do(w, s), id)
    ensures HasCause(w, Do(w, s), id) && KeepsKind(w, Do(w, s), id)
  {
    StepMoves(w, s, id);
    assert CausedBy(w, Do(w, s), s, id);
    if id in w.reqs && !IsFinal(w.reqs[id]) && w.reqs[id] != ReqPending {
      if s.LineDo? {
        assert PcTells(w, w.threads[s.line.t]);
      }
      EndsInItsKind(w, s, id);
    }
  }

  lemma NextHasCause(run: seq<World>, i: nat, id: RequestId)
    requires IsRun(run) && 0 < i < |run| && OutcomeInv(run[i - 1]) && StatusOf(run[i - 1], id) != StatusOf(run[i], id)
    ensures HasCause(run[i - 1], run[i], id) && KeepsKind(run[i - 1], run[i], id)
  {
    RunInv(run, i - 1);
    var s := StepTaken(run, i);
    StepHasCause(run[i - 1], s, id);
  }

  /** Every change of a status in every run has its cause, and the end of a line is of the
      kind in which it was started. */
  lemma StatusMovesForACause(run: seq<World>, i: nat, id: RequestId)
    requires IsRun(run) && 0 < i < |run| && StatusOf(run[i - 1], id) != StatusOf(run[i], id)
    ensures HasCause(run[i - 1], run[i], id) && KeepsKind(run[i - 1], run[i], id)
  {
    RunOutcomes(run, i - 1);
    NextHasCause(run, i, id);
  }
}
