/**
 Every thread of the line protocol finishes, so every close ends with the gate
 closed and the slot free.
 */
module LineProtocolProgress {
  import opened LineTypes
  import opened LineGate
  import opened LineProtocol
  import opened LineProtocolProof
  import opened LineProtocolRuns
  import opened LineProtocolCalls
  import opened LineProtocolClosing
  import opened LineProtocolTheorems

  // ----- how far a thread still has to go -----

  /** The most steps that a thread takes from here. */
  function Rank(pc: Pc): nat {
    match pc
    case SendReserved(_, _, _, _) => 8
    case SendQueued(_, _, _, _) => 7
    case SendLinked(_, _, _, _) => 6
    case SendRelease(_) => 1
    case SendMark(_) => 3
    case SendWithdraw(_) => 2
    case SendDrop(_) => 1
    case Start(_, _, _) => 5
    case Refused(_, _) => 3
    case RefusedLook(_, _) => 2
    case RefusedFree(_, _, _) => 1
    case Delivering(_, _, _, _) => 4
    case AtRunner(_, _, _) => 3
    case Ended(_, _, _, _, _) => 2
    case Freeing(_, _, _, _) => 1
    case ApproveCas(_) => 6
    case ReconLook(_) => 4
    case ReconExpire(_) => 3
    case ReconAgain(_) => 2
    case ReconDrop(_, _) => 1
    case CloseWithdraw(_) => 4
    case CloseLook(_) => 3
    case CloseDrop(_, _) => 2
    case CloseMark => 1
  }

  ghost function Work(threads: map<nat, Pc>): nat {
    if threads == map[] then 0
    else
      var t :| t in threads;
      Rank(threads[t]) + Work(threads - {t})
  }

  lemma {:induction false} WorkWithout(threads: map<nat, Pc>, t: nat)
    requires t in threads
    ensures Work(threads) == Rank(threads[t]) + Work(threads - {t})
    decreases |threads|
  {
    var u :| u in threads && Work(threads) == Rank(threads[u]) + Work(threads - {u});
    if u != t {
      WorkWithout(threads - {u}, t);
      WorkWithout(threads - {t}, u);
      assert threads - {u} - {t} == threads - {t} - {u};
    }
  }

  /** A thread moves on, or ends. */
  predicate MovesOn(threads: map<nat, Pc>, after: map<nat, Pc>, t: nat) {
    && t in threads
    && (|| after == threads - {t}
        || (t in after && after == threads[t := after[t]] && Rank(after[t]) < Rank(threads[t])))
  }

  lemma MovingOnCosts(threads: map<nat, Pc>, after: map<nat, Pc>, t: nat)
    requires MovesOn(threads, after, t)
    ensures Work(after) < Work(threads)
  {
    WorkWithout(threads, t);
    if t in after {
      WorkWithout(after, t);
      assert after - {t} == threads - {t};
    }
  }

  // ----- a step of a thread that is there -----

  predicate SendMoves(s: SendStep) {
    !s.DoReserve?
  }

  predicate DecideMoves(s: DecideStep) {
    !s.DoApprove? && !s.DoDecide? && !s.DoReconcile? && !s.DoDelete?
  }

  predicate CloseMoves(s: CloseStep) {
    !s.DoClose?
  }

  /** The step belongs to a thread that is there already. */
  predicate OwnStep(s: Step) {
    match s
    case SendDo(x) => SendMoves(x)
    case LineDo(x) => true
    case DecideDo(x) => DecideMoves(x)
    case CloseDo(x) => CloseMoves(x)
  }

  function Mover(s: Step): nat
    requires OwnStep(s)
  {
    match s
    case SendDo(x) => x.t
    case LineDo(x) => x.t
    case DecideDo(x) => x.t
    case CloseDo(x) => x.t
  }

  lemma SendMovesOn(w: World, s: SendStep)
    requires SendEnabled(w, s) && SendMoves(s)
    ensures MovesOn(w.threads, SendStepped(w, s).threads, s.t)
  {
  }

  lemma BeginMovesOn(w: World, t: nat)
    requires LineEnabled(w, DoBegin(t))
    ensures MovesOn(w.threads, StepBegin(w, t).threads, t)
  {
  }

  lemma RunnerMovesOn(w: World, s: LineStep)
    requires LineEnabled(w, s) && (s.DoCall? || s.DoRun?)
    ensures MovesOn(w.threads, LineStepped(w, s).threads, s.t)
  {
  }

  lemma BackMovesOn(w: World, s: LineStep)
    requires LineEnabled(w, s) && !s.DoBegin? && !s.DoCall? && !s.DoRun?
    ensures MovesOn(w.threads, LineStepped(w, s).threads, s.t)
  {
  }

  lemma LineMovesOn(w: World, s: LineStep)
    requires LineEnabled(w, s)
    ensures MovesOn(w.threads, LineStepped(w, s).threads, s.t)
  {
    if s.DoBegin? {
      BeginMovesOn(w, s.t);
    } else if s.DoCall? || s.DoRun? {
      RunnerMovesOn(w, s);
    } else {
      BackMovesOn(w, s);
    }
  }

  lemma DecideMovesOn(w: World, s: DecideStep)
    requires DecideEnabled(w, s) && DecideMoves(s)
    ensures MovesOn(w.threads, DecideStepped(w, s).threads, s.t)
  {
  }

  lemma CloseMovesOn(w: World, s: CloseStep)
    requires CloseEnabled(w, s) && CloseMoves(s)
    ensures MovesOn(w.threads, CloseStepped(w, s).threads, s.t)
  {
  }

  lemma OwnStepMovesOn(w: World, s: Step)
    requires Enabled(w, s) && OwnStep(s)
    ensures MovesOn(w.threads, Do(w, s).threads, Mover(s))
  {
    match s
    case SendDo(x) => SendMovesOn(w, x);
    case LineDo(x) => LineMovesOn(w, x);
    case DecideDo(x) => DecideMovesOn(w, x);
    case CloseDo(x) => CloseMovesOn(w, x);
  }

  ghost predicate ThreadStep(w: World, w': World) {
    exists s :: Enabled(w, s) && OwnStep(s) && w' == Do(w, s)
  }

  /** From `i` to `j` no thread appears and no human decides. */
  ghost predicate ThreadsOnly(run: seq<World>, i: nat, j: nat)
    requires i <= j < |run|
  {
    forall k :: i < k <= j ==> ThreadStepAt(run, k)
  }

  ghost predicate ThreadStepAt(run: seq<World>, k: nat)
    requires 0 < k < |run|
  {
    ThreadStep(run[k - 1], run[k])
  }

  /** The threads that are there take at most `Work` steps, whatever the order. */
  lemma {:induction false} ThreadsAreShort(run: seq<World>, i: nat, j: nat)
    requires i <= j < |run| && ThreadsOnly(run, i, j)
    ensures j - i + Work(run[j].threads) <= Work(run[i].threads)
    decreases j
  {
    if i < j {
      ThreadsAreShort(run, i, j - 1);
      assert ThreadStepAt(run, j);
      var s :| Enabled(run[j - 1], s) && OwnStep(s) && run[j] == Do(run[j - 1], s);
      OwnStepMovesOn(run[j - 1], s);
      MovingOnCosts(run[j - 1].threads, run[j].threads, Mover(s));
    }
  }

  /** What thread `t` can do next, whatever the other threads did. */
  function Next(t: nat, pc: Pc): Step {
    match pc
    case SendReserved(_, _, _, _) => SendDo(DoQueue(t, true))
    case SendQueued(_, _, _, _) => SendDo(DoLink(t))
    case SendLinked(_, _, _, _) => SendDo(DoRecord(t, true))
    case SendRelease(_) => SendDo(DoRelease(t))
    case SendMark(_) => SendDo(DoMark(t))
    case SendWithdraw(_) => CloseDo(DoWithdraw(t, true))
    case SendDrop(_) => CloseDo(DoDrop(t))
    case Start(_, _, _) => LineDo(DoBegin(t))
    case Refused(_, _) => LineDo(DoRefusedFinal(t, true))
    case RefusedLook(_, _) => LineDo(DoRefusedLook(t))
    case RefusedFree(_, _, _) => LineDo(DoRefusedFree(t))
    case Delivering(_, _, _, _) => LineDo(DoCall(t))
    case AtRunner(_, _, _) => LineDo(DoRun(t, Outcome("", true, 0, Some(0)), false))
    case Ended(_, _, _, _, _) => LineDo(DoFinal(t, true))
    case Freeing(_, _, _, _) => LineDo(DoFree(t))
    case ApproveCas(_) => DecideDo(DoApproveCas(t, true))
    case ReconLook(_) => DecideDo(DoReconLook(t, true))
    case ReconExpire(_) => DecideDo(DoReconExpire(t, true))
    case ReconAgain(_) => DecideDo(DoReconAgain(t))
    case ReconDrop(_, _) => DecideDo(DoReconDrop(t))
    case CloseWithdraw(_) => CloseDo(DoWithdraw(t, true))
    case CloseLook(_) => CloseDo(DoCloseLook(t))
    case CloseDrop(_, _) => CloseDo(DoDrop(t))
    case CloseMark => CloseDo(DoCloseMark(t))
  }

  /** No thread ever waits for another one: each can move on by a step of its own. */
  lemma NoThreadIsStuck(w: World, t: nat)
    requires At(w, t)
    ensures var s := Next(t, w.threads[t]);
            Enabled(w, s) && OwnStep(s) && Mover(s) == t && MovesOn(w.threads, Do(w, s).threads, t)
  {
    OwnStepMovesOn(w, Next(t, w.threads[t]));
  }

  // ----- a close that began ends -----

  ghost predicate CloserThere(w: World) {
    exists t :: CloserAt(w, t)
  }

  predicate CloserAt(w: World, t: nat) {
    t in w.threads && Closer(w.threads[t])
  }

  /** A gate that is closing and not closed has a thread that will mark it closed. */
  ghost predicate CloseIsCarried(w: World) {
    w.gate.state == Closing ==> CloserThere(w)
  }

  lemma CarriedByAnother(w: World, w': World, t: nat)
    requires CloseIsCarried(w) && OnlyMoves(w, w', t)
    requires w'.gate.state == Closing ==> CloserAt(w', t) || (w.gate.state == Closing && !CloserAt(w, t))
    ensures CloseIsCarried(w')
  {
    if w'.gate.state == Closing && !CloserAt(w', t) {
      var u :| CloserAt(w, u);
      assert CloserAt(w', u);
    }
  }

  lemma SendCarries(w: World, s: SendStep)
    requires SendEnabled(w, s)
    ensures SendStepped(w, s).gate.state == Closing ==> w.gate.state == Closing && !CloserAt(w, s.t)
  {
  }

  lemma LineCarries(w: World, s: LineStep)
    requires LineEnabled(w, s)
    ensures LineStepped(w, s).gate.state == Closing ==> w.gate.state == Closing && !CloserAt(w, s.t)
    ensures OnlyMoves(w, LineStepped(w, s), s.t)
  {
    match s
    case DoFree(t) => EffectKeepsState(w.gate, w.threads[t].rec, w.threads[t].outcome);
    case _ =>
  }

  lemma DecideCarries(w: World, s: DecideStep, t: nat)
    requires DecideEnabled(w, s) && (if s.DoDecide? || s.DoDelete? then t !in w.threads else t == s.t)
    ensures DecideStepped(w, s).gate.state == Closing ==> w.gate.state == Closing && !CloserAt(w, t)
  {
  }

  lemma CloseCarries(w: World, s: CloseStep)
    requires CloseEnabled(w, s)
    ensures var w' := CloseStepped(w, s);
            w'.gate.state == Closing ==> CloserAt(w', s.t) || (w.gate.state == Closing && !CloserAt(w, s.t))
  {
  }

  lemma StepCarries(w: World, s: Step)
    requires CloseIsCarried(w) && Enabled(w, s)
    ensures CloseIsCarried(Do(w, s))
  {
    match s
    case SendDo(x) =>
      SendAway(w, x);
      SendCarries(w, x);
      CarriedByAnother(w, Do(w, s), x.t);
    case LineDo(x) =>
      LineCarries(w, x);
      CarriedByAnother(w, Do(w, s), x.t);
    case DecideDo(x) =>
      FreshThread(w);
      var free: nat :| free !in w.threads;
      var t := if x.DoDecide? || x.DoDelete? then free else x.t;
      DecideAway(w, x, t);
      DecideCarries(w, x, t);
      CarriedByAnother(w, Do(w, s), t);
    case CloseDo(x) =>
      CloseAway(w, x);
      CloseCarries(w, x);
      CarriedByAnother(w, Do(w, s), x.t);
  }

  lemma {:induction false} RunCarries(run: seq<World>, i: nat)
    requires IsRun(run) && i < |run|
    ensures CloseIsCarried(run[i])
  {
    if i > 0 {
      RunCarries(run, i - 1);
      var s := StepTaken(run, i);
      StepCarries(run[i - 1], s);
    }
  }

  /** Every run can go on until no thread is left, in at most `Work` steps, and a
      session that was closing stays so. */
  lemma {:induction false} ThreadsCanFinish(run: seq<World>) returns (longer: seq<World>)
    requires IsRun(run)
    ensures IsRun(longer) && run <= longer && longer[|longer| - 1].threads == map[]
    ensures |longer| <= |run| + Work(run[|run| - 1].threads)
    ensures IsClosing(run[|run| - 1].gate) ==> IsClosing(longer[|longer| - 1].gate)
    decreases Work(run[|run| - 1].threads)
  {
    var w := run[|run| - 1];
    if w.threads == map[] {
      longer := run;
    } else {
      var t :| t in w.threads;
      NoThreadIsStuck(w, t);
      MovingOnCosts(w.threads, Do(w, Next(t, w.threads[t])).threads, t);
      if IsClosing(w.gate) {
        StepAfterClose(w, Next(t, w.threads[t]));
      }
      longer := Extend(run, Next(t, w.threads[t]));
      longer := ThreadsCanFinish(longer);
    }
  }

  /** A close that has begun can always end, and whenever its threads are done the
      gate is closed, the slot is free, and every request is settled but those whose
      last write the store refused. */
  lemma EveryCloseEnds(run: seq<World>) returns (longer: seq<World>)
    requires IsRun(run) && IsClosing(run[|run| - 1].gate)
    ensures IsRun(longer) && run <= longer && |longer| <= |run| + Work(run[|run| - 1].threads)
    ensures var w := longer[|longer| - 1]; w.threads == map[] && w.gate.state == Closed && w.gate.inflight.None?
    ensures UnsettledOnlyIfRefused(longer[|longer| - 1])
  {
    longer := ThreadsCanFinish(run);
    DoneIsSettled(longer, |longer| - 1);
  }

  lemma DoneIsSettled(run: seq<World>, i: nat)
    requires IsRun(run) && i < |run| && IsClosing(run[i].gate) && run[i].threads == map[]
    ensures run[i].gate.state == Closed && run[i].gate.inflight.None? && UnsettledOnlyIfRefused(run[i])
  {
    RunCarries(run, i);
    ClosingSettlesEveryLine(run, i, 0);
    forall id
      ensures ExecutingIn(run[i], id) <==> id in run[i].lostFinal
      ensures StatusIs(run[i], id, ReqPending) <==> id in run[i].lostWithdraw
    {
      ClosingSettlesEveryLine(run, i, id);
    }
  }

  ghost predicate UnsettledOnlyIfRefused(w: World) {
    && (forall id :: ExecutingIn(w, id) <==> id in w.lostFinal)
    && (forall id :: StatusIs(w, id, ReqPending) <==> id in w.lostWithdraw)
  }
}
