/**
 Runs that show that the exceptions in the theorems about closing are real.
 Each stage says where the run stands; one step leads to the next stage.
 */
module LineProtocolExamples {
  import opened LineTypes
  import opened LineGate
  import opened LineProtocol
  import opened LineProtocolRuns

  // ----- a line that runs by itself while the session closes -----

  predicate AutoReserved(w: World) {
    && w.threads.Keys == {0} && w.threads[0].SendReserved? && w.threads[0].id == 0 && w.threads[0].auto
    && HoldsIn(w.gate, 0, Reserved) && w.gate.inflight.value.cls.effect == NoEffect
    && !IsClosing(w.gate) && w.calls == []
  }

  predicate AutoQueued(w: World) {
    && w.threads.Keys == {0} && w.threads[0].SendQueued? && w.threads[0].id == 0 && w.threads[0].auto
    && HoldsIn(w.gate, 0, Reserved) && w.gate.inflight.value.cls.effect == NoEffect
    && !IsClosing(w.gate) && w.calls == []
  }

  predicate AutoLinked(w: World) {
    && w.threads.Keys == {0} && w.threads[0].SendLinked? && w.threads[0].id == 0 && w.threads[0].auto
    && HoldsIn(w.gate, 0, Reserved) && w.gate.inflight.value.cls.effect == NoEffect
    && !IsClosing(w.gate) && w.calls == []
  }

  predicate AutoRecorded(w: World) {
    && w.threads.Keys == {0} && w.threads[0].Start? && w.threads[0].id == 0 && !w.threads[0].approved
    && HoldsIn(w.gate, 0, Reserved) && w.gate.inflight.value.cls.effect == NoEffect
    && !IsClosing(w.gate) && w.calls == [] && StatusIs(w, 0, ReqAutoRunning)
  }

  predicate AutoGranted(w: World) {
    && w.threads.Keys == {0} && w.threads[0].Delivering? && w.threads[0].id == 0 && !w.threads[0].approved
    && w.threads[0].rec.id == 0 && w.threads[0].rec.cls.effect == NoEffect && HoldsIn(w.gate, 0, Running)
    && !IsClosing(w.gate) && w.calls == [] && StatusIs(w, 0, ReqAutoRunning)
  }

  predicate AutoOvertaken(w: World) {
    && w.threads.Keys == {0, 1} && w.threads[0].Delivering? && w.threads[0].id == 0 && !w.threads[0].approved
    && w.threads[0].rec.id == 0 && w.threads[0].rec.cls.effect == NoEffect && w.threads[1].CloseMark?
    && IsClosing(w.gate) && w.calls == [] && StatusIs(w, 0, ReqAutoRunning)
  }

  predicate AutoAtRunner(w: World) {
    && w.threads.Keys == {0, 1} && w.threads[0].AtRunner? && w.threads[0].id == 0 && !w.threads[0].approved
    && w.threads[1].CloseMark? && StatusIs(w, 0, ReqAutoRunning)
    && |w.calls| == 1 && w.calls[0].plan.id == 0 && IsClosing(w.calls[0].gate)
  }

  predicate AutoEnded(w: World) {
    && w.threads.Keys == {0, 1} && w.threads[0].Ended? && w.threads[0].id == 0 && !w.threads[0].approved
    && w.threads[1].CloseMark? && StatusIs(w, 0, ReqAutoRunning)
  }

  predicate AutoFreeing(w: World) {
    && w.threads.Keys == {0, 1} && w.threads[0].Freeing? && w.threads[1].CloseMark? && StatusIs(w, 0, ReqAutoRunning)
  }

  predicate AutoFreed(w: World) {
    && w.threads.Keys == {1} && w.threads[1].CloseMark? && StatusIs(w, 0, ReqAutoRunning)
  }

  predicate LeftRunning(w: World) {
    w.gate.state == Closed && w.threads == map[] && StatusIs(w, 0, ReqAutoRunning)
  }

  lemma ToAutoReserved(w: World)
    requires w == Init(Exec, "/")
    ensures Enabled(w, SendDo(DoReserve(0, 0, "ls", LineClass(Low, NoEffect, map[], []), Queued(0, 60, 0), false, Low)))
    ensures AutoReserved(Do(w, SendDo(DoReserve(0, 0, "ls", LineClass(Low, NoEffect, map[], []), Queued(0, 60, 0), false, Low))))
  {
  }

  lemma ToAutoQueued(w: World)
    requires AutoReserved(w)
    ensures Enabled(w, SendDo(DoQueue(0, true))) && AutoQueued(Do(w, SendDo(DoQueue(0, true))))
  {
  }

  lemma ToAutoLinked(w: World)
    requires AutoQueued(w)
    ensures Enabled(w, SendDo(DoLink(0))) && AutoLinked(Do(w, SendDo(DoLink(0))))
  {
  }

  lemma ToAutoRecorded(w: World)
    requires AutoLinked(w)
    ensures Enabled(w, SendDo(DoRecord(0, true))) && AutoRecorded(Do(w, SendDo(DoRecord(0, true))))
  {
  }

  lemma ToAutoGranted(w: World)
    requires AutoRecorded(w)
    ensures Enabled(w, LineDo(DoBegin(0))) && AutoGranted(Do(w, LineDo(DoBegin(0))))
  {
  }

  lemma ToAutoOvertaken(w: World)
    requires AutoGranted(w)
    ensures Enabled(w, CloseDo(DoClose(1, "idle"))) && AutoOvertaken(Do(w, CloseDo(DoClose(1, "idle"))))
  {
  }

  lemma ToAutoAtRunner(w: World)
    requires AutoOvertaken(w)
    ensures Enabled(w, LineDo(DoCall(0))) && AutoAtRunner(Do(w, LineDo(DoCall(0))))
  {
  }

  lemma ToAutoEnded(w: World)
    requires AutoAtRunner(w)
    ensures Enabled(w, LineDo(DoRun(0, Outcome("", true, 0, Some(0)), false)))
    ensures AutoEnded(Do(w, LineDo(DoRun(0, Outcome("", true, 0, Some(0)), false))))
  {
  }

  lemma ToAutoFreeing(w: World)
    requires AutoEnded(w)
    ensures Enabled(w, LineDo(DoFinal(0, false))) && AutoFreeing(Do(w, LineDo(DoFinal(0, false))))
  {
  }

  lemma ToAutoFreed(w: World)
    requires AutoFreeing(w)
    ensures Enabled(w, LineDo(DoFree(0))) && AutoFreed(Do(w, LineDo(DoFree(0))))
  {
  }

  lemma ToLeftRunning(w: World)
    requires AutoFreed(w)
    ensures Enabled(w, CloseDo(DoCloseMark(1))) && LeftRunning(Do(w, CloseDo(DoCloseMark(1))))
  {
  }

  lemma AutoLineGranted() returns (run: seq<World>)
    ensures IsRun(run) && AutoGranted(run[|run| - 1])
  {
    run := [Init(Exec, "/")];
    ToAutoReserved(run[|run| - 1]);
    run := Extend(run, SendDo(DoReserve(0, 0, "ls", LineClass(Low, NoEffect, map[], []), Queued(0, 60, 0), false, Low)));
    ToAutoQueued(run[|run| - 1]);
    run := Extend(run, SendDo(DoQueue(0, true)));
    ToAutoLinked(run[|run| - 1]);
    run := Extend(run, SendDo(DoLink(0)));
    ToAutoRecorded(run[|run| - 1]);
    run := Extend(run, SendDo(DoRecord(0, true)));
    ToAutoGranted(run[|run| - 1]);
    run := Extend(run, LineDo(DoBegin(0)));
  }

  /** A line that was granted on an open gate reaches the runner after the close began. */
  lemma LineReachesRunnerAfterClose() returns (run: seq<World>)
    ensures IsRun(run) && |run| > 2
    ensures !IsClosing(run[|run| - 3].gate) && IsClosing(run[|run| - 2].gate) && run[|run| - 2].calls == []
    ensures AutoAtRunner(run[|run| - 1])
    ensures |run[|run| - 1].calls| == 1 && IsClosing(run[|run| - 1].calls[0].gate)
  {
    run := AutoLineGranted();
    ToAutoOvertaken(run[|run| - 1]);
    run := Extend(run, CloseDo(DoClose(1, "idle")));
    ToAutoAtRunner(run[|run| - 1]);
    run := Extend(run, LineDo(DoCall(0)));
  }

  /** The first exception of `ClosingSettlesEveryLine`: a line that runs by itself
      on a session that closes stays auto_running when the store refuses its final
      state. */
  lemma RefusedFinalWriteLeavesLineRunning() returns (run: seq<World>)
    ensures IsRun(run)
    ensures var w := run[|run| - 1];
            w.gate.state == Closed && w.threads == map[] && StatusIs(w, 0, ReqAutoRunning)
  {
    run := LineReachesRunnerAfterClose();
    ToAutoEnded(run[|run| - 1]);
    run := Extend(run, LineDo(DoRun(0, Outcome("", true, 0, Some(0)), false)));
    ToAutoFreeing(run[|run| - 1]);
    run := Extend(run, LineDo(DoFinal(0, false)));
    ToAutoFreed(run[|run| - 1]);
    run := Extend(run, LineDo(DoFree(0)));
    ToLeftRunning(run[|run| - 1]);
    run := Extend(run, CloseDo(DoCloseMark(1)));
  }

  // ----- a line that waits for a human when the session closes -----

  predicate HumanReserved(w: World) {
    && w.threads.Keys == {0} && w.threads[0].SendReserved? && w.threads[0].id == 0 && !w.threads[0].auto
    && HoldsIn(w.gate, 0, Reserved) && !IsClosing(w.gate) && w.gate.history == []
  }

  predicate HumanQueued(w: World) {
    && w.threads.Keys == {0} && w.threads[0].SendQueued? && w.threads[0].id == 0 && !w.threads[0].auto
    && HoldsIn(w.gate, 0, Reserved) && !IsClosing(w.gate) && w.gate.history == []
  }

  predicate HumanLinked(w: World) {
    && w.threads.Keys == {0} && w.threads[0].SendLinked? && w.threads[0].id == 0 && !w.threads[0].auto
    && HoldsIn(w.gate, 0, Reserved) && !IsClosing(w.gate) && w.gate.history == [] && 0 in w.links
  }

  predicate HumanRecorded(w: World) {
    && w.threads.Keys == {0} && w.threads[0] == SendMark(0)
    && HoldsIn(w.gate, 0, Reserved) && !IsClosing(w.gate) && StatusIs(w, 0, ReqPending) && w.gate.history == [] && 0 in w.links
  }

  predicate HumanWaits(w: World) {
    && w.threads == map[] && HoldsIn(w.gate, 0, Pending) && !IsClosing(w.gate) && StatusIs(w, 0, ReqPending)
    && w.gate.history == [] && 0 in w.links
  }

  predicate HumanClosing(w: World) {
    w.threads == map[1 := CloseWithdraw(0)] && StatusIs(w, 0, ReqPending)
  }

  predicate HumanRefused(w: World) {
    w.threads == map[1 := CloseLook(0)] && StatusIs(w, 0, ReqPending)
  }

  predicate HumanSeen(w: World) {
    w.threads == map[1 := CloseDrop(0, ReqPending)] && StatusIs(w, 0, ReqPending)
  }

  predicate HumanDropped(w: World) {
    w.threads == map[1 := CloseMark] && StatusIs(w, 0, ReqPending)
  }

  predicate LeftPending(w: World) {
    w.gate.state == Closed && w.threads == map[] && StatusIs(w, 0, ReqPending)
  }

  lemma ToHumanReserved(w: World)
    requires w == Init(Exec, "/")
    ensures Enabled(w, SendDo(DoReserve(0, 0, "ls", LineClass(Low, NoEffect, map[], []), Queued(0, 60, 0), true, Low)))
    ensures HumanReserved(Do(w, SendDo(DoReserve(0, 0, "ls", LineClass(Low, NoEffect, map[], []), Queued(0, 60, 0), true, Low))))
  {
  }

  lemma ToHumanQueued(w: World)
    requires HumanReserved(w)
    ensures Enabled(w, SendDo(DoQueue(0, true))) && HumanQueued(Do(w, SendDo(DoQueue(0, true))))
  {
  }

  lemma ToHumanLinked(w: World)
    requires HumanQueued(w)
    ensures Enabled(w, SendDo(DoLink(0))) && HumanLinked(Do(w, SendDo(DoLink(0))))
  {
  }

  lemma ToHumanRecorded(w: World)
    requires HumanLinked(w)
    ensures Enabled(w, SendDo(DoRecord(0, true))) && HumanRecorded(Do(w, SendDo(DoRecord(0, true))))
  {
  }

  lemma ToHumanWaits(w: World)
    requires HumanRecorded(w)
    ensures Enabled(w, SendDo(DoMark(0))) && HumanWaits(Do(w, SendDo(DoMark(0))))
  {
  }

  lemma ToHumanClosing(w: World)
    requires HumanWaits(w)
    ensures Enabled(w, CloseDo(DoClose(1, "idle"))) && HumanClosing(Do(w, CloseDo(DoClose(1, "idle"))))
  {
  }

  lemma ToHumanRefused(w: World)
    requires HumanClosing(w)
    ensures Enabled(w, CloseDo(DoWithdraw(1, false))) && HumanRefused(Do(w, CloseDo(DoWithdraw(1, false))))
  {
  }

  lemma ToHumanSeen(w: World)
    requires HumanRefused(w)
    ensures Enabled(w, CloseDo(DoCloseLook(1))) && HumanSeen(Do(w, CloseDo(DoCloseLook(1))))
  {
  }

  lemma ToHumanDropped(w: World)
    requires HumanSeen(w)
    ensures Enabled(w, CloseDo(DoDrop(1))) && HumanDropped(Do(w, CloseDo(DoDrop(1))))
  {
  }

  lemma ToLeftPending(w: World)
    requires HumanDropped(w)
    ensures Enabled(w, CloseDo(DoCloseMark(1))) && LeftPending(Do(w, CloseDo(DoCloseMark(1))))
  {
  }

  lemma HumanLineWaits() returns (run: seq<World>)
    ensures IsRun(run) && HumanWaits(run[|run| - 1])
  {
    run := [Init(Exec, "/")];
    ToHumanReserved(run[|run| - 1]);
    run := Extend(run, SendDo(DoReserve(0, 0, "ls", LineClass(Low, NoEffect, map[], []), Queued(0, 60, 0), true, Low)));
    ToHumanQueued(run[|run| - 1]);
    run := Extend(run, SendDo(DoQueue(0, true)));
    ToHumanLinked(run[|run| - 1]);
    run := Extend(run, SendDo(DoLink(0)));
    ToHumanRecorded(run[|run| - 1]);
    run := Extend(run, SendDo(DoRecord(0, true)));
    ToHumanWaits(run[|run| - 1]);
    run := Extend(run, SendDo(DoMark(0)));
  }

  /** The second exception: a line that waits for a human stays pending on a closed
      session when the store refuses its withdrawal. */
  lemma RefusedWithdrawalLeavesLinePending() returns (run: seq<World>)
    ensures IsRun(run)
    ensures var w := run[|run| - 1];
            w.gate.state == Closed && w.threads == map[] && StatusIs(w, 0, ReqPending)
  {
    run := HumanLineWaits();
    ToHumanClosing(run[|run| - 1]);
    run := Extend(run, CloseDo(DoClose(1, "idle")));
    ToHumanRefused(run[|run| - 1]);
    run := Extend(run, CloseDo(DoWithdraw(1, false)));
    ToHumanSeen(run[|run| - 1]);
    run := Extend(run, CloseDo(DoCloseLook(1)));
    ToHumanDropped(run[|run| - 1]);
    run := Extend(run, CloseDo(DoDrop(1)));
    ToLeftPending(run[|run| - 1]);
    run := Extend(run, CloseDo(DoCloseMark(1)));
  }
}
