/**
 The reference-counted file descriptor of a serial tab (`serialHandle`,
 `applyNowIf`, `drainWithTimeout`, terminal.go).

 Writing, draining and changing the mode each hold a use of the descriptor;
 `closePort` marks the handle closed without waiting, and whoever ends the last
 use closes the port. Every section under a lock and every call into the port is
 one step.
 */
module SerialFd {
  import opened Bytes
  import opened LineTypes

  // ----- the counter -----

  datatype Handle = Handle(closed: bool, users: int, portClosed: bool)

  function Acquired(h: Handle): (Handle, bool) {
    if h.closed then (h, false) else (h.(users := h.users + 1), true)
  }

  /** True when the caller has to close the port. */
  function Released(h: Handle): (Handle, bool) {
    var closeNow := h.closed && h.users - 1 == 0 && !h.portClosed;
    (h.(users := h.users - 1, portClosed := h.portClosed || closeNow), closeNow)
  }

  function Marked(h: Handle): (Handle, bool) {
    var closeNow := h.users == 0 && !h.portClosed;
    (h.(closed := true, portClosed := h.portClosed || closeNow), closeNow)
  }

  class SerialHandle {
    var closed: bool
    var users: int
    var portClosed: bool
    var baud: int

    ghost function View(): Handle
      reads this
    {
      Handle(closed, users, portClosed)
    }

    constructor (speed: int)
      ensures View() == Handle(false, 0, false) && baud == speed
    {
      closed, users, portClosed, baud := false, 0, false, speed;
    }

    method Acquire() returns (ok: bool)
      modifies this`users
      ensures (View(), ok) == Acquired(old(View()))
      ensures ok == !closed && users == old(users) + (if ok then 1 else 0)
    {
      if closed {
        return false;
      }
      users := users + 1;
      ok := true;
    }

    method Release() returns (closeNow: bool)
      modifies this`users, this`portClosed
      ensures (View(), closeNow) == Released(old(View()))
      ensures users == old(users) - 1 && portClosed == (old(portClosed) || closeNow)
      ensures closeNow <==> closed && users == 0 && !old(portClosed)
    {
      users := users - 1;
      closeNow := closed && users == 0 && !portClosed;
      if closeNow {
        portClosed := true;
      }
    }

    method ClosePort() returns (closeNow: bool)
      modifies this`closed, this`portClosed
      ensures (View(), closeNow) == Marked(old(View()))
      ensures closed && portClosed == (old(portClosed) || closeNow)
      ensures closeNow <==> users == 0 && !old(portClosed)
    {
      closed := true;
      closeNow := users == 0 && !portClosed;
      if closeNow {
        portClosed := true;
      }
    }

    /** About 100 ms of line time. */
    method WritePiece() returns (n: nat)
      ensures n == PieceOf(baud) && 1 <= n <= 4096
      ensures baud <= 0 ==> n == 96
      ensures 100 <= baud < 409600 ==> n == baud / 100
      ensures 0 < baud < 100 ==> n == 1
      ensures baud >= 409600 ==> n == 4096
    {
      var speed := if baud <= 0 then 9600 else baud;
      n := if speed / 100 > 4096 then 4096 else if speed / 100 < 1 then 1 else speed / 100;
    }
  }

  function PieceOf(baud: int): (n: nat)
    ensures n >= 1
  {
    var n := (if baud <= 0 then 9600 else baud) / 100;
    if n > 4096 then 4096 else if n < 1 then 1 else n
  }

  // ----- one Write call, against any answers of its surroundings -----

  /** One turn of the loop: the speed at that moment, whether the handle is open,
      and what the port answers. */
  datatype Turn = Turn(baud: int, open: bool, n: nat, failed: bool)

  datatype WriteError = NoError | PortClosedError | IoError | ShortWrite

  /** `sent` is what the port took. */
  datatype WriteResult = WriteResult(sent: seq<Byte>, err: WriteError)

  /** A call whose surroundings stop answering counts as closed. */
  function WriteOf(p: seq<Byte>, turns: seq<Turn>): WriteResult
    decreases |turns|
  {
    if p == [] then WriteResult([], NoError)
    else if turns == [] || !turns[0].open then WriteResult([], PortClosedError)
    else
      var size := Min(|p|, PieceOf(turns[0].baud));
      var n := Min(turns[0].n, size);
      if turns[0].failed then WriteResult(p[..n], IoError)
      else if n < size then WriteResult(p[..n], ShortWrite)
      else
        Prefixed(p[..n], WriteOf(p[n..], turns[1..]))
  }

  method Write(p: seq<Byte>, turns: seq<Turn>) returns (written: nat, err: WriteError, sent: seq<Byte>)
    ensures WriteResult(sent, err) == WriteOf(p, turns) && written == |sent|
  {
    var rest, ahead := p, turns;
    written, sent := 0, [];
    while rest != []
      invariant written == |sent|
      invariant WriteOf(p, turns) == Prefixed(sent, WriteOf(rest, ahead))
      decreases |ahead|
    {
      if ahead == [] || !ahead[0].open {
        return written, PortClosedError, sent;
      }
      var piece := rest[..Min(|rest|, PieceOf(ahead[0].baud))];
      var n := Min(ahead[0].n, |piece|);
      assert rest[..n] == piece[..n];
      PrefixTwice(sent, piece[..n], WriteOf(rest[n..], ahead[1..]));
      sent := sent + piece[..n];
      written := written + n;
      if ahead[0].failed {
        return written, IoError, sent;
      }
      if n < |piece| {
        return written, ShortWrite, sent;
      }
      rest, ahead := rest[n..], ahead[1..];
    }
    err := NoError;
  }

  function Prefixed(front: seq<Byte>, r: WriteResult): WriteResult {
    r.(sent := front + r.sent)
  }

  lemma PrefixTwice(a: seq<Byte>, b: seq<Byte>, r: WriteResult)
    ensures Prefixed(a, Prefixed(b, r)) == Prefixed(a + b, r)
    ensures Prefixed(a, WriteResult([], r.err)) == WriteResult(a, r.err)
  {
    assert a + (b + r.sent) == (a + b) + r.sent;
    assert a + [] == a;
  }

  /** What was sent is the beginning of the input, in order; without an error it is
      all of it, and a port that takes whole pieces gets everything it can. */
  lemma {:induction false} SentIsAPrefix(p: seq<Byte>, turns: seq<Turn>)
    ensures WriteOf(p, turns).sent <= p
    ensures WriteOf(p, turns).err == NoError ==> WriteOf(p, turns).sent == p
    ensures WriteOf(p, turns).err == ShortWrite ==> WriteOf(p, turns).sent != p
    decreases |turns|
  {
    if p != [] && turns != [] && turns[0].open {
      var size := Min(|p|, PieceOf(turns[0].baud));
      if !turns[0].failed && turns[0].n >= size {
        SentIsAPrefix(p[size..], turns[1..]);
        assert p == p[..size] + p[size..];
      }
    }
  }

  /** The bytes of `k` whole pieces. */
  function Pieces(turns: seq<Turn>, k: nat): nat
    requires k <= |turns|
  {
    if k == 0 then 0 else Pieces(turns, k - 1) + PieceOf(turns[k - 1].baud)
  }

  lemma {:induction false} PiecesBehind(turns: seq<Turn>, k: nat)
    requires 0 < k <= |turns|
    ensures Pieces(turns, k) == PieceOf(turns[0].baud) + Pieces(turns[1..], k - 1)
  {
    if k > 1 {
      PiecesBehind(turns, k - 1);
      assert turns[1..][k - 2] == turns[k - 1];
    } else {
      assert Pieces(turns, 1) == Pieces(turns, 0) + PieceOf(turns[0].baud);
    }
  }

  /** The handle is open and the port takes a whole piece. */
  predicate TakesAll(t: Turn) {
    t.open && !t.failed && t.n >= PieceOf(t.baud)
  }

  /** What the call at turn `k` returns, after `k` whole pieces of which `at` bytes went out. */
  predicate ReturnsAt(p: seq<Byte>, turns: seq<Turn>, k: nat, at: nat, r: WriteResult)
    requires k <= |turns| && at < |p|
  {
    if k == |turns| || !turns[k].open then r == WriteResult(p[..at], PortClosedError)
    else
      var size := Min(|p| - at, PieceOf(turns[k].baud));
      if turns[k].failed then r == WriteResult(p[..at + Min(turns[k].n, size)], IoError)
      else if turns[k].n < size then r == WriteResult(p[..at + turns[k].n], ShortWrite)
      else size == |p| - at ==> r == WriteResult(p, NoError)
  }

  /** Every outcome of a call: as long as the port takes whole pieces and input is left,
      the call goes on; at the first turn that ends it, it reports every byte the port took
      and the reason: no error exactly when the last piece was taken whole. */
  lemma {:induction false} WriteGoesOn(p: seq<Byte>, turns: seq<Turn>, k: nat)
    requires k <= |turns| && Pieces(turns, k) < |p| && forall i :: 0 <= i < k ==> TakesAll(turns[i])
    ensures ReturnsAt(p, turns, k, Pieces(turns, k), WriteOf(p, turns))
    decreases k
  {
    if k == 0 {
      FirstTurn(p, turns);
    } else {
      var n := PieceOf(turns[0].baud);
      PiecesBehind(turns, k);
      WriteGoesOn(p[n..], turns[1..], k - 1);
      WholePiece(p, turns);
      ReturnsLater(p, turns, n, k, Pieces(turns[1..], k - 1), WriteOf(p[n..], turns[1..]));
    }
  }

  lemma WholePiece(p: seq<Byte>, turns: seq<Turn>)
    requires turns != [] && TakesAll(turns[0]) && PieceOf(turns[0].baud) < |p|
    ensures var n := PieceOf(turns[0].baud); WriteOf(p, turns) == Prefixed(p[..n], WriteOf(p[n..], turns[1..]))
  {
  }

  lemma FirstTurn(p: seq<Byte>, turns: seq<Turn>)
    requires p != []
    ensures ReturnsAt(p, turns, 0, 0, WriteOf(p, turns))
  {
    if turns != [] && turns[0].open && !turns[0].failed {
      var size := Min(|p|, PieceOf(turns[0].baud));
      if turns[0].n >= size && size == |p| {
        assert p[..size] == p && p[size..] == [];
        PrefixTwice(p, [], WriteResult([], NoError));
      }
    }
  }

  lemma ReturnsLater(p: seq<Byte>, turns: seq<Turn>, n: nat, k: nat, at: nat, r: WriteResult)
    requires 0 < k <= |turns| && n + at < |p| && ReturnsAt(p[n..], turns[1..], k - 1, at, r)
    ensures ReturnsAt(p, turns, k, n + at, Prefixed(p[..n], r))
  {
    assert forall i :: 0 <= i <= |p| - n ==> p[..n] + p[n..][..i] == p[..n + i];
    assert p[..n] + p[n..] == p;
  }

  // ----- everybody at once -----

  /** `sent` counts the bytes of `p` that the port took; `stop` that the call is over. */
  datatype Job = WriteJob(p: seq<Byte>, sent: nat, stop: bool) | ApplyJob(drained: bool) | DrainJob | CloseJob

  datatype Stage = NeedLock | NeedUse | OnPort | EndUse | AtClose | EndLock | Finished

  datatype Pc = Pc(stage: Stage, job: Job)

  /** `port` is what the port took from each Write call, `wire` all that it took, `order`
      and `inputs` list the Write calls as they began, `closes` counts the calls that close it,
      `closer` is who was told to: these only observe. */
  datatype World = World(
    h: Handle,
    writeMu: Option<nat>,
    threads: map<nat, Pc>,
    port: map<nat, seq<Byte>>,
    wire: seq<Byte>,
    order: seq<nat>,
    inputs: seq<seq<Byte>>,
    closes: nat,
    closer: Option<nat>)

  function Init(): World {
    World(Handle(false, 0, false), None, map[], map[], [], [], [], 0, None)
  }

  datatype Step =
    | BeginWrite(t: nat, p: seq<Byte>)
    | BeginApply(t: nat)
    | CloseCall(t: nat)
    | TakeLock(t: nat)
    | Acquire(t: nat)
    | PortWrite(t: nat, limit: nat, n: nat, failed: bool)
    | StartDrain(t: nat, d: nat)
    | SetMode(t: nat)
    | Drain(t: nat)
    | Release(t: nat)
    | PortClose(t: nat)
    | Unlock(t: nat)

  predicate At(w: World, t: nat, stage: Stage) {
    t in w.threads && w.threads[t].stage == stage
  }

  predicate Enabled(w: World, s: Step) {
    match s
    case BeginWrite(t, _) => t !in w.threads && t !in w.port
    case BeginApply(t) => t !in w.threads
    case CloseCall(t) => t !in w.threads
    case TakeLock(t) => At(w, t, NeedLock) && w.writeMu == None
    case Acquire(t) => At(w, t, NeedUse)
    case PortWrite(t, limit, n, failed) =>
      && At(w, t, OnPort) && w.threads[t].job.WriteJob? && w.threads[t].job.sent <= |w.threads[t].job.p|
      && limit >= 1 && n <= Min(limit, |w.threads[t].job.p| - w.threads[t].job.sent) && t in w.port
    case StartDrain(t, d) => At(w, t, OnPort) && w.threads[t].job == ApplyJob(false) && d !in w.threads
    case SetMode(t) => At(w, t, OnPort) && w.threads[t].job == ApplyJob(true)
    case Drain(t) => At(w, t, OnPort) && w.threads[t].job == DrainJob
    case Release(t) => At(w, t, EndUse)
    case PortClose(t) => At(w, t, AtClose)
    case Unlock(t) => At(w, t, EndLock)
  }

  function Goto(w: World, t: nat, stage: Stage, job: Job): World {
    w.(threads := w.threads[t := Pc(stage, job)])
  }

  /** After its last use: a call that holds the lock gives it back, others are over. */
  function Leave(w: World, t: nat, job: Job): World {
    if job.WriteJob? || job.ApplyJob? then Goto(w, t, EndLock, job) else w.(threads := w.threads - {t})
  }

  function StepCloseCall(w: World, t: nat): World {
    var (h, closeNow) := Marked(w.h);
    if closeNow then Goto(w.(h := h, closer := Some(t)), t, AtClose, CloseJob) else w.(h := h)
  }

  function StepAcquire(w: World, t: nat): World
    requires At(w, t, NeedUse)
  {
    var job := w.threads[t].job;
    var (h, ok) := Acquired(w.h);
    if ok then Goto(w.(h := h), t, OnPort, job)
    else Goto(w, t, EndLock, if job.WriteJob? then job.(stop := true) else job)
  }

  /** The write stops at an error and at a short write. */
  function StepPortWrite(w: World, t: nat, limit: nat, n: nat, failed: bool): World
    requires Enabled(w, PortWrite(t, limit, n, failed))
  {
    var job := w.threads[t].job;
    var piece := Min(limit, |job.p| - job.sent);
    var taken := job.p[job.sent..job.sent + n];
    Goto(w.(port := w.port[t := w.port[t] + taken], wire := w.wire + taken), t, EndUse,
         job.(sent := job.sent + n, stop := failed || n < piece))
  }

  /** The drain is a goroutine with a use of its own; applyNow goes on without
      waiting for its end (the wait may run out). */
  function StepStartDrain(w: World, t: nat, d: nat): World {
    var (h, ok) := Acquired(w.h);
    var w1 := Goto(w.(h := h), t, OnPort, ApplyJob(true));
    if ok then Goto(w1, d, OnPort, DrainJob) else w1
  }

  function StepRelease(w: World, t: nat): World
    requires At(w, t, EndUse)
  {
    var (h, closeNow) := Released(w.h);
    if closeNow then Goto(w.(h := h, closer := Some(t)), t, AtClose, w.threads[t].job)
    else Leave(w.(h := h), t, w.threads[t].job)
  }

  function StepUnlock(w: World, t: nat): World
    requires At(w, t, EndLock)
  {
    var job := w.threads[t].job;
    var w1 := w.(writeMu := None);
    if !job.WriteJob? then w1.(threads := w.threads - {t})
    else if job.stop || job.sent >= |job.p| then Goto(w1, t, Finished, job)
    else Goto(w1, t, NeedLock, job)
  }

  function Do(w: World, s: Step): World
    requires Enabled(w, s)
  {
    match s
    case BeginWrite(t, p) =>
      Goto(w.(port := w.port[t := []], order := w.order + [t], inputs := w.inputs + [p]), t,
           if p == [] then Finished else NeedLock, WriteJob(p, 0, false))
    case BeginApply(t) => Goto(w, t, NeedLock, ApplyJob(false))
    case CloseCall(t) => StepCloseCall(w, t)
    case TakeLock(t) => Goto(w.(writeMu := Some(t)), t, NeedUse, w.threads[t].job)
    case Acquire(t) => StepAcquire(w, t)
    case PortWrite(t, limit, n, failed) => StepPortWrite(w, t, limit, n, failed)
    case StartDrain(t, d) => StepStartDrain(w, t, d)
    case SetMode(t) => Goto(w, t, EndUse, w.threads[t].job)
    case Drain(t) => Goto(w, t, EndUse, DrainJob)
    case Release(t) => StepRelease(w, t)
    case PortClose(t) => Leave(w.(closes := w.closes + 1), t, w.threads[t].job)
    case Unlock(t) => StepUnlock(w, t)
  }

  ghost predicate CanStep(w: World, w': World) {
    exists s :: Enabled(w, s) && w' == Do(w, s)
  }

  ghost predicate StepAt(run: seq<World>, i: nat)
    requires 0 < i < |run|
  {
    CanStep(run[i - 1], run[i])
  }

  ghost predicate IsRun(run: seq<World>) {
    && |run| > 0
    && run[0] == Init()
    && (forall i :: 0 < i < |run| ==> StepAt(run, i))
  }

  // ----- the invariant -----

  predicate HasUse(pc: Pc) {
    pc.stage == OnPort || pc.stage == EndUse
  }

  predicate InLock(pc: Pc) {
    (pc.job.WriteJob? || pc.job.ApplyJob?) && pc.stage != NeedLock && pc.stage != Finished
  }

  /** The threads with a use of the descriptor. */
  function Users(w: World): set<nat> {
    set t | t in w.threads && HasUse(w.threads[t])
  }

  predicate HandleOk(w: World) {
    && w.h.users == |Users(w)|
    && (w.h.portClosed <==> w.h.closed && Users(w) == {})
    && (w.h.portClosed <==> w.closer.Some?)
    && w.closes <= 1
    && (w.closes == 1 ==> w.closer.Some?)
    && (w.closes == 0 && w.closer.Some? ==> At(w, w.closer.value, AtClose))
  }

  predicate JobOk(w: World, t: nat, pc: Pc) {
    && (pc.stage == AtClose ==> w.closer == Some(t) && w.closes == 0)
    && (InLock(pc) ==> w.writeMu == Some(t))
    && (pc.job.WriteJob? ==>
          && t in w.port && pc.job.sent <= |pc.job.p| && w.port[t] == pc.job.p[..pc.job.sent]
          && (pc.stage == Finished ==> pc.job.stop || pc.job.sent == |pc.job.p|))
    && (pc.job.DrainJob? ==> pc.stage == OnPort || pc.stage == EndUse || pc.stage == AtClose)
    && (pc.job.CloseJob? ==> pc.stage == AtClose)
  }

  ghost predicate Inv(w: World) {
    HandleOk(w) && (forall t :: t in w.threads ==> JobOk(w, t, w.threads[t]))
  }

  /** Only thread `t` and possibly the new thread `d` change. */
  lemma UsersChange(w: World, w': World, t: nat)
    requires forall u :: u != t ==> (u in w.threads <==> u in w'.threads)
    requires forall u :: u != t && u in w.threads ==> w'.threads[u] == w.threads[u]
    ensures var before, after := t in w.threads && HasUse(w.threads[t]), t in w'.threads && HasUse(w'.threads[t]);
            && Users(w') == (if after then Users(w) + {t} else Users(w) - {t})
            && (before <==> t in Users(w))
            && |Users(w')| == |Users(w)| + (if after then 1 else 0) - (if before then 1 else 0)
  {
    var after := t in w'.threads && HasUse(w'.threads[t]);
    forall u ensures u in Users(w') <==> u in (if after then Users(w) + {t} else Users(w) - {t}) {
    }
    assert Users(w') == if after then Users(w) + {t} else Users(w) - {t};
  }

  lemma JobsKept(w: World, w': World, t: nat)
    requires forall u :: u in w.threads ==> JobOk(w, u, w.threads[u])
    requires forall u :: u in w'.threads && u != t ==> u in w.threads && w'.threads[u] == w.threads[u]
    requires forall u :: u in w.port && u != t ==> u in w'.port && w'.port[u] == w.port[u]
    requires w'.closer == w.closer || (w.closer.None? && w.closes == 0)
    requires w'.closes == w.closes || At(w, t, AtClose)
    requires w'.writeMu == w.writeMu || w.writeMu == None || w.writeMu == Some(t)
    requires t in w'.threads ==> JobOk(w', t, w'.threads[t])
    ensures forall u :: u in w'.threads ==> JobOk(w', u, w'.threads[u])
  {
    forall u | u in w'.threads ensures JobOk(w', u, w'.threads[u]) {
      if u != t {
        assert JobOk(w, u, w.threads[u]);
        assert At(w, t, AtClose) ==> JobOk(w, t, w.threads[t]);
      }
    }
  }

  lemma BeginWriteInv(w: World, t: nat, p: seq<Byte>)
    requires Inv(w) && Enabled(w, BeginWrite(t, p))
    ensures Inv(Do(w, BeginWrite(t, p)))
  {
    var w' := Do(w, BeginWrite(t, p));
    UsersChange(w, w', t);
    JobsKept(w, w', t);
  }

  lemma CloseCallHandle(w: World, t: nat)
    requires Inv(w) && t !in w.threads
    ensures HandleOk(StepCloseCall(w, t))
  {
    UsersChange(w, StepCloseCall(w, t), t);
  }

  lemma CloseCallInv(w: World, t: nat)
    requires Inv(w) && t !in w.threads
    ensures Inv(StepCloseCall(w, t))
  {
    CloseCallHandle(w, t);
    JobsKept(w, StepCloseCall(w, t), t);
  }

  /** The thread moves on and keeps its use, or its lack of one. */
  lemma MoveInv(w: World, w': World, t: nat, pc: Pc)
    requires Inv(w) && w' == w.(threads := w.threads[t := pc], writeMu := w'.writeMu)
    requires w'.writeMu == w.writeMu || w.writeMu == None || w.writeMu == Some(t)
    requires HasUse(pc) <==> t in w.threads && HasUse(w.threads[t])
    requires t in w.threads ==> w.threads[t].stage != AtClose
    requires JobOk(w', t, pc)
    ensures Inv(w')
  {
    UsersChange(w, w', t);
    JobsKept(w, w', t);
  }

  lemma AcquireHandle(w: World, t: nat)
    requires Inv(w) && At(w, t, NeedUse)
    ensures HandleOk(StepAcquire(w, t))
  {
    UsersChange(w, StepAcquire(w, t), t);
    assert JobOk(w, t, w.threads[t]);
  }

  lemma AcquireInv(w: World, t: nat)
    requires Inv(w) && At(w, t, NeedUse)
    ensures Inv(StepAcquire(w, t))
  {
    AcquireHandle(w, t);
    assert JobOk(w, t, w.threads[t]);
    JobsKept(w, StepAcquire(w, t), t);
  }

  lemma PortWriteInv(w: World, t: nat, limit: nat, n: nat, failed: bool)
    requires Inv(w) && Enabled(w, PortWrite(t, limit, n, failed))
    ensures Inv(StepPortWrite(w, t, limit, n, failed))
  {
    var w', job := StepPortWrite(w, t, limit, n, failed), w.threads[t].job;
    UsersChange(w, w', t);
    assert JobOk(w, t, w.threads[t]);
    assert job.p[..job.sent] + job.p[job.sent..job.sent + n] == job.p[..job.sent + n];
    JobsKept(w, w', t);
  }

  lemma StartDrainInv(w: World, t: nat, d: nat)
    requires Inv(w) && Enabled(w, StartDrain(t, d))
    ensures Inv(StepStartDrain(w, t, d))
  {
    assert JobOk(w, t, w.threads[t]);
    var w1 := Goto(w, t, OnPort, ApplyJob(true));
    MoveInv(w, w1, t, Pc(OnPort, ApplyJob(true)));
    if !w.h.closed {
      var w' := StepStartDrain(w, t, d);
      UsersChange(w1, w', d);
      JobsKept(w1, w', d);
    }
  }

  lemma ReleaseHandle(w: World, t: nat)
    requires Inv(w) && At(w, t, EndUse)
    ensures HandleOk(StepRelease(w, t))
  {
    var w' := StepRelease(w, t);
    UsersChange(w, w', t);
    assert JobOk(w, t, w.threads[t]);
    assert |Users(w')| == 0 ==> Users(w') == {};
  }

  lemma ReleaseInv(w: World, t: nat)
    requires Inv(w) && At(w, t, EndUse)
    ensures Inv(StepRelease(w, t))
  {
    ReleaseHandle(w, t);
    assert JobOk(w, t, w.threads[t]);
    assert t in Users(w);
    JobsKept(w, StepRelease(w, t), t);
  }

  lemma PortCloseInv(w: World, t: nat)
    requires Inv(w) && At(w, t, AtClose)
    ensures Inv(Do(w, PortClose(t)))
  {
    var w' := Do(w, PortClose(t));
    UsersChange(w, w', t);
    assert JobOk(w, t, w.threads[t]);
    JobsKept(w, w', t);
  }

  lemma UnlockInv(w: World, t: nat)
    requires Inv(w) && At(w, t, EndLock)
    ensures Inv(StepUnlock(w, t))
  {
    assert JobOk(w, t, w.threads[t]);
    if w.threads[t].job.WriteJob? {
      MoveInv(w, StepUnlock(w, t), t, StepUnlock(w, t).threads[t]);
    } else {
      LastUnlockInv(w, t);
    }
  }

  lemma LastUnlockInv(w: World, t: nat)
    requires Inv(w) && At(w, t, EndLock) && !w.threads[t].job.WriteJob? && w.writeMu == Some(t)
    ensures Inv(StepUnlock(w, t))
  {
    var w' := StepUnlock(w, t);
    UsersChange(w, w', t);
    JobsKept(w, w', t);
  }

  lemma MovesInv(w: World, s: Step)
    requires Inv(w) && Enabled(w, s) && (s.BeginApply? || s.TakeLock? || s.SetMode? || s.Drain?)
    ensures Inv(Do(w, s))
  {
    assert s.t in w.threads ==> JobOk(w, s.t, w.threads[s.t]);
    MoveInv(w, Do(w, s), s.t, Do(w, s).threads[s.t]);
  }

  lemma StepInv(w: World, s: Step)
    requires Inv(w) && Enabled(w, s)
    ensures Inv(Do(w, s))
  {
    if s.BeginApply? || s.TakeLock? || s.SetMode? || s.Drain? {
      MovesInv(w, s);
    } else {
      match s
      case BeginWrite(t, p) => BeginWriteInv(w, t, p);
      case CloseCall(t) => CloseCallInv(w, t);
      case Acquire(t) => AcquireInv(w, t);
      case PortWrite(t, limit, n, failed) => PortWriteInv(w, t, limit, n, failed);
      case StartDrain(t, d) => StartDrainInv(w, t, d);
      case Release(t) => ReleaseInv(w, t);
      case PortClose(t) => PortCloseInv(w, t);
      case Unlock(t) => UnlockInv(w, t);
    }
  }

  lemma {:induction false} RunInv(run: seq<World>, i: nat)
    requires IsRun(run) && i < |run|
    ensures Inv(run[i])
  {
    if i > 0 {
      RunInv(run, i - 1);
      assert StepAt(run, i);
      var s :| Enabled(run[i - 1], s) && run[i] == Do(run[i - 1], s);
      StepInv(run[i - 1], s);
    }
  }

  // ----- the theorems -----

  /** A call of closePort marks the handle at once, whatever else is going on, and leaves
      the uses alone; it goes on to close the port exactly when nobody uses it. */
  lemma CloseCallMarks(w: World, t: nat)
    requires Inv(w) && Enabled(w, CloseCall(t))
    ensures var w' := Do(w, CloseCall(t));
            && w'.h.closed && w'.h.users == w.h.users && Users(w') == Users(w)
            && (At(w', t, AtClose) <==> Users(w) == {} && !w.h.closed)
  {
    UsersChange(w, StepCloseCall(w, t), t);
  }

  lemma StepAfterClose(w: World, s: Step)
    requires Enabled(w, s) && w.h.closed
    ensures Do(w, s).h.closed && Users(Do(w, s)) <= Users(w)
  {
  }

  /** Once the handle is marked closed it stays so, and no use starts any more: the
      uses at any later moment are among those that were there. */
  lemma {:induction false} NoUseStartsAfterClose(run: seq<World>, i: nat, j: nat)
    requires IsRun(run) && i <= j < |run| && run[i].h.closed
    ensures run[j].h.closed && Users(run[j]) <= Users(run[i])
    decreases j
  {
    if i < j {
      NoUseStartsAfterClose(run, i, j - 1);
      assert StepAt(run, j);
      var s :| Enabled(run[j - 1], s) && run[j] == Do(run[j - 1], s);
      StepAfterClose(run[j - 1], s);
    }
  }

  /** The port is closed at most once, only when the handle is closed and nobody
      uses the descriptor, and as soon as that is so somebody is closing it: the
      last user, or the call of closePort that found no user. */
  lemma ClosedOnceAndByTheLastUse(run: seq<World>, i: nat)
    requires IsRun(run) && i < |run|
    ensures var w := run[i];
            && w.closes <= 1
            && (w.closes == 1 ==> w.h.closed && Users(w) == {})
            && (w.h.closed && Users(w) == {} ==> w.closes == 1 || exists t :: At(w, t, AtClose))
            && (forall t, u :: At(w, t, AtClose) && At(w, u, AtClose) ==> t == u && w.closes == 0)
  {
    RunInv(run, i);
    var w := run[i];
    if w.h.closed && Users(w) == {} && w.closes == 0 {
      assert At(w, w.closer.value, AtClose);
    }
    forall t, u | At(w, t, AtClose) && At(w, u, AtClose) ensures t == u && w.closes == 0 {
      assert JobOk(w, t, w.threads[t]) && JobOk(w, u, w.threads[u]);
    }
  }

  /** No operation on the descriptor runs on a closed port. */
  lemma NoOperationOnAClosedPort(run: seq<World>, i: nat, t: nat)
    requires IsRun(run) && i < |run| && At(run[i], t, OnPort)
    ensures run[i].closes == 0 && !run[i].h.portClosed
  {
    RunInv(run, i);
    assert t in Users(run[i]);
  }

  /** A piece of input and a change of the mode never overlap. */
  lemma WriteAndSetModeNeverOverlap(run: seq<World>, i: nat, t: nat, u: nat)
    requires IsRun(run) && i < |run| && t in run[i].threads && u in run[i].threads
    requires InLock(run[i].threads[t]) && InLock(run[i].threads[u])
    ensures t == u
  {
    RunInv(run, i);
    assert JobOk(run[i], t, run[i].threads[t]) && JobOk(run[i], u, run[i].threads[u]);
  }

  /** At any moment the port took a prefix of a call's input, in order; a call that
      ended without an error had all of it taken. */
  lemma BytesArriveInOrder(run: seq<World>, i: nat, t: nat)
    requires IsRun(run) && i < |run| && t in run[i].threads && run[i].threads[t].job.WriteJob?
    ensures t in run[i].port
    ensures var pc, port := run[i].threads[t], run[i].port[t];
            && pc.job.sent <= |pc.job.p| && port == pc.job.p[..pc.job.sent]
            && (pc.stage == Finished && !pc.job.stop ==> port == pc.job.p)
  {
    RunInv(run, i);
    assert JobOk(run[i], t, run[i].threads[t]);
  }
}
