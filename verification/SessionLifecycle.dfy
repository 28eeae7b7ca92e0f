/**
 Opening and closing one AI session (`aiSessionManager.open`, `aiSession.close`,
 `aiSessionManager.retire`, ai_session.go).

 The opener dials, stores the session's row and publishes the transport; any
 number of callers may ask for a close at any moment, also while the opener is
 still dialing, and the closer waits for the opener only for a limited time.
 Each section under the session's lock and each call that others can observe is
 one step. A run is any interleaving of the steps.
 */
module SessionLifecycle {
  import L = LineTypes

  datatype State = Opening | Idle | Closing | Closed

  const OPEN_FAILED := "open_failed"

  function Rank(s: State): nat {
    match s
    case Opening => 0
    case Idle => 1
    case Closing => 2
    case Closed => 3
  }

  // ----- the fields under the session's lock -----

  /** `transport` says that the session has its transport. */
  datatype Session = Session(state: State, reason: L.Option<string>, transport: bool, rowInserted: bool, closeRecorded: bool)

  predicate Ending(s: Session) {
    s.state == Closing || s.state == Closed
  }

  /** The close is over and nobody has recorded it. */
  predicate Late(s: Session) {
    s.state == Closed && !s.closeRecorded
  }

  function Inserted(s: Session): Session {
    s.(rowInserted := true, closeRecorded := s.closeRecorded || Late(s))
  }

  function Settled(s: Session, dialed: bool): Session {
    if dialed && !Ending(s) then s.(transport := true, state := Idle) else s
  }

  function CloseBegun(s: Session, reason: string): Session {
    s.(state := Closing, reason := L.Some(reason))
  }

  predicate Records(s: Session) {
    s.rowInserted && !s.closeRecorded
  }

  function CloseEnded(s: Session): Session {
    s.(state := Closed, closeRecorded := s.closeRecorded || Records(s))
  }

  function OpenFailed(s: Session): Session {
    s.(state := Closed, reason := L.Some(OPEN_FAILED))
  }

  class SessionObject {
    var state: State
    var closeReason: L.Option<string>
    var transport: bool
    var rowInserted: bool
    var closeRecorded: bool

    ghost function View(): Session
      reads this
    {
      Session(state, closeReason, transport, rowInserted, closeRecorded)
    }

    constructor ()
      ensures View() == Session(Opening, L.None, false, false, false)
    {
      state, closeReason, transport, rowInserted, closeRecorded := Opening, L.None, false, false, false;
    }

    /** open, after the row was stored: true when the opener has to record the close. */
    method MarkInserted() returns (late: bool)
      modifies this
      ensures View() == Inserted(old(View()))
      ensures late <==> Late(old(View()))
      ensures late <==> state == Closed && !old(closeRecorded)
      ensures rowInserted && closeRecorded == (old(closeRecorded) || late)
      ensures state == old(state) && transport == old(transport) && closeReason == old(closeReason)
    {
      rowInserted := true;
      late := state == Closed && !closeRecorded;
      if late {
        closeRecorded := true;
      }
    }

    /** open, after dialing: true when a close came first, so that the opener
        keeps the transport and has to close it. */
    method Settle(dialed: bool) returns (closing: bool)
      modifies this
      ensures View() == Settled(old(View()), dialed)
      ensures closing <==> Ending(old(View()))
      ensures closing <==> old(state) == Closing || old(state) == Closed
      ensures dialed && !closing ==> transport && state == Idle
      ensures !dialed || closing ==> transport == old(transport) && state == old(state)
      ensures closeReason == old(closeReason) && rowInserted == old(rowInserted) && closeRecorded == old(closeRecorded)
    {
      closing := state == Closing || state == Closed;
      if dialed && !closing {
        transport := true;
        state := Idle;
      }
    }

    method BeginClose(reason: string)
      modifies this
      ensures View() == CloseBegun(old(View()), reason)
      ensures View() == old(View()).(state := Closing, reason := L.Some(reason))
    {
      state := Closing;
      closeReason := L.Some(reason);
    }

    /** close, step 4: true when the closer has to record the close. */
    method EndClose() returns (record: bool)
      modifies this
      ensures View() == CloseEnded(old(View()))
      ensures record <==> Records(old(View()))
      ensures record <==> rowInserted && !old(closeRecorded)
      ensures state == Closed && closeRecorded == (old(closeRecorded) || record)
      ensures rowInserted == old(rowInserted) && transport == old(transport) && closeReason == old(closeReason)
    {
      state := Closed;
      record := rowInserted && !closeRecorded;
      if record {
        closeRecorded := true;
      }
    }

    method Fail()
      modifies this
      ensures View() == OpenFailed(old(View()))
      ensures View() == old(View()).(state := Closed, reason := L.Some("open_failed"))
    {
      state, closeReason := Closed, L.Some(OPEN_FAILED);
    }
  }

  // ----- the race -----

  datatype OpenPc =
    | Dialing
    | Dialed
    | RowStored
    | LateRecord
    | RowRefused
    | Settling(ok: bool)
    | Disowned
    | Signalling(ok: bool)
    | Cleaning
    | CleanRegistry
    | CleanState
    | OpenEnded

  datatype ClosePc =
    | NoClose
    | CloseStart(reason: string)
    | CloseWait
    | CloseTransport(tr: bool)
    | ClosePersist
    | CloseRecord
    | CloseRetire
    | CloseEndedPc

  /** Who runs the body that runs once. */
  datatype Once = Free | TakenByOpener | TakenByCloser

  /** `dialed`, `row` (the row is stored), `acked` (and the opener was told so), the
      counts of transport closes, `recorded` (the reasons of the calls of onClose) and
      `winner` only observe the run. */
  datatype World = World(
    s: Session,
    opener: OpenPc,
    closer: ClosePc,
    once: Once,
    onceDone: bool,
    openDone: bool,
    live: bool,
    tombstone: bool,
    dialed: bool,
    row: bool,
    acked: bool,
    openerCloses: nat,
    closerCloses: nat,
    recorded: seq<string>,
    winner: L.Option<string>)

  /** Steps of the opener up to the transport's hand-over, ... */
  datatype DialStep = Dial(ok: bool) | NoStore | StoreRow(told: bool, kept: bool) | CloseRefused | MarkRow | RecordLate

  /** ... from there on, ... */
  datatype HandStep = Settle | CloseDisowned | Signal | TryOnce | DropLive | FailSession

  /** ... and of the callers of close. */
  datatype CloseStep =
    | CallClose(reason: string)
    | BeginClose
    | EndWait
    | EndTransport
    | Persist
    | RecordClose
    | Retire

  datatype Step = DialDo(dial: DialStep) | HandDo(hand: HandStep) | CloseDo(close: CloseStep)

  function Init(): World {
    World(Session(Opening, L.None, false, false, false), Dialing, NoClose, Free, false, false, true, false,
          false, false, false, 0, 0, [], L.None)
  }

  predicate DialEnabled(w: World, s: DialStep) {
    match s
    case Dial(_) => w.opener == Dialing
    case NoStore => w.opener == Dialed
    case StoreRow(told, kept) => w.opener == Dialed && (told ==> kept)
    case CloseRefused => w.opener == RowRefused
    case MarkRow => w.opener == RowStored
    case RecordLate => w.opener == LateRecord && w.s.reason.Some?
  }

  function DialStepped(w: World, s: DialStep): World
    requires DialEnabled(w, s)
  {
    match s
    case Dial(ok) => w.(opener := if ok then Dialed else Settling(false), dialed := ok)
    case NoStore => w.(opener := Settling(true))
    case StoreRow(told, kept) => w.(opener := if told then RowStored else RowRefused, row := kept, acked := told)
    case CloseRefused => w.(opener := Settling(false), openerCloses := w.openerCloses + 1)
    case MarkRow => w.(s := Inserted(w.s), opener := if Late(w.s) then LateRecord else Settling(true))
    case RecordLate => w.(opener := Settling(true), recorded := w.recorded + [w.s.reason.value])
  }

  /** The opener that failed waits for a close under way before it cleans up. */
  predicate HandEnabled(w: World, s: HandStep) {
    match s
    case Settle => w.opener.Settling?
    case CloseDisowned => w.opener == Disowned
    case Signal => w.opener.Signalling?
    case TryOnce => w.opener == Cleaning && (w.once == Free || w.onceDone)
    case DropLive => w.opener == CleanRegistry
    case FailSession => w.opener == CleanState
  }

  function HandStepped(w: World, s: HandStep): World
    requires HandEnabled(w, s)
  {
    match s
    case Settle =>
      var ok := w.opener.ok;
      w.(s := Settled(w.s, ok), opener := if ok && Ending(w.s) then Disowned else Signalling(ok))
    case CloseDisowned => w.(opener := Signalling(true), openerCloses := w.openerCloses + 1)
    case Signal => w.(openDone := true, opener := if w.opener.ok then OpenEnded else Cleaning)
    case TryOnce =>
      if w.once == Free then w.(once := TakenByOpener, opener := CleanRegistry, winner := L.Some(OPEN_FAILED))
      else w.(opener := OpenEnded)
    case DropLive => w.(live := false, opener := CleanState)
    case FailSession => w.(s := OpenFailed(w.s), onceDone := true, opener := OpenEnded)
  }

  /** `CallClose` is a call that finds the close not yet begun; any other call
      waits for the one under way and changes nothing. */
  predicate CloseEnabled(w: World, s: CloseStep) {
    match s
    case CallClose(_) => w.once == Free
    case BeginClose => w.closer.CloseStart?
    case EndWait => w.closer == CloseWait
    case EndTransport => w.closer.CloseTransport?
    case Persist => w.closer == ClosePersist
    case RecordClose => w.closer == CloseRecord && w.s.reason.Some?
    case Retire => w.closer == CloseRetire
  }

  /** `EndWait` needs no `openDone`: the wait may also run out. */
  function CloseStepped(w: World, s: CloseStep): World
    requires CloseEnabled(w, s)
  {
    match s
    case CallClose(reason) => w.(once := TakenByCloser, closer := CloseStart(reason), winner := L.Some(reason))
    case BeginClose => w.(s := CloseBegun(w.s, w.closer.reason), closer := CloseWait)
    case EndWait => w.(closer := CloseTransport(w.s.transport))
    case EndTransport =>
      w.(closer := ClosePersist, closerCloses := w.closerCloses + if w.closer.tr then 1 else 0)
    case Persist => w.(s := CloseEnded(w.s), closer := if Records(w.s) then CloseRecord else CloseRetire)
    case RecordClose => w.(closer := CloseRetire, recorded := w.recorded + [w.s.reason.value])
    case Retire => w.(live := false, tombstone := true, onceDone := true, closer := CloseEndedPc)
  }

  predicate Enabled(w: World, s: Step) {
    match s
    case DialDo(d) => DialEnabled(w, d)
    case HandDo(h) => HandEnabled(w, h)
    case CloseDo(c) => CloseEnabled(w, c)
  }

  function Do(w: World, s: Step): World
    requires Enabled(w, s)
  {
    match s
    case DialDo(d) => DialStepped(w, d)
    case HandDo(h) => HandStepped(w, h)
    case CloseDo(c) => CloseStepped(w, c)
  }

  ghost predicate CanStep(w: World, w': World) {
    exists s :: Enabled(w, s) && w' == Do(w, s)
  }

  ghost predicate IsRun(run: seq<World>) {
    && |run| > 0
    && run[0] == Init()
    && (forall i :: 0 < i < |run| ==> StepAt(run, i))
  }

  ghost predicate StepAt(run: seq<World>, i: nat)
    requires 0 < i < |run|
  {
    CanStep(run[i - 1], run[i])
  }

  // ----- the invariant -----

  /** The opener holds the transport and has not given it to the session. */
  predicate OpenerOwns(pc: OpenPc) {
    pc == Dialed || pc == RowStored || pc == LateRecord || pc == RowRefused || pc == Settling(true) || pc == Disowned
  }

  predicate OpenLost(pc: OpenPc) {
    pc == Settling(false) || pc == Signalling(false) || pc == Cleaning || pc == CleanRegistry || pc == CleanState
  }

  /** Who owns the transport, and how often it was closed. */
  predicate TransportOk(w: World) {
    && (w.opener == Dialing ==> !w.dialed && !w.s.transport && w.openerCloses == 0 && w.s.state != Idle)
    && (OpenerOwns(w.opener) ==> w.dialed && !w.s.transport && w.openerCloses == 0 && w.s.state != Idle)
    && (OpenLost(w.opener) ==> !w.s.transport && w.openerCloses == (if w.dialed then 1 else 0) && w.s.state != Idle)
    && (w.opener == Disowned ==> Ending(w.s))
    && (w.opener == Signalling(true) ==> w.dialed)
    && (w.opener == Signalling(true) || w.opener == OpenEnded ==>
          && w.s.state != Opening
          && w.openerCloses == (if w.dialed && !w.s.transport then 1 else 0)
          && (w.s.transport ==> w.dialed))
    && w.closerCloses == (if w.s.transport && (w.closer == ClosePersist || w.closer == CloseRecord
                                               || w.closer == CloseRetire || w.closer == CloseEndedPc) then 1 else 0)
    && (w.closer.CloseTransport? ==> w.closer.tr == w.s.transport)
  }

  /** State, reason and the owner of the close agree. */
  predicate OnceOk(w: World) {
    && (w.once == Free ==> w.closer == NoClose && !w.onceDone && !Ending(w.s) && w.winner.None?)
    && (w.once == TakenByOpener ==>
          && w.closer == NoClose && !w.tombstone && !w.s.transport
          && w.winner == L.Some(OPEN_FAILED)
          && (if w.onceDone then w.opener == OpenEnded && w.s.state == Closed && !w.live
              else (w.opener == CleanRegistry || w.opener == CleanState) && w.s.state == Opening))
    && (w.opener == CleanRegistry || w.opener == CleanState ==> w.once == TakenByOpener)
    && (w.opener == CleanState ==> !w.live)
    && (w.once == TakenByCloser ==>
          && w.winner.Some? && w.closer != NoClose
          && (w.closer.CloseStart? ==> w.winner == L.Some(w.closer.reason) && !Ending(w.s))
          && (w.closer == CloseWait || w.closer.CloseTransport? || w.closer == ClosePersist ==> w.s.state == Closing)
          && (w.closer == CloseRecord || w.closer == CloseRetire || w.closer == CloseEndedPc ==> w.s.state == Closed)
          && (w.onceDone <==> w.closer == CloseEndedPc) && (w.onceDone ==> !w.live && w.tombstone))
    && (w.s.reason == if Ending(w.s) then w.winner else L.None)
    && (!w.onceDone ==> (w.live || w.opener == CleanState) && !w.tombstone)
  }

  predicate BeforeRow(pc: OpenPc) {
    pc == Dialing || pc == Dialed || pc == RowRefused
  }

  /** The close is recorded once, by the opener or by the closer. */
  predicate RecordOk(w: World) {
    && (w.s.rowInserted ==> w.acked)
    && (w.acked ==> w.row)
    && (w.acked && !w.s.rowInserted ==> w.opener == RowStored)
    && (w.opener == RowStored ==> w.acked && !w.s.rowInserted)
    && (BeforeRow(w.opener) || OpenLost(w.opener) || w.once == TakenByOpener ==> !w.acked)
    && (w.opener == Dialing || w.opener == Dialed ==> !w.row)
    && (w.opener == LateRecord ==> w.closer != CloseRecord)
    && w.recorded == (if w.s.closeRecorded && w.opener != LateRecord && w.closer != CloseRecord && w.winner.Some?
                      then [w.winner.value] else [])
    && (w.opener == LateRecord || w.closer == CloseRecord ==> w.s.closeRecorded)
    && (w.s.closeRecorded <==> w.s.rowInserted && w.s.state == Closed)
  }

  predicate Inv(w: World) {
    TransportOk(w) && OnceOk(w) && RecordOk(w)
  }

  // ----- what one step keeps -----

  function OpenerWork(pc: OpenPc): nat {
    match pc
    case Dialing => 11
    case Dialed => 10
    case RowStored => 9
    case LateRecord => 8
    case RowRefused => 8
    case Settling(_) => 7
    case Disowned => 6
    case Signalling(_) => 5
    case Cleaning => 4
    case CleanRegistry => 3
    case CleanState => 2
    case OpenEnded => 0
  }

  function CloserWork(pc: ClosePc): nat {
    match pc
    case NoClose => 7
    case CloseStart(_) => 6
    case CloseWait => 5
    case CloseTransport(_) => 4
    case ClosePersist => 3
    case CloseRecord => 2
    case CloseRetire => 1
    case CloseEndedPc => 0
  }

  /** Steps that opener and closer can still take together. */
  function Work(w: World): nat {
    OpenerWork(w.opener) + CloserWork(w.closer)
  }

  /** Nothing is taken back, and the work left shrinks. */
  predicate Forward(w: World, w': World) {
    && Rank(w.s.state) <= Rank(w'.s.state)
    && (w.s.reason.Some? ==> w'.s.reason == w.s.reason)
    && (w.s.transport ==> w'.s.transport)
    && (w.row ==> w'.row)
    && (w'.recorded == w.recorded || (w.recorded == [] && |w'.recorded| == 1))
    && (w'.s.state == Idle ==> w.s.state == Idle || w'.s.transport)
    && Work(w') < Work(w)
  }

  lemma DialTransportOk(w: World, s: DialStep)
    requires Inv(w) && DialEnabled(w, s)
    ensures TransportOk(DialStepped(w, s))
  {
  }

  lemma DialOnceOk(w: World, s: DialStep)
    requires Inv(w) && DialEnabled(w, s)
    ensures OnceOk(DialStepped(w, s))
  {
  }

  lemma DialRecordOk(w: World, s: DialStep)
    requires Inv(w) && DialEnabled(w, s)
    ensures RecordOk(DialStepped(w, s))
  {
  }

  lemma DialForward(w: World, s: DialStep)
    requires Inv(w) && DialEnabled(w, s)
    ensures Forward(w, DialStepped(w, s))
  {
  }

  lemma HandTransportOk(w: World, s: HandStep)
    requires Inv(w) && HandEnabled(w, s)
    ensures TransportOk(HandStepped(w, s))
  {
  }

  lemma HandOnceOk(w: World, s: HandStep)
    requires Inv(w) && HandEnabled(w, s)
    ensures OnceOk(HandStepped(w, s))
  {
  }

  lemma HandRecordOk(w: World, s: HandStep)
    requires Inv(w) && HandEnabled(w, s)
    ensures RecordOk(HandStepped(w, s))
  {
  }

  lemma HandForward(w: World, s: HandStep)
    requires Inv(w) && HandEnabled(w, s)
    ensures Forward(w, HandStepped(w, s))
  {
  }

  lemma CloseTransportOk(w: World, s: CloseStep)
    requires Inv(w) && CloseEnabled(w, s)
    ensures TransportOk(CloseStepped(w, s))
  {
  }

  lemma CloseOnceOk(w: World, s: CloseStep)
    requires Inv(w) && CloseEnabled(w, s)
    ensures OnceOk(CloseStepped(w, s))
  {
  }

  lemma CloseRecordOk(w: World, s: CloseStep)
    requires Inv(w) && CloseEnabled(w, s)
    ensures RecordOk(CloseStepped(w, s))
  {
  }

  lemma CloseForward(w: World, s: CloseStep)
    requires Inv(w) && CloseEnabled(w, s)
    ensures Forward(w, CloseStepped(w, s))
  {
  }

  lemma DialKeeps(w: World, s: DialStep)
    requires Inv(w) && DialEnabled(w, s)
    ensures Inv(DialStepped(w, s)) && Forward(w, DialStepped(w, s))
  {
    DialTransportOk(w, s);
    DialOnceOk(w, s);
    DialRecordOk(w, s);
    DialForward(w, s);
  }

  lemma HandKeeps(w: World, s: HandStep)
    requires Inv(w) && HandEnabled(w, s)
    ensures Inv(HandStepped(w, s)) && Forward(w, HandStepped(w, s))
  {
    HandTransportOk(w, s);
    HandOnceOk(w, s);
    HandRecordOk(w, s);
    HandForward(w, s);
  }

  lemma CloseKeeps(w: World, s: CloseStep)
    requires Inv(w) && CloseEnabled(w, s)
    ensures Inv(CloseStepped(w, s)) && Forward(w, CloseStepped(w, s))
  {
    CloseTransportOk(w, s);
    CloseOnceOk(w, s);
    CloseRecordOk(w, s);
    CloseForward(w, s);
  }

  lemma StepInv(w: World, w': World)
    requires Inv(w) && CanStep(w, w')
    ensures Inv(w') && Forward(w, w')
  {
    var s :| Enabled(w, s) && w' == Do(w, s);
    match s
    case DialDo(d) => DialKeeps(w, d);
    case HandDo(h) => HandKeeps(w, h);
    case CloseDo(c) => CloseKeeps(w, c);
  }

  lemma {:induction false} RunInv(run: seq<World>, i: nat)
    requires IsRun(run) && i < |run|
    ensures Inv(run[i])
  {
    if i > 0 {
      RunInv(run, i - 1);
      assert StepAt(run, i);
      StepInv(run[i - 1], run[i]);
    }
  }

  // ----- what every run keeps -----

  /** The state only moves forward; a reason, a transport, a row and a recorded
      close stay once they are there. */
  predicate NothingTakenBack(w: World, w': World) {
    && Rank(w.s.state) <= Rank(w'.s.state)
    && (w.s.reason.Some? ==> w'.s.reason == w.s.reason)
    && (w.s.transport ==> w'.s.transport)
    && (w.row ==> w'.row)
    && (w.recorded == [] || w'.recorded == w.recorded)
  }

  lemma TakenBackTransitive(a: World, b: World, c: World)
    requires NothingTakenBack(a, b) && NothingTakenBack(b, c)
    ensures NothingTakenBack(a, c)
  {
  }

  lemma {:induction false} StateOnlyMovesForward(run: seq<World>, i: nat, j: nat)
    requires IsRun(run) && i <= j < |run|
    ensures NothingTakenBack(run[i], run[j])
    decreases j
  {
    if i < j {
      StateOnlyMovesForward(run, i, j - 1);
      OneStepForward(run, j);
      TakenBackTransitive(run[i], run[j - 1], run[j]);
    }
  }

  lemma OneStepForward(run: seq<World>, j: nat)
    requires IsRun(run) && 0 < j < |run|
    ensures NothingTakenBack(run[j - 1], run[j])
  {
    RunInv(run, j - 1);
    assert StepAt(run, j);
    StepInv(run[j - 1], run[j]);
  }

  /** The opener is through, and the session has ended. */
  predicate Over(w: World) {
    w.opener == OpenEnded && w.onceDone
  }

  /** A dialed transport is never closed twice, never while the session is usable,
      and when everything is over exactly one of opener and closer closed it. The
      closer closes it exactly when the session had been given the transport. */
  lemma TransportClosedOnce(run: seq<World>, i: nat)
    requires IsRun(run) && i < |run|
    ensures var w := run[i];
            && w.openerCloses + w.closerCloses <= (if w.dialed then 1 else 0)
            && (w.s.state == Idle ==> w.s.transport && w.openerCloses + w.closerCloses == 0)
            && (Over(w) && w.dialed ==> w.openerCloses + w.closerCloses == 1)
            && (Over(w) && w.dialed ==> (w.closerCloses == 1 <==> w.s.transport))
  {
    RunInv(run, i);
    IdleHasTransport(run, i);
  }

  lemma {:induction false} IdleHasTransport(run: seq<World>, i: nat)
    requires IsRun(run) && i < |run|
    ensures run[i].s.state == Idle ==> run[i].s.transport
  {
    if i > 0 {
      IdleHasTransport(run, i - 1);
      RunInv(run, i - 1);
      assert StepAt(run, i);
      StepInv(run[i - 1], run[i]);
    }
  }

  /** The close of a session is recorded at most once, only for a stored row, only
      after the session is closed and with the reason of the close that won; when
      everything is over a stored row has its record, whether the closer wrote it
      or the opener who came late, exactly when the opener had been told that the row
      is stored. */
  lemma RowClosedOnce(run: seq<World>, i: nat)
    requires IsRun(run) && i < |run|
    ensures var w := run[i];
            && |w.recorded| <= 1
            && (w.recorded != [] ==>
                  w.row && w.s.state == Closed && w.winner == L.Some(w.recorded[0]) && w.s.reason == w.winner)
            && (Over(w) ==> (|w.recorded| == 1 <==> w.acked))
            && (w.acked ==> w.row)
  {
    RunInv(run, i);
  }

  /** When all is over the session is closed with the reason of who ended it first: the
      caller's, or "open_failed" when the opening failed before anybody closed it. */
  lemma ClosedForTheFirstReason(run: seq<World>, i: nat)
    requires IsRun(run) && i < |run| && Over(run[i])
    ensures var w := run[i];
            && w.s.state == Closed && w.s.reason == w.winner
            && (w.once == TakenByOpener ==> w.s.reason == L.Some("open_failed"))
  {
    RunInv(run, i);
  }

  lemma Extend(run: seq<World>, s: Step) returns (longer: seq<World>)
    requires IsRun(run) && Enabled(run[|run| - 1], s)
    ensures IsRun(longer) && |longer| == |run| + 1 && longer[|run|] == Do(run[|run| - 1], s)
  {
    longer := run + [Do(run[|run| - 1], s)];
    assert longer[0] == run[0];
    forall i | 0 < i < |longer| ensures StepAt(longer, i) {
      if i < |run| {
        assert StepAt(run, i);
      }
    }
  }

  lemma LostInsert() returns (run: seq<World>)
    ensures IsRun(run)
    ensures run[|run| - 1] == Init().(opener := RowRefused, dialed := true, row := true)
  {
    run := [Init()];
    run := Extend(run, DialDo(Dial(true)));
    run := Extend(run, DialDo(StoreRow(false, true)));
  }

  /** A row that was stored although the insert was reported as failed stays open: the
      opener gives the session up and nobody records its close. */
  lemma LostInsertLeavesRowOpen() returns (run: seq<World>)
    ensures IsRun(run)
    ensures var w := run[|run| - 1]; Over(w) && w.row && !w.acked && w.recorded == []
  {
    run := LostInsert();
    run := Extend(run, DialDo(CloseRefused));
    run := Extend(run, HandDo(Settle));
    run := Extend(run, HandDo(Signal));
    run := Extend(run, HandDo(TryOnce));
    run := Extend(run, HandDo(DropLive));
    run := Extend(run, HandDo(FailSession));
  }

  /** A session that accepts lines or is being closed is in the live map; when all
      is over it is not, and it left a tombstone exactly when it was closed and not
      when its opening failed. */
  lemma RegistryFollowsTheSession(run: seq<World>, i: nat)
    requires IsRun(run) && i < |run|
    ensures var w := run[i];
            && (w.s.state == Idle || w.s.state == Closing ==> w.live && !w.tombstone)
            && (Over(w) ==> !w.live && (w.tombstone <==> w.once == TakenByCloser))
            && (w.tombstone ==> w.s.state == Closed && !w.live)
  {
    RunInv(run, i);
  }

  // ----- every run comes to an end -----

  /** No run is longer than 19 worlds: nothing waits in a circle. */
  lemma {:induction false} RunsAreShort(run: seq<World>, i: nat)
    requires IsRun(run) && i < |run|
    ensures i + Work(run[i]) <= 18
  {
    if i > 0 {
      RunsAreShort(run, i - 1);
      RunInv(run, i - 1);
      assert StepAt(run, i);
      StepInv(run[i - 1], run[i]);
    }
  }

  /** The step that opener or closer takes next, without any new call of close. */
  function NextStep(w: World): Step {
    if w.closer == NoClose || w.closer == CloseEndedPc then OpenerStep(w.opener) else CloserStep(w.closer)
  }

  function OpenerStep(pc: OpenPc): Step {
    match pc
    case Dialing => DialDo(Dial(true))
    case Dialed => DialDo(NoStore)
    case RowStored => DialDo(MarkRow)
    case LateRecord => DialDo(RecordLate)
    case RowRefused => DialDo(CloseRefused)
    case Settling(_) => HandDo(Settle)
    case Disowned => HandDo(CloseDisowned)
    case Signalling(_) => HandDo(Signal)
    case Cleaning => HandDo(TryOnce)
    case CleanRegistry => HandDo(DropLive)
    case _ => HandDo(FailSession)
  }

  function CloserStep(pc: ClosePc): Step {
    match pc
    case CloseStart(_) => CloseDo(BeginClose)
    case CloseWait => CloseDo(EndWait)
    case CloseTransport(_) => CloseDo(EndTransport)
    case ClosePersist => CloseDo(Persist)
    case CloseRecord => CloseDo(RecordClose)
    case _ => CloseDo(Retire)
  }

  /** Where a run can stop for good: the opener is through, and the session is
      either open with nobody closing it, or it is over. So every session that
      somebody closes gets to `Over`. */
  lemma NobodyIsStuck(run: seq<World>, i: nat)
    requires IsRun(run) && i < |run|
    ensures var w := run[i];
            || Enabled(w, NextStep(w))
            || Over(w) || (w.opener == OpenEnded && w.once == Free && w.s.state == Idle)
  {
    RunInv(run, i);
    IdleHasTransport(run, i);
  }
}
