/**
 The values that the line gate of an AI session and the request table exchange
 (ai_session_approval.go, approval.go).
 */
module LineTypes {

  datatype Option<+T> = None | Some(value: T)

  /** Request IDs are random and never reused; only their identity matters. */
  type RequestId = nat

  datatype Mode = Exec | Shell

  datatype Effect = NoEffect | Cd | Env | StateChange

  datatype Risk = Low | Medium | High

  function Rank(r: Risk): nat {
    match r
    case Low => 0
    case Medium => 1
    case High => 2
  }

  /** The part of a classification that the gate and the approval rule read. */
  datatype LineClass = LineClass(risk: Risk, effect: Effect, envSet: map<string, string>, envUnset: seq<string>)

  datatype Phase = Reserved | Pending | Running

  datatype GateState = Idle | PendingApproval | Busy | Closing | Closed

  datatype Status =
    | ReqPending
    | ReqRunning
    | ReqAutoRunning
    | ReqSucceeded
    | ReqFailed
    | ReqAutoSucceeded
    | ReqAutoFailed
    | ReqInterrupted
    | ReqRejected
    | ReqExpired
    | ReqWithdrawn

  predicate Executing(s: Status) {
    s == ReqRunning || s == ReqAutoRunning
  }

  /** When the line was queued, how long it may run, and the output cursor then. */
  datatype Queued = Queued(at: int, timeout: int, cursorStart: nat)

  /** A line as it was queued; `cwd`, `env`, `unset` and `tainted` are the
      snapshot that the approval screen shows. */
  datatype LineRecord = LineRecord(
    id: RequestId,
    number: int,
    line: string,
    mode: Mode,
    cwd: string,
    env: map<string, string>,
    unset: set<string>,
    tainted: bool,
    cls: LineClass,
    queued: Queued,
    phase: Phase,
    state: Option<Status>,
    exitCode: Option<int>,
    cursorEnd: nat)

  /** What the runner reports: the directory after the line ("" when unknown),
      whether the line completed with exit code 0, the output cursor behind it (0 when
      unknown), and the exit code that the finished request shows. */
  datatype Outcome = Outcome(newCwd: string, ok: bool, cursorEnd: nat, exitCode: Option<int>)
}
