# A verified model of ssh-gete's AI sessions and request machinery

ssh-gete puts a human approval step between an agent and SSH. This Dafny project
models the parts of it that are hard to get right and proves what they promise:

* **The line gate** (`LineTypes`, `LineGate`, `ApprovalRule`, `ApprovalMeaning`; the
  steps in `LineProtocol`; the invariant in `LineProtocolProof`, `LineProtocolSteps`,
  `LineProtocolRuns` and `LineProtocolCalls`; the results in `LineProtocolTheorems`,
  `LineProtocolContext`, `LineProtocolOutcomes`, `LineProtocolPaths`,
  `LineProtocolClosing`, `LineProtocolProgress`, `LineProtocolExamples` and
  `LineProtocolHistory`). Per session the gate holds the directory, the environment
  overlay, the taint and one line in flight. `send_line`, approve, reject, expiry,
  reconcile, close and the runner interleave on it. The class `LineGateObject` updates its
  fields like the source; each method is proved equal to a function on gate values. A step
  relation over the gate, the request table and one program counter per thread uses the
  same functions, and the theorems hold for every run of it.
* **The output pipeline** (`Bytes`, `Utf8`, `MarkerParser`, `PromptMarkers`, `PlainText`,
  `PlainUnits`, `Ring`, `Reader`, `LiveEvents`, `Audit`). Each stage is an incremental
  machine; each is proved equal to a simple function of the whole stream for every
  chunking, and that function is tied to a grammar of what the stream may hold. `Pipeline`
  composes them from the remote bytes to the stored rows and to the reads.
* **Exec-mode replay** (`ExecReplay`, `ExecScript`). The overlay summarises all earlier
  environment lines, is printed as shell text and read back by a shell model, and so are
  the directory line and the probe around the agent's line.
* **Session lifecycle** (`SessionLifecycle`). Opener and closers race over the
  transport, the stored row and the registry.
* **Requests across crashes and shutdown** (`RequestTable`, `RequestRuns`,
  `RequestProof`, `RequestTheorems`, `RequestOutcomes`, `RequestPaths`, `Idempotency`).
  Memory and store, failing writes, crashes, restarts, reservations, the drain, and the
  lock per `client_request_id`.
* **Two kernels** (`Scanner`, `ScannerGrammar` and `ScannerReasons`; `SerialFd` with
  `SerialPump`).

Conventions. A *run* is a sequence of worlds, each reached from the one before by an
enabled step; theorems quantify over all runs and all positions in them. Where a
world has fields that only observe (deliveries, calls, starts, ends, lost writes), the
step functions write them and never read them. What an operation does is stated twice:
by the function that its method equals, and by a contract or lemma that names no such
function, so that both could not be wrong in the same way. A store write may succeed, fail, or
be applied although the caller is told that it failed. Time is a non-decreasing
number. The runner, the transport, the port and the risk classifier are oracles
whose answers the steps carry.

`dafny verify dfyconfig.toml` checks the whole project.

## Where the code differs from what one would expect

* Only `beginDelivery` looks at the gate. The runner is called afterwards without a lock,
  so a line that was granted on an open gate can reach the runner after the close began:
  `LineReachesRunnerAfterClose` gives a run, `LateCallExactlyWhen` and
  `CallsOnAClosingGate` say exactly when and that it is one line at most. (`RunLine` reads
  the session's state once more, again without holding a lock across the call; in the
  model that is one of the outcomes of the call.)
* A waiting request whose withdrawal the store refuses stays pending on the closed
  session: `ClosingSettlesEveryLine` says that this is exactly when it happens,
  `RefusedWithdrawalLeavesLinePending` gives a run.
* A session line's outcome is written by the refusing compare-and-swap
  (`transitionRequest`), not by `finalizeRequest`. If the store refuses it, the
  request stays running: `ClosingSettlesEveryLine` and `DrainIsFinal` say that this is
  exactly when it happens, `RefusedFinalWriteLeavesLineRunning` gives a run.
* If start-up recovery fails it is only logged, and the rows it should have settled
  are loaded as running without an execution: `FailedRecoveryLeavesRunning`.
* A failed read of the store in `existingClientRequest` counts as "not found":
  `FailedReadRepeats`. Apart from that the 24 hours of `NoSecondRequestWithinADay`
  need only a clock that does not go back. `send_line` looks only into memory, so it
  repeats a request that memory no longer holds: `ForgottenRequestRepeats`;
  `RepeatsExactlyWhenHidden` says for both tools when a repeat happens.
* A batch of audited output that the store refuses is given up and later batches go on, so
  the stored rows can have gaps: `RefusedBatchLeavesAGap` gives such a log, and
  `AuditHoldsTheText` says what always holds and that the log accounts for all the text,
  without a gap, exactly when every refused batch was without text.
* A session's row whose insert is applied but reported as failed stays open:
  `LostInsertLeavesRowOpen`; `RowClosedOnce` says that this is exactly when.
* A bare `N=v` line counts as an export of `N`, which a shell would not do; the history
  in `ExecReplay` is the gateway's reading.
* `read_output` accepts limits of 1 to 3 bytes, with which a reader can stop making
  progress: `SmallLimitStalls`; `ReadAdvancesIff` says exactly when.
* `dropPendingOnClose` does not cap the history, and it may come between the refusal of a
  line and the `finishLine` for it. `HistoryIsBounded`: the history has at most one entry
  more than are kept. `ListedTwiceExactlyWhen`: that race is the only way in which a request
  is listed twice; `RequestIsListedTwice` gives a run.
* `release` lowers the line number after `LineQueued` may have stored it, so nothing is
  claimed about numbers being fresh in the store.

## Model

| member | source | states |
|---|---|---|
| LineGate.LineGateObject.TryReserve | ai_session_approval.go:1054-1089 | a line is reserved exactly when the gate is open and idle, else the answer is closed with its reason or busy with the line in flight; the record is the snapshot of directory, overlay, unset list and taint with queue time, timeout and output cursor; the number grows by one |
| LineGate.LineGateObject.ReleaseLine | ai_session_approval.go:1092-1102 | only a reserved line is given back, with its number |
| LineGate.LineGateObject.TryMarkPending | ai_session_approval.go:1106-1118 | true exactly for the reserved line of an open gate, which becomes pending |
| LineGate.LineGateObject.TryBeginDelivery | ai_session_approval.go:1121-1136 | delivery starts exactly for the reserved or pending line of an open gate |
| LineGate.LineGateObject.Finish | ai_session_approval.go:1140-1199 | a delivered `cd` that is ok and reports a directory moves there, a delivered environment line that is ok binds and unbinds exactly its names, a state change taints a shell session, and nothing else moves the session; the freed slot, the finished record with state, exit code and end cursor at the end of the capped history, the time of the last use, and whether the line tainted the session |
| LineGate.LineGateObject.ApplyOverlay | ai_session_approval.go:1149-1159 | name by name: an unset name is unset and not bound, any other set name is bound to its value and not unset, all others stay |
| LineGate.LineGateObject.Drop | ai_session_approval.go:1203-1224 | a pending line, and only that, leaves the slot with the given status |
| LineGate.LineGateObject.StartClose | ai_session_approval.go:1228-1241 | the first close marks the gate closing and takes the line in flight, and is told whether there is a run to cancel and to wait for; later ones change nothing |
| LineGate.LineGateObject.DropWhileClosing | ai_session_approval.go:2005-2019 | the undelivered line leaves the slot; state and history cap are untouched |
| LineProtocolRuns.RunInv | ai_session_approval.go:8-18 | in every run the invariant of the file's header comment holds: one line at a time, its context is the gate's, every duty has a thread |
| LineProtocolTheorems.GateGrantsWhatWasDecided | ai_session_approval.go:1121-1136 | a line is granted at most once per request, on an open gate, and only as running after approval or as auto_running, with the context of the approval screen, which is the gate's own; a line no human saw has risk Low, or Medium under that setting, changes no state, meets no taint, and sets or unsets only the listed safe names |
| LineProtocolTheorems.RunnerGetsWhatWasDecided | ai_session_approval.go:1658-1691 | the runner is called at most once per request, with a granted line in its launch state, and the context of the approval screen is still the gate's own at the call; the same holds of lines no human saw; the gate may be closing |
| LineProtocolTheorems.HumanIsAskedExactlyWhen | ai_session_approval.go:1541-1543 | send_line asks a human exactly when somebody wants it so or the line is not one that may run unseen |
| ApprovalMeaning.AskedExactlyWhen | ai_session_approval.go:787-821 | the rule asks exactly for High risk, Medium risk without that setting, a state change, a taint, or an environment line with a name that is not one of the six safe words, does not begin with LC_, or is in any case a listed dangerous one |
| ApprovalMeaning.NameClassMeans | ai_session_approval.go:298-335 | dangerous and safe names are the listed words and beginnings, and PS0 to PS4, in capitals of any spelling for the dangerous ones |
| ApprovalMeaning.SafeIsNotDangerous | ai_session_approval.go:298-335 | no name is on both lists |
| LineProtocolTheorems.OneLineAtTheRunner | ai_session_approval.go:1121-1136 | at most one line per gate is between the grant and the runner's answer, and the gate's context does not move under it |
| LineProtocolClosing.NoDeliveryBeginsAfterClose | ai_session_approval.go:1121-1136 | once a close has begun no line is granted any more, and the slot is only ever freed |
| LineProtocolClosing.AtMostOneLateCall | ai_session_approval.go:1672-1691 | after a close has begun the runner is called at most once more, with the line that was in phase running and not called then |
| LineProtocolClosing.CallsOnAClosingGate | ai_session_approval.go:1672-1691 | a call meets a closing gate exactly when it comes after the first close began |
| LineProtocolClosing.LateCallExactlyWhen | ai_session_approval.go:1672-1691 | a closing session can still call its runner exactly when a granted line was not called yet and is not an environment line of an exec session |
| LineProtocolExamples.LineReachesRunnerAfterClose | ai_session_approval.go:1667-1684 | such a run exists |
| LineProtocolTheorems.ClosingSettlesEveryLine | ai_session_approval.go:1951-2019 | closing and nobody mid-step: no line in flight; a request is left running exactly when the store refused its final state, pending exactly when it refused the withdrawal |
| LineProtocolExamples.RefusedFinalWriteLeavesLineRunning | ai_session_approval.go:1735-1770 | the first exception is real: a run that ends closed with a request still auto_running |
| LineProtocolExamples.RefusedWithdrawalLeavesLinePending | ai_session_approval.go:1990-2000 | the second exception is real: a run that ends closed with a request still pending |
| LineProtocolProgress.NoThreadIsStuck | ai_session_approval.go:1658-1718 | no thread waits for another: each has an enabled step of its own that brings it nearer to its end |
| LineProtocolProgress.ThreadsAreShort | ai_session_approval.go:1658-1718 | in any order the threads that are there take a bounded number of steps |
| LineProtocolProgress.EveryCloseEnds | ai_session_approval.go:1951-2025 | from any closing position the run can go on, within that bound, to a closed gate with a free slot and every request settled but those whose last write the store refused |
| LineProtocolHistory.HistoryIsBounded | ai_session_approval.go:2005-2019 | in every run the history has at most one entry above the limit, and then only on a closing gate whose waiting line was dropped |
| LineProtocolHistory.ListedTwiceExactlyWhen | ai_session_approval.go:1667-1673 | a step lists a request a second time exactly when a refused begin finishes its line although the line was dropped in between |
| LineProtocolHistory.RequestIsListedTwice | ai_session_approval.go:1667-1673 | such a run exists |
| LineProtocolTheorems.TaintedShellNeedsHuman | ai_session_approval.go:798-821 | in shell mode every line granted after a state-changing one was approved by a human |
| LineProtocolTheorems.TaintedShellRunsWithHuman | ai_session_approval.go:798-821 | the same of the lines that reach the runner |
| LineProtocolTheorems.ContextMovesOnlyWithItsLine | ai_session_approval.go:1140-1199 | directory, overlay, unset list and taint change only when the granted line finishes, and then by its effect |
| LineProtocolContext.ContextIsItsHistory | ai_session_approval.go:1140-1199 | in every run each name is as the last successful environment line that mentions it left it, the directory is where the last line that moved the session went, and the taint is there exactly when a state-changing line of a shell session is finished |
| LineProtocolContext.OverlayIsItsHistory | ai_session_approval.go:1149-1159 | in every run the gate's overlay is that of the successful environment lines finished so far, in order |
| LineProtocolContext.ScriptReplaysTheSession | ai_session_exec.go:59-87 | in every run the environment part of the next script has, in every base environment, exactly the effect of those lines |
| LineProtocolOutcomes.StatusTellsTheOutcome | ai_session_approval.go:1735-1770 | in every run a finished line's request is succeeded exactly when the runner reported success, failed or interrupted exactly when it did not, unless the store refused the end or the request is deleted |
| LineProtocolOutcomes.StatusMovesForACause | ai_session_approval.go:1658-1770 | in every step of every run a status appears, changes or vanishes only for its cause: recorded, approved, rejected, expired, withdrawn, ended, refused or deleted; what ran after approval ends as approved, what ran by itself as automatic |
| LineProtocolPaths.UnseenLineRuns | ai_session_approval.go:1457-1640 | from any world with an open, idle gate a line that may run unseen can be sent and run by itself: the runner is called once with it, session, history and status are as its report says, and nothing else changed |
| LineProtocolPaths.ApprovedLineRuns | ai_session_approval.go:1816-1932 | the same for any other line once a human approves it, with the line and the context that the approval screen showed |
| LineProtocolPaths.UnapprovedLineLeaves | ai_session_approval.go:1387-1409 | such a line that is rejected or expires is logged with that status without being called, and the gate is idle with its context unchanged |
| LineProtocolPaths.ReconcileReaches | ai_session_approval.go:1387-1409 | one pass of reconcile frees the slot of a waiting line that was decided or deleted, and expires and frees one that is due |
| MarkerParser.PartialMeansExtendable | ai_session.go:2449-2483 | the bytes that the parser holds back are exactly the proper prefixes of markers |
| MarkerParser.MarkersArePrefixFree | ai_session.go:2449-2483 | no marker is a proper prefix of another, whatever the nonce, so leftmost match is unambiguous |
| MarkerParser.ParseLosesNothing | ai_session.go:2406-2446 | tokens and held tail spell the input again |
| MarkerParser.OnlyMarkersAreTaken | ai_session.go:2406-2446 | what is taken out of the stream is always a whole marker |
| MarkerParser.CheckIsExact | ai_session.go:2449-2483 | fed from a partial marker, the classification is exact: partial, dead, continuation or code with its value |
| MarkerParser.Parser.Feed | ai_session.go:2406-2446 | data and markers of one call are those of the declarative parse of held bytes plus input, the push-back loop ends by the measure (held plus queued bytes, queued bytes) |
| MarkerParser.ParseAppend | ai_session.go:2406-2446 | parsing `a` and then its held tail with `b` is parsing `a + b` |
| MarkerParser.ChunkingDoesNotMatter | ai_session.go:2406-2446 | any chunking gives the tokens and the tail of one call |
| MarkerParser.Interleave | ai_session.go:2374-2396 | segments spell data and markers in the order that the positions give |
| MarkerParser.InterleavingRestoresOrder | ai_session.go:2374-2446 | interleaving what the parser returns restores the order of the stream |
| PromptMarkers.PromptCarriesTheCode | ai_session.go:2079-2081 | what PS1 prints in front of any bytes is read as one marker, whose code is the printed exit code, for all codes below 10000 |
| PromptMarkers.SecondPromptContinues | ai_session.go:2079-2081 | what PS2 prints is read as a continuation |
| PromptMarkers.LongerNumbersAreNoMarker | ai_session.go:2403-2403 | a number of more than four digits makes no marker |
| PlainText.StripAppend | ai_session.go:1915-2011 | Feed(a) then Feed(b) is Feed(a+b): same bytes, same state |
| PlainText.ChunkingDoesNotMatter | ai_session.go:1915-2011 | any list of chunks gives the text, state and held bytes of one call |
| PlainText.StrippedTextIsClean | ai_session.go:1895-2011 | the text is valid UTF-8 (section 4 of RFC 3629) without C0 except newline and tab, without DEL and C1 |
| PlainText.StrippingTwiceChangesNothing | ai_session.go:1895-2011 | stripping the text again changes nothing |
| PlainText.Stripper.Feed | ai_session.go:1915-2011 | the loop over tail and chunk computes the stripping that the next rows are about |
| PlainUnits.UnitStrips | ai_session.go:1915-2011 | a whole unit (CSI, string, other escape, control, rune, broken byte, CR, CR LF) in front of any bytes strips to what it shows followed by what these strip to: itself, nothing, U+FFFD, a newline, or the notice for a string of more than 4096 bytes |
| PlainUnits.TextIsWhatTheUnitsShow | ai_session.go:1915-2011 | every stream is a list of units and at most one unfinished unit, and its text is what they show, one after the other |
| Utf8.EncodeDecode | ai_session.go:1976-2011 | encoding a decoded rune gives its bytes back |
| Utf8.DecodeEncode | ai_session.go:1976-2011 | the encoding of every scalar value is a valid rune that decodes to it, whatever follows; any other value becomes U+FFFD |
| Ring.RingBuffer.Write | ai_session.go:1563-1574 | the stream grows by the input and the ring holds its last bytes at their absolute cursors |
| Ring.RingBuffer.Read | ai_session.go:1591-1603 | a read returns the stream's slice at its cursors |
| Ring.RingBuffer.Shrink | ai_session.go:1576-1588 | the newest bytes stay at their cursors |
| Reader.TrimTail | ai_session.go:1828-1838 | the backward loop computes the trimming |
| Reader.TrimKeepsWholeRunes | ai_session.go:1828-1838 | trimming leaves the longest run of whole runes |
| Reader.ReadText | ai_session.go:1794-1822 | the method over the ring is the declarative read of the stream |
| Reader.ReadsWholeRunes | ai_session.go:1794-1822 | text is the stream between the two returned cursors, whole runes, missed bytes are counted, the next cursor is a boundary |
| Reader.ReadIsAsLargeAsItCan | ai_session.go:1794-1822 | a read skips no more than the dropped bytes and the tail of a cut rune, and returns as many whole runes as its limit allows, 16384 bytes by default |
| Reader.EveryByteIsReadOrMissed | ai_session.go:1794-1822 | over any series of reads, with growth and drops in between, text plus missed bytes account for every byte and consecutive reads meet |
| Reader.ReadAdvancesIff | ai_session.go:1794-1822 | a read that says "more" advances exactly when bytes were missed or the next rune fits the limit |
| Reader.ReaderNeverStalls | ai_session.go:1794-1822 | with a limit of at least 4, or the default, "more" means progress |
| Reader.SmallLimitStalls | mcp_ai_session.go:559-563 | a limit of 2 in front of a three-byte rune makes no progress and says "more" |
| ExecReplay.ParseAssignments | ai_session_approval.go:524-534 | the parsed map is the assignments in order, None exactly when a word is none |
| ExecReplay.StandaloneEnv | ai_session_approval.go:496-522 | which lines are environment lines, and their set and unset parts |
| ExecReplay.AssignmentMeans | ai_session_approval.go:524-550 | `name=value` is an assignment exactly for a valid name and a value without `~`, `*`, `?`, `[` and `]`, and assigns exactly this value |
| ExecReplay.AssignedMeans | ai_session_approval.go:524-534 | the names set are those of the words, each with the value of its last word |
| ExecReplay.OverlayIsDisjoint | ai_session_approval.go:1149-1159 | set and unset names stay disjoint over any history |
| ExecReplay.OverlayMeansHistory | ai_session_approval.go:1149-1159 | applying the overlay to any environment is running all successful export and unset lines in order |
| ExecReplay.QuoteRoundTrip | ai_session_exec.go:51-53 | a shell (section 2.2.2 of the POSIX.1-2017 Shell Command Language) reads the quoted text as exactly the string, for every string and any rest |
| ExecReplay.QuoteIsInjective | ai_session_exec.go:51-53 | different strings are quoted differently |
| ExecReplay.BuildEnvPrefix | ai_session_exec.go:64-80 | the printed environment part: one export per valid name in sorted order, then the unset lines of names not set |
| ExecReplay.LexLeMeans | ai_session_exec.go:70-70 | the order of the exports: a beginning comes first, else the first difference decides |
| ExecReplay.ReplayRefinesHistory | ai_session_exec.go:59-87 | in every base environment the printed prefix has the effect of the whole history |
| ExecScript.BuildExecScript | ai_session_exec.go:59-87 | the whole script: directory, environment part, exactly the agent's line, probe; the environment part has in every base environment the effect of every history that led to the overlay |
| ExecScript.FirstLineEntersOrEnds | ai_session_exec.go:61-63 | a shell that reads the first line enters exactly the gate's directory and goes on with the rest, or, when it cannot, ends with code 201 and the report that carries the nonce |
| ExecScript.ProbeReportsTheDirectory | ai_session_exec.go:82-84 | behind a successful `cd` the shell prints the marker with the nonce and the new directory; other lines get no probe |
| LiveEvents.OutputBuffer.Write | terminal.go:299-325 | of what waited and what comes the newest bytes wait, 4 MiB of them or all, exactly the others are counted as dropped; nothing after close |
| LiveEvents.OutputBuffer.Drain | terminal.go:366-382 | everything pending is sent in chunks of at most 32 KiB |
| LiveEvents.ChunksAreSmall | terminal.go:366-382 | no event ever carries more than 32 KiB, and each carries something or reports a loss |
| LiveEvents.ChunksAreFull | terminal.go:366-382 | all but the last event of a drain carry 32 KiB |
| LiveEvents.LostIsTheOverflow | terminal.go:299-325 | over any operations exactly the bytes beyond 4 MiB of waiting ones are lost |
| LiveEvents.NothingIsLostWithinTheCap | terminal.go:299-394 | while no more ever wait, no event reports a loss, and events and waiting bytes spell the whole stream |
| LiveEvents.EventsAgreeWithTheStream | terminal.go:299-394 | over any operations every event is the stream's slice ending at its cursor, pending is at most the cap and the newest part, and all bytes are accounted for |
| LiveEvents.CloseAccountsForEveryByte | terminal.go:385-394 | after close emitted plus dropped bytes are all bytes accepted, and nothing follows |
| LiveEvents.RawOutput.Write | ai_session.go:1657-1675 | ring and live view see the same bytes, and their agreement is kept |
| LiveEvents.RawOutput.ReadRaw | ai_session.go:1851-1868 | a viewer that reads the ring gets the stream's slice, the start and the missed bytes |
| Audit.Writer.Add | ai_session_app.go:81-107 | every byte keeps its cursor, merged or not; nothing is added after close |
| Audit.Writer.Flush | ai_session_app.go:132-146 | the batches handed over hold every byte added so far; a refused batch is reported and given up |
| Audit.Writer.Close | ai_session_app.go:149-159 | after close the batches hold everything added before it |
| Audit.TruncateUtf8 | ai_session_store.go:585-596 | the backward loop computes the cut |
| Audit.TruncatedIsLongestValidPrefix | ai_session_store.go:585-596 | the cut is the longest valid prefix within the limit |
| Audit.AuditStore.AppendOutput | ai_session_store.go:603-668 | one transaction appends the batch chunk by chunk, or changes nothing |
| Audit.BatchingDoesNotMatter | ai_session_store.go:603-668 | two batches store what one joined batch stores |
| Audit.RowsAreAFaithfulPrefix | ai_session_store.go:603-668 | for contiguous chunks the rows are the text cut at the limit, contiguous, rune-aligned, numbered; all text is counted; one output_truncated event exactly when the limit is exceeded |
| Audit.AuditHoldsTheText | ai_session_app.go:81-159 | from arriving text through merging and flushing to the rows, however text arrives, whenever the loop flushes and whichever batches the store commits: the rows spell the committed text cut at the limit, each is the stream's slice at its own cursor, in order, of whole runes and numbered; one cut event exactly when the limit is exceeded; all the text is accounted for, without a gap, exactly when every refused batch was without text |
| Audit.RefusedBatchLeavesAGap | ai_session_app.go:132-146 | a refused batch in front of a committed one: the first row begins at cursor 1 |
| Pipeline.RemoteBytesReachTheAudit | ai_session.go:1657-1694 | remote bytes in any chunks through stripper and filter to the audit: the log holds the released text, for every filter that releases whole runes |
| Pipeline.RemoteBytesReachTheReader | ai_session.go:1657-1694 | the same to a reader: every read succeeds and is faithful, and text plus missed bytes account for every byte |
| Pipeline.UnfilteredStreamIsStripped | ai_session.go:1637-1694 | without redaction the text stream is the stripped form of all remote bytes, however they were cut |
| SessionLifecycle.SessionObject.MarkInserted | ai_session.go:1126-1134 | the row is marked, and the opener records the close exactly when it is over and unrecorded |
| SessionLifecycle.SessionObject.Settle | ai_session.go:1140-1151 | the transport is handed over exactly when no close came first |
| SessionLifecycle.SessionObject.EndClose | ai_session.go:793-801 | the closer records the close exactly when a row exists and nobody recorded it |
| SessionLifecycle.StateOnlyMovesForward | ai_session.go:746-815 | state, reason, transport, row and recorded close are never taken back |
| SessionLifecycle.TransportClosedOnce | ai_session.go:1117-1155 | a dialed transport is closed exactly once when all is over, by the closer exactly when the session had been given it, and never while the session is idle |
| SessionLifecycle.RowClosedOnce | ai_session.go:1119-1138 | a row gets onClose at most once, after the close, with the winning close's reason, and when all is over exactly when the opener was told that the row is stored |
| SessionLifecycle.LostInsertLeavesRowOpen | ai_session.go:1119-1123 | a row whose insert was applied but reported as failed is never closed |
| SessionLifecycle.ClosedForTheFirstReason | ai_session.go:1156-1178 | when all is over the session is closed, with the reason of the first close, or open_failed when the opening failed first |
| SessionLifecycle.RegistryFollowsTheSession | ai_session.go:1275-1290 | a usable session is in the live map; a finished one is not and left a tombstone exactly when it was closed |
| SessionLifecycle.RunsAreShort | ai_session.go:746-815 | every run ends: opener and closer never wait in a circle |
| SessionLifecycle.NobodyIsStuck | ai_session.go:746-815 | a run can stop only when the session is open and nobody closes it, or everything is over |
| RequestTable.RequestList.TransitionRequest | approval.go:178-212 | the in-memory state changes only together with the stored one |
| RequestTable.TransitionMeans | approval.go:178-212 | won exactly when memory and store show an expected state and the write succeeds, then both show the new one; otherwise memory stays |
| RequestTable.RequestList.FinalizeRequest | app.go:2561-2601 | the method computes the finalizing that the next row is about |
| RequestTable.FinalizeMeans | app.go:2561-2601 | when memory shows the expected state it shows the outcome afterwards, whatever the store says, or the row that another process wrote; `Won` exactly when the store took it, and then both show it; every other request stays |
| RequestTable.RequestList.UpdateFrom | storage.go:1137-1159 | a row changes only from the expected status |
| RequestTable.RequestList.DeleteRequest | approval.go:590-624 | an executing request is never deleted; memory drops it only when the store marked it or no longer has it |
| RequestTable.RecoveredMeans | storage.go:671-675 | start-up recovery makes every row that was running interrupted, and changes no other |
| RequestTable.ExecRegistry.ReserveExec | approval.go:716-735 | a reservation exactly while intake is open and the application is not stopped, counted in the wait group |
| RequestTheorems.StartedAtMostOnce | approval.go:392-470 | across crashes and restarts no command starts twice, and at every start the store holds running or auto_running, unless another process wrote its end |
| RequestTheorems.NeverPendingAgain | storage.go:671-675 | a request seen in any other state, or started, is never pending again in memory or store |
| RequestTheorems.RunningIsReserved | mcp_server.go:509-573 | every running request has an execution that holds a reservation; the exceptions are named |
| RequestTheorems.DrainIsFinal | app.go:673-711 | intake closed and wait count zero stays so: nothing starts, and a request is left running exactly when its recovery or its session-line outcome was refused |
| RequestTheorems.RecoveryLeavesNothingRunning | storage.go:671-675 | from a start-up to the end of the process a request runs without an execution exactly when the failed recovery loaded it as running or the store refused its session-line outcome since |
| RequestTheorems.FailedRecoveryLeavesRunning | app.go:498-500 | a run with a failed recovery ends drained with a request still auto_running that never started |
| RequestOutcomes.MemoryShowsTheOutcome | app.go:2561-2601 | in every run a request whose execution ended is shown as still running, or with exactly the outcome of that execution, unless another process wrote its row |
| RequestOutcomes.FinalizedIsShown | app.go:2561-2601 | from its finalizing on a command's outcome is shown, whatever the store says |
| RequestOutcomes.MemoryAndStoreAgree | approval.go:178-212 | in every run memory and store show the same status, unless a write went wrong or another process wrote the row |
| RequestPaths.ApprovedRequestRuns | approval.go:312-480 | while intake is open a pending request can be approved and run: it is started once, memory and store show its outcome, its reservation is given back, and nothing else changed |
| RequestPaths.AutomaticRequestRuns | mcp_server.go:509-573 | the same for a request that needs no human |
| RequestPaths.ShownStatusMovesForACause | approval.go:178-212 | in every step what memory shows of a request changes only for its cause: queued, approved, decided, started, ended, deleted, crashed or loaded |
| RequestPaths.LifeMeans | storage.go:671-675 | a shutdown closes the intake; a crash loses memory and executions and keeps the store; a start-up shows the loaded rows, with what was running interrupted unless the recovery fails |
| Idempotency.KeyLocks.Enter | mcp_status.go:84-96 | the lock object of the key, made when there is none, with one more reference |
| Idempotency.KeyLocks.Leave | mcp_status.go:100-109 | one reference less; the key is forgotten with the last |
| Idempotency.KeysTellPairsApart | mcp_status.go:84-96 | different pairs have different keys, unless an agent's name contains a NUL |
| Idempotency.MutualExclusionPerKey | mcp_status.go:84-110 | at most one call per key is between lock and unlock, although lock objects come and go |
| Idempotency.KeysAreForgotten | mcp_status.go:100-109 | the map holds a key only while a call refers to its lock object |
| Idempotency.NoSecondRequestWithinADay | mcp_server.go:439-488 | execute_command never creates a request within 24 hours after one with the same agent and client_request_id |
| Idempotency.RepeatsExactlyWhenHidden | ai_session_approval.go:1481-1486 | in every run a request repeats an earlier one within 86 400 000 ms, measured at its lookup, exactly when the lookup should have found it and did not; for execute_command the read failed, for send_line the earlier one was not in memory |
| Idempotency.GoesOnExactlyWhen | mcp_status.go:196-208 | helper of the row above, one lookup by itself: it misses a stored request exactly when execute_command cannot read the store, or send_line finds none in memory |
| Idempotency.ForgottenRequestRepeats | ai_session_approval.go:1481-1486 | a run in which send_line repeats a request that memory does not hold |
| Idempotency.FailedReadRepeats | mcp_status.go:196-208 | with a failed read of the store it does |
| Scanner.ScanSessionLine | ai_session_approval.go:138-267 | the loop over the line and the stack computes the scan's verdict and reason |
| ScannerGrammar.AcceptsExactlyTheGrammar | ai_session_approval.go:138-267 | a line is accepted exactly when it derives from the recursive grammar, without here-document and trailing operator |
| ScannerReasons.RefusedExactlyFor | ai_session_approval.go:138-267 | refused as heredoc exactly when legal pieces lead to `<<` outside double quotes, as line_continuation exactly when they lead to a lone last backslash or the line is legal and ends in an operator, as unbalanced_quote exactly when they lead to the end inside a context, to a closing byte of none, or to a quote without end |
| ScannerGrammar.JoiningKeepsAcceptance | ai_session_approval.go:138-267 | two accepted lines joined with " ; " are accepted |
| SerialFd.SerialHandle.Acquire | terminal.go:188-196 | a use starts exactly when the handle is not closed |
| SerialFd.SerialHandle.Release | terminal.go:199-210 | the last use of a closed handle, and no other, has to close the port |
| SerialFd.SerialHandle.ClosePort | terminal.go:253-264 | the handle is closed, and the port at once when nobody uses it |
| SerialFd.SerialHandle.WritePiece | terminal.go:215-222 | a hundredth of the speed, 9600 when it is unknown, between 1 and 4096 bytes |
| SerialFd.Write | terminal.go:225-247 | the loop over the pieces sends what the port takes and reports why it stopped |
| SerialFd.SentIsAPrefix | terminal.go:225-247 | what was sent is a prefix of the input, all of it when there is no error |
| SerialFd.WriteGoesOn | terminal.go:225-247 | while the port takes whole pieces the call goes on; at the first turn that ends it, it reports every byte the port took and why: closed, the port's error, a short write, or no error exactly when the last piece was taken whole |
| SerialFd.NoUseStartsAfterClose | terminal.go:162-172 | once the handle is marked closed no use starts |
| SerialFd.CloseCallMarks | terminal.go:253-264 | closePort marks the handle at once and leaves the uses alone; it closes the port exactly when nobody uses it and it was not closed |
| SerialFd.ClosedOnceAndByTheLastUse | terminal.go:199-210 | the port is closed once, only unused and closed, and somebody does it as soon as that is so |
| SerialFd.NoOperationOnAClosedPort | terminal.go:162-172 | no operation runs on a closed port |
| SerialFd.WriteAndSetModeNeverOverlap | terminal.go:156-161 | a piece of input and a change of the mode never overlap |
| SerialPump.PortTakesTheInputInOrder | terminal.go:887-895 | over all calls of the one pump the port takes a prefix of the whole input in the order it was accepted, and all of it when the last call ended without an error |
| SerialFd.BytesArriveInOrder | terminal.go:225-247 | with everybody running, the port takes a prefix of each call's input, in order |

## Left out

- The tables of risk.go, `scanSessionCommands` and `classifySessionLine`: large data tables; the model takes risk, effect and names from an oracle.
- SSH, PTY, serial device, HTTP, the GUI, timers, keepalives and long polls: oracles and step choices.
- Secret redaction (ai_session_redact.go): it depends on the semantics of the regular expression library and is not chunk-invariant; in `Pipeline` it is any filter that turns whole runes into whole runes.
- Times of stored rows, expiry by the sweeper, settings, session limits and the idempotent reopening in `open`.
- Cursors are unbounded numbers, the source's are 64-bit.
- `aiValueMarker`, which reads the markers that the script prints back from the output.
- The checks of `validateSessionLine` in front of the scanner (UTF-8, empty, length, line breaks, control characters): one comparison each.
- The order of unset names in the gate: the overlay keeps a set; the theorem about the printed prefix holds for every order.
- aiShellTransport: the matching of prompts to lines is remote behaviour; the parser below it is modelled.
- LineProtocol: the idempotent lookup at the start of `send_line`, the check of the target's fingerprint, editing and bypass grants are not part of its steps; `Idempotency` models the lookup and the lock.
- Idempotency.NoSecondRequestWithinADay: is about requests that execute_command creates; those of `send_line` are in `Idempotency.RepeatsExactlyWhenHidden`.
- LineGate.LineGateObject.StartClose: whether there is a run stands for its cancel function and its done channel; cancelling is an outcome that the runner may report.
- A gate without a runner fails the line without calling anything; in the model a gate always has a runner, and a call that fails stands for it.
- LineProtocolProgress.EveryCloseEnds: the runner is assumed to answer; that it does after an interrupt and a grace period is the transport's business.
- RequestTable.RequestList.TransitionRequest: one status stands for a request; texts, times and risk in the row are not modelled.
- `capTombstonesLocked`, `lookup` and the sweep of the session registry; `closeAISessionRowTx` and `recoverOpenAISessionRows`: single-transaction table updates.
- The execution and long-poll slots of `mcpRuntime`: plain counters.
- Connections, keychain, host keys, TLS, configuration, window sizes, tool schemas, the frontend.
