# EvernightAI: verified models

Dafny models of the parts of EvernightAI where a mistake is easy to make and hard to see, with
proofs of what they promise. `dafny verify dfyconfig.toml` checks everything.

**Durable agent runs** are the main part. A run is a loop of model responses and tool calls that is
stored three ways: an append-only trace journal, a snapshot with a watermark, and a write-ahead
ledger of tool attempts. `Runs` holds the records and `Recovery` and `Ledger` the replay and ledger
rules as functions. `Machine` turns the whole protocol into a state machine: the code between two
awaits is one operation, an operation yields the list of durable writes it performs, and a crash
keeps any prefix of that list. `RunState.dfy`, `RunControl.dfy` and `RunLoop.dfy` hold the objects
that the application updates in place; every method there is proved to do exactly what the state
machine says, with anything the outside decides (responses, approvals, tool outcomes) left open.
On top of the machine:

* `Safety`: any number of live and stale copies, crashes anywhere. CANCELED is final, no attempt
  is dispatched twice, effects of non-replayable tools happen at most once.
* `Agreement`, `Replaying`, `Exclusive`: one execution at a time, crashes anywhere. Replaying the
  journal over any earlier snapshot agrees with the live run exactly when no progress was orphaned.
* `Verdicts`: how a run ended. The stop event, the snapshots and replay say the same, and nothing
  undoes it. `Eligibility`: which interrupted runs may go on, and that those which may do.
  `Operators`: what the ledger lets a call do, and what an operator's decision amounts to.
* `Orphans`, `Recoveries`: the same runs, and all that may stand in the journal behind a stored
  snapshot. The round budget and the tool protocol hold exactly when every recovery starts from a
  state in which taking that in does no harm; `TornRuns` builds runs in which it does any amount.
* `Protocol`, `Untorn`, `Budgets`, `RoundBudget`, `RoundsLeft`: untorn runs. Full agreement, and
  exactly when recovery restores the rounds left; `ChargedTwice` is a run in which it does not.
* `Shutdown`: any number of runs in one process, with the gate that closing shuts.
* `Legacy`, `Approvals`: snapshots from before the watermark, which are aligned with the journal step
  by step, and the approvals that a run collects over its resumes.

**The context pipeline** (`Context`, `Trimming`, `Strategies`) is the organizer's filter, grouping,
window trimming, token budgeting, summarising, and their stacking; it meets the first part in the
theorem that what a run commits survives the organizer.

**Independent cores**: bitmap validators (`Bitmaps`, `Jpegs`), the server-sent event reader and the writer
it reads from (`Sse`), nested transactions and migrations under crashes (`Sqlite`), the image task
queue (`ImageTasks`), memory selection (`Memories`), the web client's transcript (`Transcripts`, and what
it shows in `Activities`).

## What the proofs turned up

Places where a promise does not hold as it stands, each with the condition under which it does.

* `append_event` and `save_state` are separate transactions. Recovery only visits RUNNING
  snapshots, so an event appended and not saved by the first step after a resume, whose stored
  snapshot is still PAUSED, is passed over for good: replay still shows it, the run does not.
  `Exclusive.CrashReplayAgreement` says agreement fails exactly then, and
  `RoundBudget.TornResumeDisagrees` that it always fails after such a crash. Responses left behind
  this way are replayed all at once when a later execution is interrupted before its first event,
  and no round budget bounds them (`TornRuns.TornRunsHaveNoBudget`). Responses plus rounds left stay
  within the budget exactly when they do in what each recovery takes in
  (`Recoveries.RoundsStayInBudget`), the tool protocol exactly when each finds at most one event to take in
  (`Recoveries.TranscriptStaysInProtocol`).
* A run interrupted in the follow-up chat is charged for the round when it ends and again when it
  resumes (`ChargedTwice.InterruptedFollowUpChargesTwice`), so a restored run may have more rounds
  left than the live one, never fewer; exactly when it has as many, `RoundsLeft.RoundsLeftExactly`
  and `RoundsLeft.RoundsLeftByPlace` say.
* The organizer drops any assistant message whose calls lack results, also one the request itself
  brought along. Of a committed transcript it returns what it returns of the request's own messages,
  and every message of the run but those of a last response that lacks results
  (`Protocol.OnlyOpenRoundIsLost`). So the transcript survives exactly when the request's messages do
  and none are lacking, which FINISHED makes sure of; a run stopped with TOOL_ROUNDS_EXHAUSTED always
  lacks some and loses its last response (`Recoveries.TranscriptSurvivesRuns`).
* An operator's decision about one attempt makes the pause resumable when no attempt waits for one
  any more. An attempt given up for a retry of the run no longer waits, and is refused all the same
  when the run goes on (`Operators.GivenUpIsRefused`; when it is not, `Operators.ResolvedIsReady` says).
* A stop event passed over by a later execution counts for replay and not for the run: restored and
  live end agree exactly when that makes no difference (`Verdicts.RestoredEndAgrees`).
* Summarising may remove a message of the current turn, which window and token trimming never do.
  It keeps the current turn exactly when the groups from its first message on fit into what is
  kept, or are the one last group (`Strategies.StackKeepsTurn`, for any stack).
* `ImageTaskStore.finish` stores whatever task it is given. "Claimed at most once" holds exactly
  when no worker finishes a task as QUEUED (`ImageTasks.ClaimedAtMostOnce`), the bound of ten
  whatever owners are written exactly when workers finish with final statuses only
  (`ImageTasks.BoundNeedsFinalStatuses`).
* A streamed run is stored as RUNNING before its execution is admitted. One stored after the
  shutdown pause is refused and stays RUNNING until startup recovery, unless a control call or another
  pause reaches it: afterwards a run is not RUNNING exactly when it was stored by the time of the
  pause (`Shutdown.RunningExactly`; `Shutdown.RefusedStaysRunning` is such a life of the process).
* A snapshot from before the watermark is aligned with the journal by its steps alone. What it had
  passed over is taken in again unless it lies before the last aligned event
  (`Legacy.LegacyRestoresTheSame`, `Legacy.OrphanIsTakenIn`).
* Restoring in two steps is restoring at once, unless the later part of the journal reuses a sequence
  number of the snapshot's trace: both fail then, but the first step has already changed the snapshot
  (`Recovery.ReplayComposes`).
* The end-of-image branch of the JPEG loop never accepts: the scan flag it asks for is only raised
  by the branch that returns (`Jpegs.ValidJpeg`).
* `format_sse_event` splits data with `str.splitlines`, which breaks at characters that JSON output
  leaves unescaped, such as U+2028; they arrive as line feeds (`Sse.DataArrivesUnchanged`).

## Model

| member | source | states |
|---|---|---|
| Recovery.GapIsRejected | src/EvernightAI/application/agent_recovery.py:409-417 | a journal tail is accepted exactly when it is numbered watermark + 1, + 2 and so on |
| Recovery.ReplayComposes | src/EvernightAI/application/agent_recovery.py:195-390 | restoring from a prefix and then from the whole journal is restoring from the whole journal once, with the same run and error, exactly described also for a journal whose later part reuses a sequence number of the snapshot: both restores fail, and only the one at once leaves the snapshot as it was |
| Recovery.RestoreIsIdempotent | src/EvernightAI/application/agent_recovery.py:195-390 | restoring twice is restoring once, whether or not it fails |
| Replaying.RestoreBuilds | src/EvernightAI/application/agent_recovery.py:195-308 | a journal the application wrote is never rejected, and replay adds exactly its recorded progress, last response and rounds left |
| RunObjects.RunState.CheckpointTail | src/EvernightAI/application/agent_recovery.py:311-390 | the loops reject a reused sequence or a gap and otherwise return the events beyond the watermark |
| RunObjects.RunState.RestoreCheckpointData | src/EvernightAI/application/agent_recovery.py:195-308 | the replay loop leaves the state, and the error, that the replay function gives |
| RunObjects.RunState.ReplayEvent | src/EvernightAI/application/agent_recovery.py:206-300 | each event branch changes the fields the replay function changes, and an error changes none; what that function restores, `Replaying.RestoreBuilds`, `Verdicts.StopsAreReplayed`, `Eligibility.ReplayedAwaits` and `Eligibility.ReplayedFinalizes` say |
| RunObjects.RunState.InspectCheckpoint | src/EvernightAI/application/agent_recovery.py:44-128 | the classifier's eligibility and checkpoint, which `Eligibility.InspectMeans` explains, and the state it restored on the way |
| RunObjects.RunState.CompletedToolCallIds | src/EvernightAI/application/agent_state.py:72-82 | the reverse loop finds exactly the call ids answered since the last response |
| RunObjects.RunState.Wake | src/EvernightAI/application/agent_execution.py:275-399 | a paused resumable run is woken at the right place with the right rounds left; any other is left untouched |
| RunObjects.LatestAttempts | src/EvernightAI/application/agent_recovery.py:131-146 | the loop's dictionary holds, per call id, the greatest attempt of the round |
| RunObjects.NextAttemptNumber | src/EvernightAI/application/agent_recovery.py:160-175 | one more than the greatest number any round used for the call id |
| RunObjects.AllResumable | src/EvernightAI/application/agent_recovery.py:91-111 | the tool_replay_ready test over the incomplete calls |
| RunObjects.Registers.AppendEvent | src/EvernightAI/application/agent_runs.py:726-730 | an event is stored under the next sequence number and nothing else changes |
| RunObjects.Registers.MarkStartedUnknown | src/EvernightAI/application/agent_recovery.py:532-542 | exactly the STARTED attempts become UNKNOWN, one write each |
| RunControl.RunManager.Pause | src/EvernightAI/application/agent_runs.py:158-176 | only a running run is asked to pause; a stopped one is an error |
| RunControl.RunManager.Cancel | src/EvernightAI/application/agent_runs.py:178-217 | the stop event and the CANCELED snapshot, or nothing for a stopped run |
| RunControl.RunManager.ResolveToolExecution | src/EvernightAI/application/agent_runs.py:597-683 | the resolved attempt, its event and the re-judged pause, whose effect `Operators.ResolutionDecides` states; each refusal has its error, in the source's order, and leaves the registers alone |
| RunControl.RunManager.AbandonPause | src/EvernightAI/application/agent_runs.py:322-412 | every open non-replayable unknown attempt is given up, then the retry is noted |
| RunControl.RunManager.MarkFailed | src/EvernightAI/application/agent_runs.py:957-993 | only a running run is stopped as failed |
| RunControl.RunManager.MarkInterrupted | src/EvernightAI/application/agent_runs.py:888-930 | started attempts become unknown, the state is restored, and the run is paused with its eligibility or stored as already stopped |
| Shutdown.Lifecycle.Enter | src/EvernightAI/application/agent_lifecycle.py:94-98 | an execution is admitted and counted, or refused once closing, as the process machine says |
| Shutdown.Lifecycle.Exit | src/EvernightAI/application/agent_lifecycle.py:100-105 | the count goes down, never below zero |
| Shutdown.Lifecycle.Block | src/EvernightAI/application/agent_lifecycle.py:65-84 | closing is set for good, and the call goes on exactly when the count is zero |
| Shutdown.NoneEntersAfterClose | src/EvernightAI/application/agent_lifecycle.py:65-98 | over all interleavings, once a close has begun the executions inside only get fewer |
| Shutdown.ShutdownRunsAlone | src/EvernightAI/application/agent_lifecycle.py:65-92 | the shutdown pause finds no execution and no live copy of any run, so its recovery step runs alone |
| Shutdown.NoneLeftRunning | src/EvernightAI/application/agent_lifecycle.py:107-166 | no run stored by the time of the pause is RUNNING ever again in the process |
| Shutdown.RunningExactly | src/EvernightAI/application/agent_runs.py:414-452 | after the pause a stored run is not RUNNING exactly when it was stored by then, as long as no control call or further pause reaches a later one |
| Shutdown.RefusedStaysRunning | src/EvernightAI/application/agent_runs.py:430-441 | the life of a process in which a run stored after the pause is refused and stays RUNNING |
| RunLoop.Execution.Store | src/EvernightAI/application/agent_runs.py:706-754 | one turn of the persisting loop is one step of the machine: canceled, saved, or paused at a checkpoint |
| RunLoop.Execution.PauseIfRequested | src/EvernightAI/application/agent_runs.py:811-873 | a pause request stops the run at a checkpoint and is carried on past any other event |
| RunLoop.Execution.ConsultLedger | src/EvernightAI/application/agent_execution.py:707-790 | what the ledger serves, refuses or lets run |
| RunLoop.Execution.Launch | src/EvernightAI/application/agent_execution.py:770-800 | STARTED is stored before the tool is called |
| RunLoop.Execution.Fail | src/EvernightAI/application/agent_runs.py:755-772 | the failure path saves the copy, marks a running run failed, and never touches a canceled one |
| RunLoop.Execution.Begin | src/EvernightAI/application/agent_execution.py:275-399 | resuming is one step of the machine, on to the place the state says |
| RunLoop.Execution.RunCall | src/EvernightAI/application/agent_execution.py:456-600 | approvals, start or rejection, execution and outcome of one call drive the machine and leave the loop where the outcome says |
| RunLoop.Execution.ContinueToolLoop | src/EvernightAI/application/agent_execution.py:433-633 | the tool loop ends on (rounds left, calls left), and whatever it does is a run of the machine; it only comes back with the run over: paused, or stopped with its stop event stored last, as done exactly for FINISHED. Without calls it stops with FINISHED, with calls and no round left with TOOL_ROUNDS_EXHAUSTED, unless a cancel comes in between |
| RunLoop.Execution.ContinueAfterRound | src/EvernightAI/application/agent_execution.py:635-674 | so is the follow-up call it is mutually recursive with, and it too comes back with the run over |
| RunLoop.Execution.CloseRun | src/EvernightAI/application/agent_execution.py:626-633 | the end of a run, whatever memories are written on the way: its stop event is the last one, and the status says whether it finished |
| Eligibility.InspectMeans | src/EvernightAI/application/agent_recovery.py:44-128 | a journal that cannot be replayed and a run that has stopped are judged not eligible; any other exactly when it has not begun to end and, with a response, its open calls all await approval or executing them in order meets no unknown outcome and no legacy row; the checkpoint says why |
| Eligibility.InterruptedIsJudged | src/EvernightAI/application/agent_runs.py:888-930 | over every exclusive run, what recovery stores for an interrupted run is resumable exactly when the restored run can go on so |
| Eligibility.UnknownOutcomeWaits | src/EvernightAI/application/agent_recovery.py:91-123 | one open call with a started or unknown, unreleased, non-replayable attempt keeps the run from being resumable |
| Eligibility.ResumableIsResumed | src/EvernightAI/application/agent_execution.py:275-399 | a loaded paused run is resumed exactly when its pause is resumable, without its pause and with exactly its open calls |
| Eligibility.WaitingIsResumed | src/EvernightAI/application/agent_execution.py:486-501 | a run paused for an approval is resumed at that call and those behind it, with the rounds that were left |
| Eligibility.PauseIsHonoured | src/EvernightAI/application/agent_runs.py:811-873 | a requested pause is taken at the next checkpoint event: the run is stored as paused and resumable, with that event and run_paused last, and resuming it works |
| Eligibility.RequestIsCarried | src/EvernightAI/application/agent_runs.py:811-873 | without a request, or behind any other event, the execution goes on where it was going, and a request is kept for the next event |
| Eligibility.LatePauseIsTaken | src/EvernightAI/application/agent_runs.py:741-754 | a request that arrives while the last event is handed on is honoured right behind it, exactly at a checkpoint event |
| Eligibility.FailureIsStored | src/EvernightAI/application/agent_runs.py:755-772 | a failure of a running execution is stored and journalled; a stopped or paused one is saved as it is, a canceled one left alone |
| Eligibility.MarkedFailed | src/EvernightAI/application/agent_runs.py:957-993 | a running run marked as failed from outside is stored so, with run_stopped last and nothing pending; any other is left alone |
| Eligibility.NoMemoryTwice | src/EvernightAI/application/agent_recovery.py:58-73 | over every exclusive run: with the event of a written memory or the reason of a stop behind the stored snapshot, recovery stores a run that nothing resumes, so no memory is written a second time |
| Eligibility.MemoryIsJournalled | src/EvernightAI/application/agent_execution.py:1300-1334 | a written memory is recorded with its event while the run has yet to stop |
| Eligibility.StreamIsStored | src/EvernightAI/application/agent_runs.py:741-772 | however a stream ends, its copy is what is stored, unless the run was canceled or failed behind it |
| Eligibility.ReplayedAwaits | src/EvernightAI/application/agent_recovery.py:206-300 | a restored run awaits exactly the approvals asked for since the last response, or the snapshot's when nothing came since |
| Eligibility.ReplayedFinalizes | src/EvernightAI/application/agent_recovery.py:206-300 | a restored run has begun to end exactly when the snapshot had or the journal since records a memory or a stop reason |
| Eligibility.ReplayedPending | src/EvernightAI/application/agent_recovery.py:206-300 | the pending calls of a restored run are all calls of its response when an approval was asked for since, else those of the snapshot when nothing came since, else none |
| Eligibility.ReplayedStopsOnce | src/EvernightAI/application/agent_recovery.py:275-300 | replay adds a stop step only to a run that has none |
| Verdicts.FinishMeans | src/EvernightAI/application/agent_execution.py:582-625 | the run stops with TOOL_ERROR, TOOL_ROUNDS_EXHAUSTED or FINISHED as the loop broke off, ran out of rounds or has no call left, and nothing stays pending in the last two cases |
| Verdicts.StopIsRecorded | src/EvernightAI/application/agent_execution.py:1336-1368 | the run ends with that reason in its journal, and a stop step that is still the last one names the event |
| Verdicts.StopsAreReplayed | src/EvernightAI/application/agent_recovery.py:275-284 | the event with which a run stops, fails or is canceled is replayed to the status and stop reason the run itself was stored with |
| Verdicts.StoppedStays | src/EvernightAI/application/agent_runs.py:697-772 | over every exclusive run, a snapshot has stopped as the last stop event it has taken in says, and has not stopped without one; once stopped it stays so, whatever copies, control calls, recoveries and crashes follow |
| Verdicts.RestoredEndAgrees | src/EvernightAI/application/agent_recovery.py:195-308 | restoring any snapshot ends it as the run has ended exactly when the last stop event since, if any, says what the last one not passed over says |
| Verdicts.RecoveryEndsRun | src/EvernightAI/application/agent_runs.py:888-930 | recovery stores a run whose stop event made it into the journal and no snapshot as stopped just so, and any other as paused |
| Verdicts.StepsNameTheirEvents | src/EvernightAI/application/agent_recovery.py:206-300 | every recorded response, result and error of a stored snapshot names its event, which lies before the watermark |
| Ledger.ClassifierAgreesWithExecutor | src/EvernightAI/application/agent_recovery.py:91-123 | a round is tool_replay_ready exactly when executing its incomplete calls in order never meets an unknown outcome or a legacy row, and no call without a name, which the executor runs past the ledger, has one |
| Ledger.ExecutionIsLocal | src/EvernightAI/application/agent_execution.py:717-827 | executing one call leaves every other call's rows unchanged and its own call runnable |
| Ledger.KeyInjective | src/EvernightAI/application/agent_execution.py:760-786 | within a run an idempotency key names exactly one call of one round |
| Operators.PlanMeans | src/EvernightAI/application/agent_recovery.py:178-192 | a call is refused exactly for a legacy row or a latest attempt of the round that is started or unknown, non-replayable and not released for a retry; it runs exactly when its tool is known and none is concluded |
| Operators.OutcomeIsServed | src/EvernightAI/application/agent_execution.py:717-827 | the outcome of a dispatched attempt is what the same call of the round is served from then on |
| Operators.OutcomeIsTold | src/EvernightAI/application/agent_execution.py:515-581 | a tool's result or error text is what the step behind it tells the model, and what the ledger row keeps |
| Operators.ServedOutcomeIsTold | src/EvernightAI/application/agent_execution.py:707-768 | a concluded attempt is told as the ledger holds it, result or error, without calling the tool |
| Operators.RejectionIsTold | src/EvernightAI/application/agent_execution.py:512-581 | the reason of a rejected call is told, and its tool is not called |
| Operators.StartIsJournalled | src/EvernightAI/application/agent_execution.py:503-511 | a tool only runs for a call taken up from the front of its round, whose start is journalled before |
| Operators.ResolutionDecides | src/EvernightAI/application/agent_runs.py:597-683 | resolve and execute: a confirmed attempt is served with exactly the operator's result; a released one runs as a new attempt under the same key |
| Operators.ConfirmedIsTold | src/EvernightAI/application/agent_execution.py:515-581 | resuming at a confirmed call records and tells the model the operator's result, and calls no tool |
| Operators.ResolvedIsReady | src/EvernightAI/application/agent_runs.py:651-664 | when no attempt waits for an operator any more, the open calls are ready to go on exactly when none of them was given up or still counts as started |
| Operators.GivenUpIsRefused | src/EvernightAI/application/agent_runs.py:651-664 | an instance with one that was: the pause is resumable, and going on is refused |
| Operators.AbandonSettles | src/EvernightAI/application/agent_runs.py:340-383 | exactly the attempts waiting for an operator are given up, and none waits any more |
| Operators.AbandonIsNoted | src/EvernightAI/application/agent_runs.py:322-412 | only a paused run that cannot be resumed is given up; then no attempt waits any more, the journal says so, and nothing else of the run changes |
| Operators.StartedBecomeUnknown | src/EvernightAI/application/agent_recovery.py:532-542 | over the whole ledger, the started rows become unknown and every other row is as it was |
| Safety.CanceledIsAbsorbing | src/EvernightAI/application/agent_runs.py:178-217 | once CANCELED is stored, no interleaving of copies, control calls, recovery and crashes changes the snapshot or the journal |
| Safety.CancelStores | src/EvernightAI/application/agent_runs.py:178-217 | a completed cancel of a run that has not stopped stores CANCELED, without a pause and with nothing pending, and run_stopped last; any other run is left alone |
| Safety.AttemptsDispatchedOnce | src/EvernightAI/application/agent_execution.py:707-827 | over every run no attempt is handed to its tool twice |
| Safety.AtMostOnceEffects | src/EvernightAI/application/agent_execution.py:707-827 | a non-replayable call of a round is dispatched at most 1 + RETRY resolutions times |
| Safety.LedgerIdentity | src/EvernightAI/application/agent_execution.py:725-786 | two attempts share a key exactly when they share round and call id; numbers rise in creation order over all rounds |
| Safety.RunsAreOk | src/EvernightAI/application/agent_execution.py:707-827 | the ledger invariant holds in every reachable state |
| Exclusive.RunsInStep | src/EvernightAI/application/agent_runs.py:697-772 | every snapshot and live copy is a view of the journal up to its watermark |
| Exclusive.CrashReplayAgreement | src/EvernightAI/application/agent_recovery.py:195-308 | restoring any snapshot from the journal never fails, and agrees with the run exactly when no progress since that snapshot was orphaned, that is, when the run's own trace holds all of it; then it never loses rounds |
| RoundBudget.UntornReplayAgrees | src/EvernightAI/application/agent_recovery.py:195-308 | in untorn live runs replay agrees on progress and response, and never loses rounds |
| RoundsLeft.RoundsLeftExactly | src/EvernightAI/application/agent_recovery.py:206-222 | there it restores exactly the rounds left, if and only if the round is not charged since its response was recorded, or the snapshot belongs to the round and is charged as often |
| RoundsLeft.RoundsLeftByPlace | src/EvernightAI/application/agent_execution.py:635-674 | when the last result of a round is stored every snapshot restores exactly the rounds left; during the follow-up every one restores more, unless none were left |
| Recoveries.RoundsStayInBudget | src/EvernightAI/application/agent_execution.py:433-674 | over every exclusive run, the responses of every stored snapshot plus its rounds left, never negative, stay within max_tool_rounds + 1 and tools run in the first max_tool_rounds rounds only, exactly when every completed recovery starts from a snapshot whose responses, those behind it and the rounds left stay within it |
| Recoveries.TranscriptStaysInProtocol | src/EvernightAI/application/agent_execution.py:456-612 | over every exclusive run with sane inputs, results are always an in-order prefix of their round's calls, exactly when every completed recovery finds at most one event behind its snapshot |
| RoundBudget.JournalStaysInBudget | src/EvernightAI/application/agent_execution.py:433-674 | in untorn runs the journal itself holds at most max_tool_rounds + 1 responses |
| Recoveries.TranscriptSurvivesRuns | src/EvernightAI/application/agent_execution.py:1049-1079 | while each recovery found at most one such event, the organizer returns what it returns of the request and all complete rounds of the run, so the transcript unchanged exactly when it returns the request unchanged and no call is unanswered; FINISHED leaves none, TOOL_ROUNDS_EXHAUSTED always some; a copy that has ended the run holds it as done exactly when no call is left and no tool error broke it off |
| RoundBudget.TornResumeDisagrees | src/EvernightAI/application/agent_runs.py:720-737 | resuming a torn run makes replay and run disagree |
| TornRuns.TornRunsHaveNoBudget | src/EvernightAI/application/agent_runs.py:720-737 | for every number there is a torn run, well behaved otherwise, whose stored snapshot holds that many responses |
| ChargedTwice.InterruptedFollowUpChargesTwice | src/EvernightAI/application/agent_execution.py:635-647 | a run, through the end of a round, an interruption, recovery and resume, that has two rounds fewer left than a stored snapshot restores |
| Legacy.GreatestSequence | src/EvernightAI/application/agent_recovery.py:329-335 | the watermark a snapshot without one gets: the greatest sequence of its trace, or none |
| Legacy.AlignSteps | src/EvernightAI/application/agent_recovery.py:354-379 | the nested loops take the first match behind the last one for every progress step |
| Legacy.CheckpointTail | src/EvernightAI/application/agent_recovery.py:336-383 | pruned, unaligned or broken journals are refused, otherwise the events behind the last aligned step are the tail |
| Legacy.AlignsExactly | src/EvernightAI/application/agent_recovery.py:354-406 | the steps are aligned exactly when some events match them in order or the journal has no response, and no such matching ends earlier |
| Legacy.LegacyTailIs | src/EvernightAI/application/agent_recovery.py:336-383 | a legacy snapshot of the journal's own run is never refused, and its tail starts no later than its watermark would say |
| Legacy.LegacyTailMeans | src/EvernightAI/application/agent_recovery.py:336-390 | an accepted tail starts behind the last aligned step and is numbered without a gap; a journal not kept from its first event on is only accepted when every step names its event |
| Legacy.MissedNothing | src/EvernightAI/application/agent_recovery.py:354-406 | a snapshot that missed no progress is aligned behind all progress up to its watermark |
| Legacy.LegacyRestoresTheSame | src/EvernightAI/application/agent_recovery.py:195-417 | without watermark, event ids and trace a snapshot is restored to the same progress as with them exactly when no progress stands between its last aligned event and its watermark, and then to the same response and rounds left |
| Legacy.LegacyReplaySplits | src/EvernightAI/application/agent_recovery.py:195-417 | so for every snapshot of every exclusive run |
| Legacy.LegacyReplayAgrees | src/EvernightAI/application/agent_recovery.py:195-417 | in untorn live runs that always holds: restored so, every snapshot agrees with the run |
| Legacy.OrphanIsTakenIn | src/EvernightAI/application/agent_recovery.py:354-383 | a snapshot and journal for which it does not: an orphaned response is replayed |
| Approvals.RoundToolApprovals | src/EvernightAI/application/agent_execution.py:1116-1128 | the dictionary holds, per call id, the last decision listed for the round |
| Approvals.MergeToolApprovals | src/EvernightAI/application/agent_execution.py:1130-1145 | the loops build the merged list, one decision per round and call id |
| Approvals.MergeDecides | src/EvernightAI/application/agent_execution.py:1130-1145 | a merge changes the decision in force for calls of its own round only, to the last one given |
| Approvals.ApprovalsAreScoped | src/EvernightAI/application/agent_execution.py:286-312 | over any resumes, the decision in force for a call is the last one a resume in its own round brought, or else the request's |
| Approvals.NoCarryOver | src/EvernightAI/application/agent_execution.py:1116-1145 | a call is decided exactly when a resume in this very round, or the request for it, decides it, whatever other rounds that reuse its id decided |
| Approvals.ResponsesComeInRounds | src/EvernightAI/application/agent_execution.py:300-308 | in every exclusive run a snapshot with a response is in a round from 1 on, as merging takes for granted |
| Approvals.ResumeApprovals | src/EvernightAI/application/agent_execution.py:305-324 | refused with exactly the pending calls nobody decided in this round, or the merged decisions |
| Protocol.IncompleteIsPending | src/EvernightAI/application/agent_execution.py:347-399 | the calls a resume finds incomplete are exactly the unanswered suffix of the last response |
| Protocol.RunTranscript | src/EvernightAI/application/agent_execution.py:1067-1079 | the loop builds the request's messages followed by the recorded ones |
| Protocol.TranscriptSurvives | src/EvernightAI/core/domain/context.py:251-309 | the transcript of a run in protocol survives exactly when its request does and nothing is pending |
| Protocol.OnlyOpenRoundIsLost | src/EvernightAI/core/domain/context.py:251-309 | whatever the request, of the messages of a run in protocol exactly those of a last round without all its results are dropped |
| Context.FollowingToolMessages | src/EvernightAI/core/domain/context.py:287-309 | the loop returns the longest run of new answers |
| Context.FollowingComplete | src/EvernightAI/core/domain/context.py:287-309 | all calls are counted as answered exactly when the next messages answer each once, in any order |
| Context.ToolProtocolSafeMessages | src/EvernightAI/core/domain/context.py:259-285 | the loop computes the filter |
| Context.FilterIsWellFormed | src/EvernightAI/core/domain/context.py:259-285 | the filter's output follows the tool protocol |
| Context.FilterFixesExactly | src/EvernightAI/core/domain/context.py:259-285 | the filter changes nothing exactly on transcripts that follow the protocol, and is idempotent |
| Context.FilterAcross | src/EvernightAI/core/domain/context.py:259-309 | filtering two transcripts apart is filtering them together, wherever the second does not start with a tool message |
| Context.FilterIsSubseq | src/EvernightAI/core/domain/context.py:259-285 | the filter only drops messages |
| Context.MessageGroups | src/EvernightAI/core/domain/context.py:684-706 | the loops compute the groups |
| Context.GroupsFlatten | src/EvernightAI/core/domain/context.py:684-706 | grouping loses, adds and reorders nothing |
| Context.GroupsAreBlocks | src/EvernightAI/core/domain/context.py:684-706 | in a protocol transcript a group is one call with exactly its answers, or one plain message |
| Trimming.WithinBudget | src/EvernightAI/core/domain/context.py:477-539 | the token budget loops select and report what the greedy choice says |
| Trimming.PreserveSystemPrefix | src/EvernightAI/core/domain/context.py:628-681 | the window loops make the same choice with every message costing 1 |
| Trimming.TrimIsBoundedAndMaximal | src/EvernightAI/core/domain/context.py:477-539 | the result exceeds the limit exactly when a named reason says why; no dropped group would fit; some group is kept |
| Trimming.TrimIsGreedy | src/EvernightAI/core/domain/context.py:628-681 | a group is kept exactly when it is protected, fits beside the newer kept ones, or is the newest with nothing protected |
| Trimming.ReasonsMean | src/EvernightAI/core/domain/context.py:477-539 | each degradation reason is given exactly when it holds: the system prefix, with it the protected groups, or the newest group when nothing is protected, is too long; something was dropped |
| Strategies.TailGroupsByMessageCount | src/EvernightAI/core/domain/context.py:716-730 | the loop keeps the tail the function names |
| Strategies.TailIsLongest | src/EvernightAI/core/domain/context.py:716-730 | that tail is the longest within the limit, at least one group |
| Strategies.StackKeepsMeaning | src/EvernightAI/core/domain/context.py:398-539 | any stack of trims keeps order, the system prefix, the surviving current turn and whole tool calls, and refiltering changes nothing |
| Strategies.OrganizeKeepsOrder | src/EvernightAI/core/domain/context.py:212-257 | what is organized is the active messages of the history and then of the current turn, in their order |
| Strategies.MemoryIsShown | src/EvernightAI/core/domain/context.py:316-355 | the memory message stands right behind the system messages, and every stack shows it there |
| Strategies.LayerIsBounded | src/EvernightAI/core/domain/context.py:398-475 | the outermost window or budget is exceeded exactly when what it may not drop, or the newest group when nothing is protected, is too long already |
| Strategies.AnyStackIsWellFormed | src/EvernightAI/core/domain/context.py:560-600 | with summarising anywhere in the stack the output still follows the protocol and keeps the prefix |
| Strategies.SummaryKeepsTurn | src/EvernightAI/core/domain/context.py:560-600 | summarising keeps every protected message exactly when there is nothing to summarise or the groups from the first of them on fit into the kept tail |
| Strategies.SummaryAccounts | src/EvernightAI/core/domain/context.py:560-600 | the summary is made of exactly the messages it takes the place of, and what stays is the longest tail of whole groups that fits, at least one; nothing is summarised otherwise |
| Strategies.StackKeepsTurn | src/EvernightAI/bootstrap/runtime.py:365-400 | any stack keeps every surviving current-turn message exactly when each summarising layer has room for it |
| Strategies.TurnIsShown | src/EvernightAI/bootstrap/runtime.py:365-400 | every message the organizer leaves of the current turn is shown by each stack whose summarising layers have room for it, so by each that only trims |
| Strategies.SummaryMayDropCurrentTurn | src/EvernightAI/core/domain/context.py:560-600 | an instance in which it has not |
| Bitmaps.ValidPng | src/EvernightAI/core/domain/image_attachment.py:32-63 | true exactly for the signature followed by the serialisation of an acceptable chunk list |
| Bitmaps.ChunkRoundTrip | src/EvernightAI/core/domain/image_attachment.py:36-47 | a serialised chunk is read back whatever surrounds it |
| Bitmaps.GoodMeansRemaining | src/EvernightAI/core/domain/image_attachment.py:48-63 | the flags of the loop mean: header first, data later, one empty IEND last |
| Jpegs.ValidJpeg | src/EvernightAI/core/domain/image_attachment.py:66-114 | true exactly for marker segments whose last frame header is long enough, then a scan whose first end-of-image marker ends the file |
| Jpegs.SegmentRoundTrip | src/EvernightAI/core/domain/image_attachment.py:77-113 | a written segment, with any fill bytes, is read back whatever surrounds it |
| Bitmaps.ValidWebp | src/EvernightAI/core/domain/image_attachment.py:117-144 | true exactly for a RIFF file of padded chunks, of the declared size, with an image chunk |
| Sse.RequestSse | frontend/src/api/client.ts:118-138 | the emitted events are those of the whole text, however it was cut into reads |
| Sse.SplitGrows | frontend/src/api/client.ts:124-132 | splitting a longer buffer is splitting the open rest with the new text |
| Sse.ChunkInvariance | frontend/src/api/client.ts:118-138 | feeding chunks one at a time emits the parts of the concatenation and leaves the same buffer |
| Sse.EmitSsePart | frontend/src/api/client.ts:195-220 | the line loop computes the event of a part |
| Sse.StreamsArriveWhole | src/EvernightAI/interface/http/sse.py:143-158 | every event the server formats is emitted once, in order, through any cutting |
| Sse.DataArrivesUnchanged | src/EvernightAI/interface/http/sse.py:152-154 | data arrives unchanged exactly when its only boundaries are inner line feeds |
| Sqlite.Connection.Transaction | src/EvernightAI/infra/sqlite.py:132-162 | the context manager issues exactly the commands of the block, and raises again what the block raised |
| Sqlite.ProgramIsKept | src/EvernightAI/infra/sqlite.py:132-162 | the database ends with exactly the writes of blocks that exited normally with all blocks around them |
| Sqlite.CrashIsAtomic | src/EvernightAI/infra/sqlite.py:132-162 | a crash inside an outermost transaction loses all of it |
| Sqlite.RunMigrations | src/EvernightAI/infra/sqlite.py:185-220 | the migration loop leaves the database the function names |
| Sqlite.MigrationsCommitOnce | src/EvernightAI/infra/sqlite.py:185-220 | after any crashed runs and one complete run every missing migration is committed once, in order, and recorded |
| ImageTasks.ImageTaskStore.Create | src/EvernightAI/core/domain/image_task.py:58-75 | stored, already there, or refused with the source's errors in its order |
| ImageTasks.ImageTaskStore.Claim | src/EvernightAI/core/domain/image_task.py:114-130 | the oldest queued task by (created_at, task_id), or none when none is queued |
| ImageTasks.ImageTaskStore.Renew | src/EvernightAI/core/domain/image_task.py:132-139 | only the worker that holds the running task renews |
| ImageTasks.ImageTaskStore.Finish | src/EvernightAI/core/domain/image_task.py:141-152 | only the worker that holds the running task finishes |
| ImageTasks.ImageTaskStore.RecoverExpired | src/EvernightAI/core/domain/image_task.py:154-159 | exactly the running tasks with an expired or missing lease are interrupted |
| ImageTasks.LeaseProtects | src/EvernightAI/core/domain/image_task.py:114-159 | a claimed or renewed task stays with its worker over recovery exactly until its lease ends, and is interrupted from then on |
| ImageTasks.RecoverySpares | src/EvernightAI/core/domain/image_task.py:154-159 | recovery leaves a task alone exactly when it is not running or its lease still is |
| ImageTasks.RunsAreKeyed | src/EvernightAI/core/domain/image_task.py:58-159 | in every state of a run each task is stored under its own id, which claiming relies on |
| ImageTasks.ClaimedAtMostOnce | src/EvernightAI/core/domain/image_task.py:114-152 | every run whose workers finish with a given set of statuses claims no task more often than it was created, if and only if QUEUED is not among them |
| ImageTasks.OlderIsClaimedFirst | src/EvernightAI/core/domain/image_task.py:114-130 | of two tasks queued together the older is claimed first |
| ImageTasks.RecoveredIsLost | src/EvernightAI/core/domain/image_task.py:132-159 | after recovery nobody holds the task until it is removed |
| ImageTasks.ActiveIsBounded | src/EvernightAI/core/domain/image_task.py:58-75 | no owner ever has more than ten queued or running tasks, as long as no unfinished task is handed to another owner |
| ImageTasks.BoundNeedsFinalStatuses | src/EvernightAI/core/domain/image_task.py:141-152 | whatever owners are written, the bound holds in every run if and only if all statuses finished with are final |
| ImageTasks.FinishingAsQueuedClaimsTwice | src/EvernightAI/core/domain/image_task.py:141-152 | the run in which a task finished as QUEUED is claimed twice |
| Memories.Select | src/EvernightAI/core/domain/memory.py:221-282 | the loops compute filter, sort, deduplication and limit |
| Memories.SelectionIsCanonical | src/EvernightAI/core/domain/memory.py:221-282 | for distinct ids the selection is the same for every order of the input |
| Memories.DuplicatesAreRepresented | src/EvernightAI/core/domain/memory.py:239-253 | no two kept keys are equal, and every match has a kept duplicate of at least its scope's rank |
| Memories.SelectionIsRanked | src/EvernightAI/core/domain/memory.py:221-282 | the selected memories are none of those ruled out, more specific scopes first and within a scope in the promised order of the sort, no more than the limit, and what the limit cut off comes after all of them |
| Memories.KeysMean | src/EvernightAI/core/domain/memory.py:416-450 | sort keys put a more specific scope first, and within one the higher priority, relevance, confidence, time or score that the sort asks for |
| Transcripts.ReconcileRunTranscript | frontend/src/domain/chat.ts:327-445 | the loops compute the reconciled transcript, of which `Activities.OutcomesAreShown`, `Activities.ApprovalsAreShown` and `Activities.EachIsShownOnce` say what it shows |
| Transcripts.ExtendsAll | frontend/src/domain/chat.ts:132-306 | live events only touch the run's own entries and keep them after everything else |
| Transcripts.TranscriptConverges | frontend/src/domain/chat.ts:327-445 | lost, doubled or reordered live events do not matter after reconciling, and reconciling again changes nothing |
| Transcripts.ReconcilingTwice | frontend/src/domain/chat.ts:327-445 | reconciling with a snapshot that has events is idempotent on any transcript, also when the run shows nothing |
| Activities.OutcomesAreShown | frontend/src/domain/chat.ts:327-445 | after reconciling any transcript, a call whose last tool event is a result is shown as completed with that result, an error as failed with its text, and one started last as running, or unfinished once the run has stopped |
| Activities.LastEventShows | frontend/src/domain/chat.ts:132-209 | over any events, a call is shown as the last event about it says |
| Activities.ApprovalsAreShown | frontend/src/domain/chat.ts:327-445 | a pending approval nobody has decided is shown as waiting, and as canceled once the run is |
| Activities.NothingRunsOn | frontend/src/domain/chat.ts:327-445 | nothing of a run that no longer runs is shown as running or streaming |
| Activities.EachIsShownOnce | frontend/src/domain/chat.ts:327-445 | each call of the run has one entry, and a notice is shown exactly for a canceled or failed run, once and last |
| Activities.UnseenOnce | frontend/src/domain/chat.ts:345-352 | the replayed events hold every sequence number of the snapshot once |
| Activities.DeltasAreJoined | frontend/src/domain/chat.ts:132-209 | the pieces of a streamed text are shown joined, in one streaming entry |
| Activities.ResponseTakesPlace | frontend/src/domain/chat.ts:211-256 | the response takes the place of the streamed text: one entry, with the response's text, no longer streaming |
| Activities.ResponseIsShown | frontend/src/domain/chat.ts:211-256 | a response that says something is shown by an entry of the run that no longer streams |
| Activities.CompletedOnce | frontend/src/domain/chat.ts:211-256 | a response that comes twice in a row is shown once |

## Left out

- Exclusive.CrashReplayAgreement: one executor per run, as the run executor's lease enforces; loading, recovery, failure marking and operator resolution happen while no execution of the run lives, pause and cancel at any time. The lease code itself is not part of this model.
- RoundBudget.JournalStaysInBudget: for untorn runs only; a journal keeps what was orphaned, so it has no bound of its own.
- RoundsLeft.RoundsLeftExactly: for untorn runs with sane inputs; `Exclusive.CrashReplayAgreement` gives the inequality for all exclusive runs.
- RunObjects.RunState.CheckpointTail: snapshots with a watermark; `Legacy.CheckpointTail` is the branch without one.
- RunObjects.RunState.Wake: without the merge of approvals and its error for a missing one, which `Approvals.ResumeApprovals` models; in the run itself what is approved is an outcome of the environment.
- RunLoop.Execution.Begin: as for `RunObjects.RunState.Wake`.
- RunLoop.Execution.RunCall: what the safety policy decides and what an operator approves is any outcome.
- Safety policy decisions and what they make of an approval are any outcome; approval request and decision events come one at a time.
- Runs without a tool execution register: the model always has a ledger; calls without a name pass it by, as in the source.
- Abandoning attempts writes them in ledger order, the source in order of first appearance of the call id; the rows written are the same.
- Provider calls, tool bodies, skill checks, memory contents, usage, timestamps, durations, failure details and trace summaries have no effect on the properties and are left out.
- Pruning the trace itself.
- `get_state` adds pending text deltas to the trace it returns; the model loads the stored snapshot as it is.
- SQL text, WAL, retries of a busy database, column backfills, and other processes migrating at the same time.
- Token estimates are any function from messages to natural numbers; numbers in memory sort keys are reals.
- Text functions (case folding, lexical match, CRC-32, the summarizer) are parameters; a summarizer is taken to return a message that is neither a tool message nor a tool call, nor one of the current turn's own.
- Listing of image tasks, memory scores, degradation metadata other than the reasons, and the web client's history restore.
- UTF-8 decoding of a stream cut inside a character: the reader is modelled from decoded text on.
