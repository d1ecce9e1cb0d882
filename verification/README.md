# NectarPilot core: a verified model

NectarPilot is a desktop automation supervisor: a daemon that accepts commands over a pipe, runs one
guarded automation task at a time, drives a legacy compatibility session, reads the screen, sends
input to one adopted window and keeps its data in a small database. This project models the
platform-neutral logic of that daemon and proves what its code and documentation promise. Everything
outside that logic (the window system, OCR engine, compatibility runner, storage engine) is an oracle: its
answers are parameters of the methods, which every claim quantifies over, and an error that a method reports
has its cause in one of them.

| File | What it models |
|---|---|
| `EngineTokens.dfy` | The engine as a concurrent protocol: one step is one access to a shared field, and the steps of any number of commands and workers interleave freely. |
| `Engine.dfy` | The engine object with atomic handlers and worker segments: run state, event log, safe mode. |
| `EngineTypes.dfy` | Run states and task keys, shared by the two engine models and the crash guard. |
| `SessionPlan.dfy`, `SessionTrace.dfy`, `SessionWorker.dfy` | The legacy session: planning, the language of its execution traces, and the worker's nested loops with recovery, deadlines and persisted cooldowns. |
| `InputBroker.dfy`, `TaskPlan.dfy`, `TaskRuntime.dfy` | Guarded input: broker, task plans, and the runtime that executes a plan over them. |
| `EditDistance.dfy`, `TitleMatch.dfy` | Quest titles: the two-row edit distance, ranking, and OCR vocabulary scoring. |
| `Consensus.dfy`, `Contrast.dfy`, `QuestBars.dfy`, `TemplateSearch.dfy` | Screen reading: the temporal gate, percentile contrast stretch, completion bars, template search. |
| `Transport.dfy` | Newline-delimited frames under arbitrary chunking. |
| `Dsl.dfy` | The movement-program validator and the runs of a valid program. |
| `CrashGuard.dfy` | Crash-loop safe mode over whole lives of starts, shutdowns, crashes and acknowledgements. |
| `Store.dfy` | Opening, migrating and backing up the database as file steps with crash points. |
| `Wrappers.dfy` | Shared values and small facts, such as the comparison of names. |

Classes mirror the source's mutable objects, and their methods are proved against functions or ghost
histories; the readable guarantees are lemmas about those functions and histories. A long source function
is split into several methods where one method would be too large a proof.

## What the proofs found

Where the code does not keep a promise on all inputs, the exact condition under which it does is proved.

- **Stranded after a failed release.** `stop` and `shutdown` return early when the emergency release fails,
  after `Stopping` was written. The state then stops matching the worker exactly when nothing was running and
  the state was not `Idle` (`StateStaysInStepIff`); `FailedReleaseStrandsEngine` is a concrete history, and
  `OnlyStopRecovers` says exactly what leaves that state.
- **Late writes.** Handlers write the run state from what they read before, so that with interleaving the
  recorded state can be wrong while token, channel and permit ownership hold all the same. A run passes through
  `Running`, `Paused`, `Recovering` or `Stopping` with no worker left to replace it exactly when a resume, a pause
  or a stop writes that state after the last worker has written its final state (`StrayStateIff` for one step,
  `StrayStateInRun` for runs). It passes through `Idle` over a begun run exactly when a stop that found nothing
  running, or an acknowledgement, makes its last write after a start (`HiddenWorkerIff`, `HiddenWorkerInRun`).
  `LatePauseIsRecorded`, `LateStopHidesWorker` and `LateAcknowledgementHidesWorker` are runs in which these
  happen; in the last one two clients acknowledge one fault, and no stop is involved.
- **Store: no copy left.** A failed migration whose copy back is interrupted leaves nothing that `open` accepts
  exactly when there was no intact last-good copy and the copy tears into an unreadable file; the intact
  pre-migration copy is never consulted (`StuckIff`).
- **Store: contents lost.** Every crash point of an open leads back to the starting, a committed or the
  last-good contents, unless a copy it makes is cut off right after truncation, which is an empty database
  (`CrashKeepsContents`, an equivalence over all disks and tears). The next open accepts that database and
  copies it over the intact last-good file (`TruncatedCopyReplacesLastGood`).
- **Acknowledgement.** An acknowledgement can be reported as failed and leave safe mode on, and yet be in force
  after the next start: exactly when the write was committed and only the backup after it failed
  (`Daemon.AcknowledgeAttention`, `AcknowledgeThenLoad`).
- **Oversized line.** After a line over the limit the reader is at the next line exactly when the piece that
  crosses the limit also ends the line (`Resyncs` in `ReadFrame`). Otherwise the rest of the long line is read
  as a line of its own (`RemainderIsReadAsLine`, next to `OnePieceIsDropped` on the same bytes).
- **Forgotten inputs.** `release_all` forgets an input whose release was refused; the model keeps it as an
  orphan, and what is physically down is always the tracked inputs plus the orphans (`Broker.Valid`, where an
  input is down exactly when the last event sent about it was a press, `HeldIffLastWasPress`).

## Model

| member | source | states |
|---|---|---|
| EngineTokens.StepKeepsInv | crates/nectarpilot-core/src/engine.rs:548-595 | Every single access of any start, stop, pause, resume or acknowledge command or worker keeps the ownership invariant: worker lock, current worker, stored token and channel, and scheduler permits. |
| EngineTokens.RunKeepsInv | crates/nectarpilot-core/src/engine.rs:548-733 | The invariant holds after every interleaving of commands and workers. |
| EngineTokens.AtMostOneWorker | crates/nectarpilot-core/src/engine.rs:571-594 | In no interleaving are two spawned workers unfinished at once. |
| EngineTokens.StoredTokenHasAnOwner | crates/nectarpilot-core/src/engine.rs:579-593 | A stored cancellation token belongs to the unfinished worker or to the run being installed under the worker lock. |
| EngineTokens.WorkingTokenIsStored | crates/nectarpilot-core/src/engine.rs:1389-1391 | Until a worker clears its own token, that token is the stored one, so a stop can reach it. |
| EngineTokens.OnlyTheOwnerClearsItsToken | crates/nectarpilot-core/src/engine.rs:1652-1657 | A stored token leaves its slot only through its own worker's clearing step: no finishing worker clears, and no start overwrites, a successor's token. |
| EngineTokens.OnlyTheOwnerClearsItsSender | crates/nectarpilot-core/src/engine.rs:1652-1657 | The same for the pause channel. |
| EngineTokens.StopCancelsOnlyTheCurrentRun | crates/nectarpilot-core/src/engine.rs:1382-1391 | Only a stop cancels a token, only the stored one, and then its run is unfinished or being installed. |
| EngineTokens.NewRunsStartUncancelled | crates/nectarpilot-core/src/engine.rs:632-656 | A start that stores its token finds the slot empty, no unfinished worker, and a token nobody has cancelled. |
| EngineTokens.PermitsMatchActors | crates/nectarpilot-core/src/scheduler.rs:18-54 | The scheduler's active set is exactly the permits owned by start commands and by workers that have not dropped theirs yet, each by one owner. |
| EngineTokens.PauseReachesOnlyTheCurrentRun | crates/nectarpilot-core/src/engine.rs:1334-1343 | However late a pause or resume sends its flag, it changes one run's flag, and that run is unfinished or being installed. |
| EngineTokens.NewRunsStartUnpaused | crates/nectarpilot-core/src/engine.rs:579-582 | Until a start has stored its pause sender, nobody has paused that run. |
| EngineTokens.SendSetsTheFlag | crates/nectarpilot-core/src/engine.rs:1338-1342 | An accepted send sets the flag of its own channel to the value it sends, and no other flag. |
| EngineTokens.PausedIffLastSent | crates/nectarpilot-core/src/engine.rs:1298-1380 | After any interleaving a run is told to pause if and only if the last value that its channel accepted was a pause. |
| EngineTokens.FlagCommandsAreBegun | crates/nectarpilot-core/src/engine.rs:1298-1380 | A command that sends a pause was begun in `Running`, one that sends a resume in `Paused`, however long ago. |
| EngineTokens.FlagCommandsHaveSent | crates/nectarpilot-core/src/engine.rs:1334-1343 | A pause or resume that is about to write the run state has had its own value accepted by a channel. |
| EngineTokens.FlagCommandsRecord | crates/nectarpilot-core/src/engine.rs:1343-1377 | That write is `Paused` after a sent pause and `Running` after a sent resume. |
| EngineTokens.FlagByItself | crates/nectarpilot-core/src/engine.rs:1298-1380 | A pause or resume that nothing interrupts sends its value to the listening current run and records its state; without one, or refused by the port, it does nothing. |
| EngineTokens.AcknowledgementByItself | crates/nectarpilot-core/src/engine.rs:506-523 | An acknowledgement that nothing interrupts takes effect exactly with something to acknowledge and a store that takes it. |
| EngineTokens.StopMarksByItself | crates/nectarpilot-core/src/engine.rs:1382-1401 | A stop that nothing interrupts cancels the stored token and marks every state but `Idle`. |
| EngineTokens.StopEndsByItself | crates/nectarpilot-core/src/engine.rs:1402-1415 | It goes on to `Idle` exactly if an emergency release and the port agree and no token is stored. |
| EngineTokens.StartsRefusedByThemselves | crates/nectarpilot-core/src/engine.rs:548-571 | A start that nothing interrupts is refused without effect in safe mode, outside `Idle` and while its permit is held. |
| EngineTokens.BusyStartGivesBack | crates/nectarpilot-core/src/engine.rs:563-577 | Over an unfinished worker it gives its permit and the worker lock back and changes nothing. |
| EngineTokens.StartByItself | crates/nectarpilot-core/src/engine.rs:548-595 | In an idle engine out of safe mode it installs a new run: token, channel, permit, worker and handle are those of that run, and the state is `Preflight`. |
| EngineTokens.FinishByItself | crates/nectarpilot-core/src/engine.rs:1652-1657 | A worker that finishes with nothing in between gives back token, channel and permit and leaves its final state. |
| EngineTokens.LatePauseIsRecorded | crates/nectarpilot-core/src/engine.rs:1334-1343 | An interleaving that ends in `Paused` with no unfinished worker: the exact condition for stray states is met by a run. |
| EngineTokens.LateStopHidesWorker | crates/nectarpilot-core/src/engine.rs:1406-1412 | An interleaving that ends in `Idle` with a working worker: the exact condition for hidden workers is met by a run. |
| EngineTokens.LateAcknowledgementHidesWorker | crates/nectarpilot-core/src/engine.rs:506-523 | An interleaving without any stop command that ends so: of two acknowledgements of one fault, the second writes `Idle` over the run started after the first. |
| EngineTokens.StrayStateIff | crates/nectarpilot-core/src/engine.rs:1298-1415 | A step of a reachable engine records `Running`, `Paused`, `Recovering` or `Stopping` with no worker left to replace it if and only if it is the write of that state by a resume, pause or stop and every worker has written its final state. |
| EngineTokens.StrayStateInRun | crates/nectarpilot-core/src/engine.rs:1298-1415 | A whole run passes through such a state if and only if it contains such a step. |
| EngineTokens.HiddenWorkerIff | crates/nectarpilot-core/src/engine.rs:1382-1415 | A step makes the state `Idle` over a begun run if and only if it is the last write of a stop that found no token, or of an acknowledgement, made after a start had begun. |
| EngineTokens.HiddenWorkerInRun | crates/nectarpilot-core/src/engine.rs:1382-1415 | A whole run passes through such a state if and only if it contains such a step. |
| Engine.AutomationEngine.MoveTo | crates/nectarpilot-core/src/engine.rs:1659-1673 | A transition changes the state and publishes one state change with both states, or does nothing when the state is already the target. |
| Engine.AutomationEngine.Publish | crates/nectarpilot-core/src/engine.rs:1675-1683 | Every event gets the next sequence number. |
| Engine.AutomationEngine.StartRun | crates/nectarpilot-core/src/engine.rs:548-740 | Refused in safe mode, outside `Idle`, without port or profile, with a held permit or an unfinished worker, and then without effect; otherwise the new run owns token, channel, task, permit and worker. |
| Engine.AutomationEngine.SetPaused | crates/nectarpilot-core/src/engine.rs:1298-1380 | Pause and resume: refused in the wrong state, for a scan, on a port refusal or without a worker; otherwise one transition. `PauseAcceptedIff` and `ResumeAcceptedIff` say when, over all histories. |
| Engine.AutomationEngine.StopRun | crates/nectarpilot-core/src/engine.rs:1382-1415 | Cancels the stored token, marks `Stopping`, and returns early on a failed emergency release or legacy cancel; goes to `Idle` only when no token is stored. |
| Engine.AutomationEngine.AcknowledgeAttention | crates/nectarpilot-core/src/engine.rs:506-523 | Refused without anything to acknowledge; otherwise clears safe mode and returns to `Idle`. |
| Engine.AutomationEngine.HandleCommand | crates/nectarpilot-core/src/engine.rs:369-527 | A wrong protocol version is rejected without effect; otherwise the command takes its effect and one reply event follows it, and an accepted shutdown publishes a second one. Profile, secret, export and inspection commands publish their result or are refused by the state, the store or a port without effect on the run state. |
| Engine.AutomationEngine.RecordDaemonCrash | crates/nectarpilot-core/src/engine.rs:1687-1705 | Safe mode is entered when the guard trips and the store takes the crash, and never left here. |
| Engine.AutomationEngine.FinishWorker | crates/nectarpilot-core/src/engine.rs:1652-1657 | Clears task, token and channel, writes the final state and drops the run's permit. |
| Engine.AutomationEngine.Do | crates/nectarpilot-core/src/engine.rs:369-1705 | Every command and worker segment takes the object where its ghost history of operations leads, so that the theorems on histories hold of the object. |
| Engine.HistoryKeepsBase | crates/nectarpilot-core/src/engine.rs:369-527 | After any history of commands and worker segments the stored token, channel, task and permit are those of the one unfinished worker, whose presence implies an active state, and the log replays to the state. |
| Engine.StateStaysInStepIff | crates/nectarpilot-core/src/engine.rs:1398-1404 | One operation keeps "active state exactly when a worker is unfinished" if and only if it is not a failed emergency release with nothing running and something to acknowledge. |
| Engine.StateMatchesWorker | crates/nectarpilot-core/src/engine.rs:548-1683 | If emergency releases succeed, then after any history the state is Preflight, Running, Paused, Recovering or Stopping exactly when a worker is unfinished, and safe mode implies that none is. |
| Engine.EngineAgrees | crates/nectarpilot-core/src/engine.rs:548-1683 | The same of the fields of the object at any time: active state, stored token and channel, and unfinished worker agree unless a release has failed. |
| Engine.FailedReleaseStrandsEngine | crates/nectarpilot-core/src/engine.rs:1402-1404 | A concrete history that ends in `Stopping` with no worker. |
| Engine.OnlyStopRecovers | crates/nectarpilot-core/src/engine.rs:1382-1415 | From there the state changes exactly through a stop or shutdown that is not an emergency or whose release succeeds, or through a stored acknowledgement in safe mode, and it goes to `Idle`. |
| Engine.StartAcceptedIff | crates/nectarpilot-core/src/engine.rs:548-595 | After any history a start is accepted if and only if the state is `Idle`, safe mode is off, the store has the profile, and the run needs no port or has one: no earlier run left a permit or worker behind. A refused start changes nothing. |
| Engine.AcceptedStartRuns | crates/nectarpilot-core/src/engine.rs:571-595 | An accepted start leaves `Preflight` and the unfinished worker of a new run with a token nobody has cancelled, the stored token, channel and task of that run, and just its permit. |
| Engine.PauseAcceptedIff | crates/nectarpilot-core/src/engine.rs:1298-1345 | After any history a pause is accepted if and only if the state is `Running`, the unfinished worker is no scan, and a legacy one has a port that agrees; it then changes the state to `Paused` and nothing else, and a refused one changes nothing. |
| Engine.ResumeAcceptedIff | crates/nectarpilot-core/src/engine.rs:1347-1380 | The same for a resume, from `Paused` to `Running`. |
| Engine.StopAcceptedIff | crates/nectarpilot-core/src/engine.rs:1382-1415 | After any history a stop is accepted if and only if an emergency release succeeds and an installed port cancels a running legacy child; the state it leaves is given in all cases. |
| Engine.ShutdownAcceptedIff | crates/nectarpilot-core/src/engine.rs:401-527 | A shutdown does what an emergency stop does, and is accepted if and only if that is and the clean mark is stored. |
| Engine.AcknowledgeAcceptedIff | crates/nectarpilot-core/src/engine.rs:506-523 | After any history an acknowledgement is accepted if and only if there is something to acknowledge and the store takes it; it leaves `Idle` out of safe mode with everything else as it was. |
| Engine.OthersOnlyPublish | crates/nectarpilot-core/src/engine.rs:401-546 | A profile is selected or deleted if and only if the state is `Idle` and its rules and the store agree; these and the remaining commands only publish. |
| Engine.ReplyTellsTheResult | crates/nectarpilot-core/src/engine.rs:369-399 | The reply is a rejection exactly for an error, else an acceptance, and only an accepted shutdown is followed by its ready event. |
| Engine.WorkerRecords | crates/nectarpilot-core/src/engine.rs:1418-1657 | Worker segments record `Running` and `Recovering` as they get there, and an exit leaves its final state, no permit, no token and no channel. |
| Engine.CrashEntersSafeMode | crates/nectarpilot-core/src/engine.rs:1687-1705 | A recorded crash turns safe mode on if and only if the guard trips and the store takes it, publishes it then, and changes nothing else. |
| Engine.KeysKeepKindsApart | crates/nectarpilot-core/src/engine.rs:563-566 | Two runs need the same permit if and only if they are of one profile and of the same kind, or both legacy. |
| Engine.ChangesFollowTheDiagram | crates/nectarpilot-core/src/engine.rs:1659-1673 | Every state change ever published is an edge of the state diagram: runs begin in `Idle`, are paused in `Running`, and fault in active states only. |
| Engine.StopReachesTheWorker | crates/nectarpilot-core/src/engine.rs:1382-1415 | After any history a stop cancels the unfinished worker's token and nothing else, and sees a legacy child exactly when that worker is a legacy one. |
| Engine.ReplayReproducesState | crates/nectarpilot-core/src/engine.rs:1659-1683 | Sequence numbers are contiguous, and replaying the state changes reproduces the state after every prefix of the log. |
| SessionPlan.BuildSessionPlan | crates/nectarpilot-core/src/session.rs:85-153 | Succeeds exactly when the rotation is non-empty, fits and every entry is plannable; then it is Travel, Gather, Reset per rotation with trusted digests; otherwise the first faulty entry decides the error. |
| SessionPlan.PlannableIff | crates/nectarpilot-core/src/session.rs:95-140 | A rotation can be planned if and only if it gathers for a second up to a day, in a known field with a known pattern, and the profile trusts both scripts, the pattern up to ASCII case. |
| SessionPlan.BuildCollectSteps | crates/nectarpilot-core/src/session.rs:169-217 | The same for collect entries: known target, cooldown within bounds, trusted route, at most the step limit. |
| SessionPlan.CollectableIff | crates/nectarpilot-core/src/session.rs:169-217 | A collect can be planned if and only if its target is known, its cooldown is five minutes to a week, and its route is trusted. |
| SessionPlan.PlanHasShape | crates/nectarpilot-core/src/session.rs:85-153 | A built plan repeats Travel, Gather with a time limit, Reset. |
| SessionPlan.StepConsented | crates/nectarpilot-core/src/session.rs:246-252 | Every planned step carries the digest the profile trusts for its script, or the builtin marker. |
| SessionPlan.SameScriptSameDigest | crates/nectarpilot-core/src/engine.rs:762-766 | Two planned steps with one script carry one digest, so preflighting each script once preflights every digest executed. |
| SessionTrace.RanksNondecreasing | crates/nectarpilot-core/src/engine.rs:829-1064 | The executions of a session happen in program order, one after the other. |
| SessionTrace.AtMostTwice | crates/nectarpilot-core/src/engine.rs:958-1061 | A Travel, Reset or Collect step runs at most twice in its cycle, the second time directly after a failure that recovery repaired. |
| SessionTrace.FailureEndsSession | crates/nectarpilot-core/src/engine.rs:1004-1061 | A failed Gather, and any failure that recovery did not repair, is the session's last execution; after a repaired one the same step runs next. |
| SessionTrace.GatherFollowsTravel | crates/nectarpilot-core/src/engine.rs:920-1064 | Each Gather execution has, earlier in its cycle, a succeeded or skipped Travel of its rotation with only passed runs of that Gather in between; all of these have one field deadline, which is the gather time after an instant between that Travel and the first of them. |
| SessionTrace.EarlierStepsCompleted | crates/nectarpilot-core/src/engine.rs:920-1064 | When a step runs, every earlier Travel and Reset of every cycle has passed. |
| SessionTrace.GatherTakesItsTime | crates/nectarpilot-core/src/engine.rs:938-957 | Whatever a session executes after a gather step, in any cycle, starts no earlier than the gather's whole time after the travel to its field, even if the gather itself executed nothing. |
| SessionTrace.GatherFillsItsTime | crates/nectarpilot-core/src/engine.rs:938-996 | In a session that is not paused, executions of the gather follow each other without a gap from the end of the travel until that time is over. |
| SessionTrace.EndMeansAllDone | crates/nectarpilot-core/src/engine.rs:829-1064 | A session that came to the end of its last cycle has, for every cycle, passed every travel and reset and given every gather its whole time. |
| SessionWorker.Winner | crates/nectarpilot-core/src/engine.rs:82-88 | The biased select takes the earliest ready branch, preferring cancellation, session deadline, field deadline and completion in this order. |
| SessionWorker.SessionHost.BoundedCall | crates/nectarpilot-core/src/engine.rs:57-94 | A bounded call ends no later than a second after the session or field deadline, and completes only before the session deadline and uncancelled. |
| SessionWorker.SessionHost.Execute | crates/nectarpilot-core/src/engine.rs:958-985 | One execution runs the planned script with its approved digest inside its deadlines; it ends as its call does, or is cut at a deadline that has passed or after the cancellation. |
| SessionWorker.SessionHost.Fail | crates/nectarpilot-core/src/engine.rs:1004-1061 | A failed step is recovered at most once, and recovery ends as its call does; only a repaired non-Gather step is retried, and every other outcome ends the session with the matching reason. |
| SessionWorker.SessionHost.RunStep | crates/nectarpilot-core/src/engine.rs:920-1064 | One plan step extends the trace soundly and either leaves the session at the next step, a gather only when its time is over, or ends it for a reason that holds: its limit has come, it is cancelled, or its last execution is the failure named. |
| SessionWorker.SessionHost.RepeatStep | crates/nectarpilot-core/src/engine.rs:938-1064 | The executions of a step: a gather repeats until its field deadline, another step passes once, with one retry after a repaired failure. |
| SessionWorker.SessionHost.RunDue | crates/nectarpilot-core/src/engine.rs:856-919 | A due collect runs its script, then the reset, and records its time exactly when both passed and the store takes it; otherwise records and stored times are unchanged and the reason says which failed. |
| SessionWorker.SessionHost.WriteLastRun | crates/nectarpilot-core/src/engine.rs:904-918 | The written time is the current one and keeps the log of records spaced by the cooldown; a refused write changes nothing and ends the session. |
| SessionWorker.SessionHost.RunCollect | crates/nectarpilot-core/src/engine.rs:834-919 | One cooldown check is made and kept: the entry runs completely and is recorded if it is due, and nothing changes if it is not; the session ends only for a reason that holds, an unreadable time or a failing store among them. |
| SessionWorker.CollectDueIff | crates/nectarpilot-core/src/engine.rs:1087-1100 | A collect is due if and only if there is no stored time or its whole cooldown has passed since; a stored value that is no time is an error. |
| SessionWorker.SessionHost.RunCycle | crates/nectarpilot-core/src/engine.rs:829-1064 | One cycle checks every collect, runs the due ones in order and then the plan in order, passing nothing over. |
| SessionWorker.SessionHost.Preflight | crates/nectarpilot-core/src/engine.rs:762-823 | When it succeeds, the port accepted every script, with every digest of the plan and the collects, before anything ran, each asked once; when it fails, the session was cancelled or some script was not accepted. |
| SessionWorker.SessionHost.RunJob | crates/nectarpilot-core/src/engine.rs:742-1064 | A session that is not cancelled and has no trouble with ports, store or stored times starts, and ends only at its time limit or with every step and every collect of every cycle done. |
| SessionWorker.SessionHost.RunSession | crates/nectarpilot-core/src/engine.rs:742-1083 | For every answer of every port: the trace is sound, everything executed was preflighted, records stay spaced and justified, and the counters equal the trace's counts. Without a reason to end early every step is done and every collect considered; a reason holds of the clock, the cancellation, the last execution or the store; and the final state follows from it, or is faulted when the clean-up failed. |
| SessionWorker.SessionHost.StartLegacySession | crates/nectarpilot-core/src/engine.rs:660-740 | Refused if and only if the limits are out of bounds or the profile cannot be planned, and then executes and records nothing; an accepted one runs the profile's plan within its limits, and all of it unless it ends for a reason that holds. |
| SessionWorker.SessionHost.RunSessions | crates/nectarpilot-core/src/engine.rs:834-920 | Over any number of sessions of one profile, two times recorded under one collect key are at least that key's smallest cooldown apart. |
| SessionWorker.SpacedSnoc | crates/nectarpilot-core/src/engine.rs:1087-1100 | A collect that the cooldown check calls due may be recorded without bringing two records of its key too close. |
| InputBroker.ReleasesOnlyShrink | crates/nectarpilot-platform/src/input.rs:189-210 | Releases never add anything to what is physically down. |
| InputBroker.Broker.ReleaseAll | crates/nectarpilot-platform/src/input.rs:189-210 | Sends a release of everything tracked and forgets it: exactly the inputs whose release the sink takes come up, the others become orphans, and it succeeds exactly when there are none of these. |
| InputBroker.Broker.Cancel | crates/nectarpilot-platform/src/input.rs:212-215 | Releases everything and pauses the broker, which then tracks nothing. |
| InputBroker.Broker.Dispatch | crates/nectarpilot-platform/src/input.rs:155-187 | A valid event is sent exactly when the target answers as the foreground, the broker is ready and the sink takes it, and each refusal has the error of its cause; any later failure releases everything and pauses. |
| InputBroker.Broker.EnsureForeground | crates/nectarpilot-platform/src/input.rs:217-223 | The check passes exactly when the answer names the exact target. |
| InputBroker.Broker.ResumeAfterFocusCheck | crates/nectarpilot-platform/src/input.rs:149-153 | A paused broker becomes ready exactly when the answer names the exact target as the foreground; the error says whether the query failed. |
| TaskPlan.ValidateTask | crates/nectarpilot-core/src/tasks.rs:193-245 | The first violated rule of a task decides its error; without one the task's duration is added to the plan's. |
| TaskPlan.Validate | crates/nectarpilot-core/src/tasks.rs:187-250 | A plan is accepted exactly when names, counts, confidences, actions and the total duration are within bounds; the name, count and length errors come exactly from their causes, and otherwise the first invalid task decides the error. |
| TaskPlan.PressesArePrefix | crates/nectarpilot-core/src/tasks.rs:338-434 | What has been pressed at any point of a plan is a prefix of what the plan presses. |
| TaskPlan.LaterPresses | crates/nectarpilot-core/src/tasks.rs:338-434 | More has been pressed before a later action than before an earlier one that presses, so the number of presses made identifies the action. |
| TaskPlan.PressTellsAction | crates/nectarpilot-platform/src/task_executor.rs:247-284 | Each key and the left button is pressed by just one direction, control or attack, and only waiting presses nothing. |
| TaskRuntime.RobloxSession.Refresh | crates/nectarpilot-platform/src/session.rs:157-169 | Fails exactly when the window is gone or has another owner, and then changes nothing; otherwise takes over the snapshot, reports exactly whether the geometry changed, and then raises the saturating revision by one. |
| TaskRuntime.NativeTaskRuntime.EnsureReady | crates/nectarpilot-platform/src/task_executor.rs:139-158 | Succeeds exactly for an unchanged, usable window that the session and the broker's query both see in the foreground, each failure with its error; presses nothing. |
| TaskRuntime.NativeTaskRuntime.Detect | crates/nectarpilot-platform/src/task_executor.rs:214-245 | A finding is an answer of the detector, with the current revision and a valid region, directly after a revalidation; any other result has its cause in a detector answer or in the revalidation. |
| TaskRuntime.NativeTaskRuntime.Hold | crates/nectarpilot-platform/src/task_executor.rs:160-201 | Presses at most its own key or button, and a clean broker is clean afterwards on every path, cancelled or not; it fails only for a refused foreground, a refused event or a cancellation. |
| TaskRuntime.NativeTaskRuntime.Perform | crates/nectarpilot-platform/src/task_executor.rs:247-284 | An action makes its one press right after a revalidation that saw an unchanged usable window, or none at all; an error has its cause in an answer of the window system, the sink or the cancellation. |
| TaskRuntime.NativeTaskRuntime.RunAction | crates/nectarpilot-core/src/tasks.rs:407-432 | One action keeps every press authorised and adds its own press or nothing. |
| TaskRuntime.NativeTaskRuntime.RunTask | crates/nectarpilot-core/src/tasks.rs:337-434 | One task: checkpoint, detection, confidence, name, then its actions in normal mode only; a dry run only records intents. A task stops only for a cause: a detection that does not fit it, a failed revalidation, a refused event, or a cancellation. |
| TaskRuntime.NativeTaskRuntime.ReleaseAll | crates/nectarpilot-platform/src/task_executor.rs:291-293 | Afterwards nothing is tracked and what is down are orphans; nothing was pressed. |
| TaskRuntime.NativeTaskRuntime.ExecuteTaskPlan | crates/nectarpilot-core/src/tasks.rs:316-460 | Every press was authorised for the task and action the plan had come to (foreground, revalidated usable window, latest detection of that task's expected name with enough confidence, at least 0.75, and unchanged geometry); presses are a prefix of the plan's, all of them on success; other modes press nothing; every exit of a valid plan leaves nothing down unless a release was refused. Every outcome but success has its cause in an answer from outside or a refused release. |
| TaskRuntime.GoodPlansRunOn | crates/nectarpilot-core/src/tasks.rs:316-460 | If nothing is cancelled, the window stays usable and in the foreground, every event is taken and every task is found, nothing can stop a plan; `ExecuteTaskPlan` then succeeds, and a normal run presses everything the plan presses. |
| TaskRuntime.PressedAction | crates/nectarpilot-platform/src/task_executor.rs:247-284 | A press directly after a revalidation with the detection's geometry is authorised by that detection for the running task's next action. |
| TaskRuntime.WarrantIsUnique | crates/nectarpilot-core/src/tasks.rs:337-434 | What authorises a press is one detection, one task and one action: those at which the plan stands after the presses made before it. |
| TaskRuntime.PermitNames | crates/nectarpilot-core/src/tasks.rs:39-88 | A travel is permitted by a detection of its route anchor only, everything else by one of its own name. |
| TaskRuntime.NoPressKeepsAuthorised | crates/nectarpilot-core/src/tasks.rs:337-434 | Everything that is not a press keeps all earlier presses authorised. |
| EditDistance.NextRow | crates/nectarpilot-core/src/quests.rs:617-625 | The inner loop fills the current row from the previous one. |
| EditDistance.Compute | crates/nectarpilot-core/src/quests.rs:613-628 | The two-row loop with its swaps computes the recursive distance. |
| EditDistance.ScriptCostsAtLeast | crates/nectarpilot-core/src/quests.rs:613-628 | No script of insertions, deletions and substitutions is cheaper than the distance. |
| EditDistance.ShortestScript | crates/nectarpilot-core/src/quests.rs:613-628 | Some script costs exactly the distance. |
| EditDistance.DistanceIsShortest | crates/nectarpilot-core/src/quests.rs:613-628 | The distance is the cost of a shortest edit script. |
| EditDistance.ZeroIffEqual | crates/nectarpilot-core/src/quests.rs:613-628 | The distance is zero exactly between equal texts. |
| EditDistance.Symmetric | crates/nectarpilot-core/src/quests.rs:613-628 | The distance is symmetric. |
| EditDistance.TriangleInequality | crates/nectarpilot-core/src/quests.rs:613-628 | The distance satisfies the triangle inequality. |
| EditDistance.LengthBounds | crates/nectarpilot-core/src/quests.rs:613-628 | The distance lies between the difference of the lengths and the longer length. |
| EditDistance.SimilarityInUnit | crates/nectarpilot-core/src/quests.rs:353-363 | The similarity lies in 0..1 and is 1 exactly for equal texts. |
| EditDistance.SimilarityMeasures | crates/nectarpilot-core/src/quests.rs:353-363 | What it misses to 1 is the distance over the longer length. |
| TitleMatch.DetectQuestTitle | crates/nectarpilot-core/src/quests.rs:305-388 | Past the input checks a title is found exactly when one catalog entry reaches 0.82 and leads every other by 0.08, and then it is that entry. |
| TitleMatch.Ranked | crates/nectarpilot-core/src/quests.rs:368-372 | The first two entries of the descending sort are the maximum and the maximum of the rest. |
| TitleMatch.WinnerIsUnique | crates/nectarpilot-core/src/quests.rs:372-380 | At most one entry can win. |
| TitleMatch.OrderIndependent | crates/nectarpilot-core/src/quests.rs:348-388 | The winner does not depend on the catalog's order. |
| TitleMatch.ExactReadingFound | crates/nectarpilot-core/src/quests.rs:348-388 | An exact reading is found if and only if no other title scores above 0.92, and otherwise nothing is. |
| TitleMatch.TopTwoAreLargest | crates/nectarpilot-platform/src/perception.rs:936-945 | The one-pass fold keeps the two largest similarities of the multiset padded with two zeros. |
| TitleMatch.ActionableReadingIsUnique | crates/nectarpilot-platform/src/perception.rs:909-953 | A reading reaches the action threshold exactly when it equals just one entry, or equals none and contains just one or is at least 0.82 similar to one that leads every other by 0.08. |
| TitleMatch.ConfidenceTiers | crates/nectarpilot-platform/src/perception.rs:909-953 | An equal reading scores 0.92, a contained one 0.88, a near one 0.78 to 0.90 in proportion to its similarity above 0.82, and any other 0.5. |
| Consensus.TemporalConsensus.Push | crates/nectarpilot-platform/src/perception.rs:454-459 | The deque always holds the last window of all observations. |
| Consensus.TemporalConsensus.Observe | crates/nectarpilot-platform/src/perception.rs:380-448 | Found exactly when the newest frame is a valid finding at threshold and enough of the last window of observations are such frames with its value; the confidence is their average, between the threshold and 1. |
| Consensus.AgreementIsRecent | crates/nectarpilot-platform/src/perception.rs:380-459 | Agreement always involves an earlier frame inside the window. |
| Consensus.AverageWithin | crates/nectarpilot-platform/src/perception.rs:435-437 | The average of confidences in an interval lies in it. |
| Consensus.AgreeingCounts | crates/nectarpilot-platform/src/perception.rs:405-430 | The agreeing frames are all frames of the window with that value: their number is that of these indices. |
| Consensus.AgreeingSplits | crates/nectarpilot-platform/src/perception.rs:405-430 | Each is counted with its own confidence: splitting the window splits the confidences that are averaged. |
| Consensus.RecentIsNewest | crates/nectarpilot-platform/src/perception.rs:454-459 | The window holds the newest observations, in order. |
| Contrast.BuildHistogram | crates/nectarpilot-platform/src/perception.rs:654-659 | Each bin counts the pixels with that luma. |
| Contrast.PercentileLevel | crates/nectarpilot-platform/src/perception.rs:699-709 | The loop returns the first level at or below which more than floor(total * p / 100) values lie, and 255 without one. |
| Contrast.LevelIsSortedElement | crates/nectarpilot-platform/src/perception.rs:699-709 | That level is the element at this index of the sorted luma values. |
| Contrast.LevelsOrdered | crates/nectarpilot-platform/src/perception.rs:660-665 | A larger index never gives a lower level. |
| Contrast.SpreadShape | crates/nectarpilot-platform/src/perception.rs:666-672 | The stretch table is monotone, 0 up to the low anchor and 255 from the high anchor on. |
| Contrast.SpreadIsProportional | crates/nectarpilot-platform/src/perception.rs:666-672 | Between the anchors a level becomes the byte nearest to its share of the range. |
| Contrast.StretchContrast | crates/nectarpilot-platform/src/perception.rs:653-682 | The anchors are the 1st and 99th percentile, low is never above high, a flat image passes through, and otherwise every channel but alpha goes through the table. |
| QuestBars.ColorsExclusive | crates/nectarpilot-platform/src/perception.rs:1130-1136 | No pixel matches both bar colors. |
| QuestBars.ClassifyRow | crates/nectarpilot-platform/src/perception.rs:1094-1111 | A row belongs to a bar exactly when at least three tenths of its pixels have that color, complete before incomplete. |
| QuestBars.EncodeExpands | crates/nectarpilot-platform/src/perception.rs:1085-1128 | The run-length encoding has maximal runs and expands back to the rows. |
| QuestBars.EncodingIsUnique | crates/nectarpilot-platform/src/perception.rs:1085-1128 | Nothing else does: it is the list of the maximal runs. |
| QuestBars.MachineFollowsRuns | crates/nectarpilot-platform/src/perception.rs:1112-1121 | One step of the state machine follows one step of the encoding. |
| QuestBars.ReadQuestBars | crates/nectarpilot-platform/src/perception.rs:1085-1128 | The bars are the states of the maximal runs of equal coloured rows of length at least three, in order; small images give none. |
| TemplateSearch.SampledOffsets | crates/nectarpilot-platform/src/perception.rs:275-281 | The samples are the multiples of the stride below the maximum, then the maximum. |
| TemplateSearch.SamplesCover | crates/nectarpilot-platform/src/perception.rs:275-281 | They start at 0, increase, and leave no gap wider than the stride. |
| TemplateSearch.SimilarityAt | crates/nectarpilot-platform/src/perception.rs:293-313 | The nested loops stay inside both images and sum the absolute differences. |
| TemplateSearch.DiffIsAbsolute | crates/nectarpilot-platform/src/perception.rs:293-310 | The difference of two bytes is what has to be added to the smaller to get the larger, and does not depend on their order. |
| TemplateSearch.ScoreMeasures | crates/nectarpilot-platform/src/perception.rs:311-313 | What a score misses to 1 is the error over the largest possible one. |
| TemplateSearch.ScoreOrdersByError | crates/nectarpilot-platform/src/perception.rs:311-313 | Scores lie in 0..1 and order placements by error. |
| TemplateSearch.PerfectScoreIffIdentical | crates/nectarpilot-platform/src/perception.rs:293-313 | The score is 1 exactly when the patch is the template. |
| TemplateSearch.FindInGrid | crates/nectarpilot-platform/src/perception.rs:220-228 | The nested loops return the first row-major placement of least error over the samples. |
| TemplateSearch.FindAtScale | crates/nectarpilot-platform/src/perception.rs:194-240 | Refused exactly over the position or comparison budget; otherwise the best sampled placement with a region inside the frame. |
| TemplateSearch.StrideOneIsBruteForce | crates/nectarpilot-platform/src/perception.rs:194-240 | With stride one no placement at all scores higher than the match. |
| TemplateSearch.ConfidenceIsUnique | crates/nectarpilot-platform/src/perception.rs:194-240 | All matches of one search carry the same confidence. |
| TemplateSearch.FindBest | crates/nectarpilot-platform/src/perception.rs:149-192 | The first scale with an error decides the error; without one the result is the first best match over the scales that fit, or nothing when none fits. |
| Transport.Reader.ReadLine | crates/nectarpilot-core/src/transport.rs:165-189 | The line read is the first line of the flat stream, whatever the chunks; too large exactly when its content exceeds the limit; a failing read ends the call exactly when it is one of the reads the line takes, and what was read before it is lost. |
| Transport.Reader.ReadFrame | crates/nectarpilot-core/src/transport.rs:160-197 | A failing read is reported, with the exact rest of the stream. Otherwise: nothing at the end of the stream; a line over the limit is rejected, with the exact rest and the exact condition for being at the next line; an empty line is an error; else the decoded line without one trailing carriage return, and exactly that line was consumed. |
| Transport.LineShape | crates/nectarpilot-core/src/transport.rs:165-189 | A line has no newline, and the line, its newline and what comes after it make up the stream. |
| Transport.RemainderIsReadAsLine | crates/nectarpilot-core/src/transport.rs:165-189 | The end of any oversized line, arriving as a piece of its own, is read as the next line. |
| Transport.OnePieceIsDropped | crates/nectarpilot-core/src/transport.rs:165-189 | The same bytes in one piece are dropped whole. |
| Transport.Writer.WriteFrame | crates/nectarpilot-core/src/transport.rs:139-158 | Writes the payload and one newline; nothing when it cannot be encoded or exceeds the limit; exactly what the I/O error lets through otherwise. |
| Transport.CarriedIffClean | crates/nectarpilot-core/src/transport.rs:139-197 | A payload comes back whole, with nothing after it touched, if and only if it is non-empty, within the limit, without newline and not ending in a carriage return. |
| Transport.SendAll | crates/nectarpilot-core/src/transport.rs:139-158 | Writing a list of values appends their frames in order; the first I/O error leaves the frames before it and the beginning of the one it hit. |
| Transport.ReceiveAll | crates/nectarpilot-core/src/transport.rs:160-197 | Reading such a stream in any chunks returns exactly the written values and then the end, unless a read fails, and then the first of them. |
| Dsl.ValidateSteps | crates/nectarpilot-core/src/dsl.rs:141-225 | The running counter with its early exits accepts a list exactly when every step is sound, the nesting is within 16 and the count so far plus the expanded size is within 10,000; the error is the first fault in program order, by sizes alone. |
| Dsl.ValidateStep | crates/nectarpilot-core/src/dsl.rs:151-222 | The same for one step of any kind. |
| Dsl.ValidateRepeat | crates/nectarpilot-core/src/dsl.rs:178-195 | A repeat charges its body's size once per round, and neither saturation nor overflow changes the verdict. |
| Dsl.Validate | crates/nectarpilot-core/src/dsl.rs:25-42 | A program is accepted exactly when version, name, steps, nesting and expanded size are within bounds; a rejected one gets the version, name or emptiness error, in this order, or the first fault of its steps. |
| Dsl.NestingBoundsChains | crates/nectarpilot-core/src/dsl.rs:141-150 | No chain of bodies, each a step of the one around it, is longer than the nesting that is compared with 16. |
| Dsl.DeepestChain | crates/nectarpilot-core/src/dsl.rs:141-150 | Some chain is as long. |
| Dsl.SizeIsExpanded | crates/nectarpilot-core/src/dsl.rs:141-225 | The size that is compared with 10,000 is the number of steps after unrolling. |
| Dsl.AcceptedRunsAreBounded | crates/nectarpilot-core/src/dsl.rs:141-225 | Every run of an accepted program, complete or aborted, has at most 10,000 leaf steps, each valid, and a bounded total duration. |
| CrashGuard.CrashLoopGuard.Record | crates/nectarpilot-core/src/crash_guard.rs:29-34 | The window after recording is the sorted recent part of the old one with the new crash; tripped exactly at three or more. |
| CrashGuard.CrashLoopGuard.Restore | crates/nectarpilot-core/src/crash_guard.rs:39-51 | The restored window is the sorted part of the stored times that is recent now. |
| CrashGuard.Daemon.Load | crates/nectarpilot-core/src/engine.rs:281-294 | A restored window never turns safe mode on by itself: it follows the stored flag. |
| CrashGuard.Daemon.Start | apps/daemon/src/main.rs:118-124 | A crash is recorded exactly when the previous process did not shut down cleanly and the store committed it; safe mode then follows the store, except after a failed backup. |
| CrashGuard.Daemon.RecordDaemonCrash | crates/nectarpilot-core/src/engine.rs:1687-1705 | Flag and window are committed together and keep standing for the whole history, whichever part of the write fails. |
| CrashGuard.Daemon.AcknowledgeAttention | crates/nectarpilot-core/src/engine.rs:506-523 | Refused exactly without safe mode and without a state to acknowledge; a stored one forgets the window and leaves safe mode; reported as failed although the store has it exactly when only the backup failed. |
| CrashGuard.AcknowledgeThenLoad | crates/nectarpilot-core/src/engine.rs:281-294 | In safe mode, an acknowledgement reported as failed is in force after the next load if and only if its write was committed but not backed up. |
| CrashGuard.Do | apps/daemon/src/main.rs:118-124 | One start, shutdown or acknowledgement of the daemon is one step of a daemon that keeps its whole history. |
| CrashGuard.RunLife | apps/daemon/src/main.rs:118-124 | So is any sequence of them, with any outcome of every write: pruning, persisting and restoring lose nothing. |
| CrashGuard.SettledLife | crates/nectarpilot-core/src/engine.rs:281-294 | In such a life safe mode is exactly what the whole history says. |
| CrashGuard.RecordedIsRecent | crates/nectarpilot-core/src/crash_guard.rs:29-83 | Pruning, persisting, restoring and recording keep exactly the recent part of all unclean starts since the last acknowledgement. |
| CrashGuard.RestoredIsNotNews | crates/nectarpilot-core/src/crash_guard.rs:39-61 | A restored window that trips was already on record as tripped. |
| CrashGuard.TrippedIffThreeClose | crates/nectarpilot-core/src/crash_guard.rs:15-34 | A history trips exactly when three consecutive unclean starts fell within ten minutes. |
| CrashGuard.SafeModeMeaning | crates/nectarpilot-core/src/engine.rs:281-294 | After any such sequence whose last write was not left half done, safe mode is on exactly when, since the last acknowledgement, three consecutive unclean starts fell within ten minutes. |
| CrashGuard.CleanStopIsNoCrash | apps/daemon/src/main.rs:118-124 | After a clean shutdown that was written, a start records no crash, whatever came before. |
| CrashGuard.StartAfterStartIsACrash | apps/daemon/src/main.rs:118-124 | After a start that was written, with no shutdown since, a start records a crash at its own time exactly if the store takes it. |
| Store.SqliteStore.Backup | crates/nectarpilot-core/src/persistence.rs:534-552 | A backup goes through a temporary file, a removal and a rename, never touches the database, and fails exactly when one of its file operations does. |
| Store.BackupNeverLoses | crates/nectarpilot-core/src/persistence.rs:534-552 | At every step of a backup the sidecar is the old one or the new one, or it is away and the temporary file is the whole new one. |
| Store.SqliteStore.Connect | crates/nectarpilot-core/src/persistence.rs:32-39 | An intact database is opened as it is, a missing one as an empty one, and only a corrupt one is replaced, by the last-good copy. |
| Store.SqliteStore.RunMigrations | crates/nectarpilot-core/src/persistence.rs:448-518 | What the versions up to the first failure make of the contents, one by one, is committed; a migration error names the version after the last committed one, whose migration of these contents fails. |
| Store.CommittedInOrder | crates/nectarpilot-core/src/persistence.rs:448-518 | The commits are the contents migrated version by version, each version once. |
| Store.MigrationErrorIff | crates/nectarpilot-core/src/persistence.rs:448-518 | The failure of migration n is reported if and only if the version can be read, everything below n was committed, n is at most 4, and n fails on what that left; a future or unreadable version is reported exactly then. |
| Store.SqliteStore.Open | crates/nectarpilot-core/src/persistence.rs:26-61 | Succeeds if and only if there is something to open, its migrations and the final check succeed and no file operation fails; then the right file (a missing database as empty, an intact one as itself, a corrupt one from last-good), migrated version by version to 4, is in place with an equal last-good copy. A failure of migration n means that the versions below n of the right file succeed and n does not, and leaves the contents the open started from; a corrupt database without last-good is refused untouched, and nothing else is; an I/O error leaves one of the listed databases, and touches last-good only once the migrated contents are in place; every disk state on the way is a state of the trace. |
| Store.SqliteStore.Save | crates/nectarpilot-core/src/persistence.rs:68-94 | A save commits the new contents and then refreshes the last-good copy; it fails exactly when a file operation does, and leaves the old or the new contents. |
| Store.MigratedVersion | crates/nectarpilot-core/src/persistence.rs:448-518 | Migrations without an error end at version 4. |
| Store.OpenKeepsSafe | crates/nectarpilot-core/src/persistence.rs:26-61 | Started with an intact last-good copy, or with a current database whose version can be read, every crash point of an open leaves one of them. |
| Store.SafeForever | crates/nectarpilot-core/src/persistence.rs:26-61 | So does any number of opens and saves, each cut off after any step, and the store can always be opened again. |
| Store.FirstStartForever | crates/nectarpilot-core/src/persistence.rs:26-61 | From no files at all, or any openable store no newer than the program, any number of opens whose migrations succeed and of saves, each cut off after any step, leave a store that can be opened. |
| Store.StuckIff | crates/nectarpilot-core/src/persistence.rs:26-61 | An open can leave nothing openable if and only if it starts without an intact last-good copy, its migrations fail and its copy back tears into an unreadable file; the pre-migration copy then still holds the starting contents. |
| Store.CrashKeepsContents | crates/nectarpilot-core/src/persistence.rs:26-61 | Every crash point of an open leads back to the starting contents, a committed version of them or the last-good copy, if and only if no copy it makes is cut off right after truncation or the empty contents are one of these. |
| Store.TruncatedCopyReplacesLastGood | crates/nectarpilot-core/src/persistence.rs:36 | A restore cut off right after truncation makes the next open replace the intact last-good copy by an empty store. |

## Left out

Premises of the model:

- Numbers are unbounded integers and reals: single-precision rounding of confidences and scores is not modelled, so scores that differ by less than a rounding step count as different here. Integer widths appear only where they can matter (session revision, program size).
- One clock, which does not go back, serves deadlines and persisted times; timers fire exactly, every call takes at least one tick, and what the session worker does between calls takes none. How long a checkpoint waits and what a call comes to are functions of the instant at which they begin. Persisted times and JSON values read back as they were written.
- In `Engine`, handlers and worker segments are atomic, and a crash is recorded only at start-up. `EngineTokens` drops atomicity but not the order of accesses inside one handler, and lets safe mode be entered at any time. The ports of the session worker do not panic, which nothing in the source catches.
- An event that the sink refuses has no physical effect; the order of a batch of releases is arbitrary.
- Names are compared as ASCII; blank means ASCII white space.
- The alias tables from display names to assets, title normalization, whole-word containment, image resampling, the JSON codec and the SQL of each migration are parameters.
- A transaction is one atomic step, opening a missing database creates an empty one, the integrity check of an open fails at first exactly on a corrupt file, and what the final one finds is a parameter.

Weaker than the source, or narrower:

- SessionWorker.SessionHost.RunSessions: fixes one profile; changing cooldowns between sessions is not modelled.
- TaskRuntime.NativeTaskRuntime.ExecuteTaskPlan: an invalid plan returns without a release, as in the source, so its clean-up claim needs a valid plan or a broker that was clean before.
- TemplateSearch.FindBest: the ambiguity rule over several templates, which looks only at the second-ranked match, is left out.
- Dsl.Validate: the positions that errors carry as text are left out.
- Engine.AutomationEngine.HandleCommand: what profile, secret, export and inspection commands do in the store, and which of their own rules, the store or a port refuses them, is one parameter; the details of a reconnect attempt are one worker segment.
- Store.SqliteStore.Open: an I/O error inside the migrations counts as a failure of that version.

Not modelled, because they are user interface, foreign calls or easy members:

- The desktop pages and their shell, and the native capture, OCR, secret protection, job-object and pipe calls.
- Script generation, manifest hashing, asset conversion, and the quest-scan and legacy-service plumbing behind the ports.
- Reconnect policy, emergency hotkeys, freeze detection, process supervision, evidence pruning, INI mapping and movement clamping.
- The quest planner's floating-point scoring and the dynamic-objective parser.
