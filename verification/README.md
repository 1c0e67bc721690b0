# Verified models of the hooop session runtime

A Dafny model of the parts of hooop that hold real state: the preview supervisor, the file watcher, the
session registry with its permission gate, checkpoint and usage figures, the two-tier event store, signed
tokens, sub-agent reconstruction, mention rewriting, rate limiting and path containment. One module per
component; `dafny verify dfyconfig.toml` checks them all.

Asynchronous code is modelled as atomic steps: what runs between two awaits is one step of a state machine,
and timers, child exits, frames and hooks are events that come in any order. Beside each machine stands the
class that changes the same fields in place, as the source does; each of its methods is proved to take
exactly the machine's step, so what is proved about runs of the machine holds for the class. Fields that only
remember what happened (marked in the comments, or `ghost`) are read by no step.

| file | what it is about |
|---|---|
| `PreviewSupervisor.dfy` | overlapping executions of a preview, guarded by a generation counter |
| `WatchScan.dfy` | splitting a directory tree into recursive and shallow watches, under a budget |
| `ArmProtocol.dfy` | arm tokens, pending arms and re-arm timers of the file watcher, one directory at a time |
| `SessionRegistry.dfy` | slots and one-hop aliases through wake, id swap, recovery and teardown |
| `LateFrames.dfy` | the registry when a child outlives its removed slot |
| `PermissionGate.dfy` | asks, waits, early decisions, timeouts, withdrawals, plan turns and who may answer |
| `PermissionRules.dfy` | what the gate and its route decide, as conditions on the ask, the flags and the participant |
| `Checkpoint.dfy` | saving and loading the registry |
| `UsageStats.dfy` | context usage and totals over a frame stream |
| `EventStore.dfy` | hot table and archive: ingest, rotation in two transactions, crash, boot repair, purge |
| `BackupSlots.dfy` | rotating backup slots |
| `PeerToken.dfy` | base64url, signing and verifying, the two token kinds |
| `AgentRuns.dfy` | rebuilding sub-agent runs from the event log |
| `AgentRecords.dfy` | each field of a run's record, read off the rows of the log |
| `FileMentions.dfy` | rewriting `#path` to `@path` outside code |
| `RateLimiter.dfy` | the sliding-window limiter |
| `PathPolicy.dfy` | does a tool's path lie inside the session's directory |
| `JsText.dfy`, `Wrappers.dfy`, `Collections.dfy` | white space and character search, optional values, filters and set sizes |

Where code and comments of the source disagree, the model follows the code. Four such places are results here:
the readiness loop's early exit is never taken (`EarlyExitNeverFires`); `_armToken` keeps the entry of a
directory that is neither live nor mid-arm exactly when its last arm bound no watch and no reconcile took it out
since (`TokenStaysExactlyWhenUnbound`); `deleteSession` expands the aliases after it removed the session, and so
purges the events of the captured id only, whereas a destroy that misses a session swapped to another id still
purges all of its events (`PurgesExactly`); and the age floor of a rotation is kept exactly when no younger row has
an id inside the moved range (`RotationMovesExactlyTheOld`).

## Model

| member | source | states |
|---|---|---|
| PreviewSupervisor.SupersededIsInvisible | plugins/hooop/preview-runner/lib/supervisor.ts:197-254 | whatever happens to an execution whose generation is past, the state, phase, failure, tracked child, set of log entries and every other execution stay as they are |
| PreviewSupervisor.LastExecutionWins | plugins/hooop/preview-runner/lib/supervisor.ts:146-309 | over every interleaving, with no stop pending when the last command is accepted, all that a caller sees at the end is what that command's execution shows when it runs alone on its own events |
| PreviewSupervisor.LastExecutionWinsExactly | plugins/hooop/preview-runner/lib/supervisor.ts:188-213 | the view equals that lone run's on every continuation without a command or stop if and only if no stop and no release was pending when the command was accepted |
| PreviewSupervisor.FailFast | plugins/hooop/preview-runner/lib/supervisor.ts:216-254 | over every interleaving, with stops and releases called at any time after the last command: "failed at step i" means logs of exactly steps 0..i, all before i exited 0 and i did not; "running", "shared" and a failed run command mean every setup step exited 0; until a stop is called, "running" and "shared" also mean the tracked child is the current execution's |
| PreviewSupervisor.FailFastExactly | plugins/hooop/preview-runner/lib/supervisor.ts:127-141 | the claims about failed steps and passed setups hold on every continuation of an accepted command if and only if no release was pending when it was accepted |
| PreviewSupervisor.StopWins | plugins/hooop/preview-runner/lib/supervisor.ts:188-195 | once no execution is current and no stop pending, the slot reads stopped and idle with no child, and late events of old executions never change that |
| PreviewSupervisor.StopTailClobbers | plugins/hooop/preview-runner/lib/supervisor.ts:189-195 | the unguarded tail of `stop` leaves a current execution's view alone if and only if no stop was pending |
| PreviewSupervisor.StartDuringStopIsLost | plugins/hooop/preview-runner/lib/supervisor.ts:189-195 | a concrete run: a start accepted while a stop waits ends up reading "stopped" while its setup runs |
| PreviewSupervisor.EarlyExitNeverFires | plugins/hooop/preview-runner/lib/supervisor.ts:365-377 | in every reachable state a polling execution never finds its child gone with the state still "starting" |
| PreviewSupervisor.RunKeepsInv | plugins/hooop/preview-runner/lib/supervisor.ts:285-309 | what every step of every run keeps: past executions hold no shared field, the tracked child and the current execution's process agree |
| PreviewSupervisor.RestartRunsNoSetup | plugins/hooop/preview-runner/lib/supervisor.ts:161-216 | over every run, from an accepted restart to the next accepted command no setup step is logged and the phase is never a setup phase |
| PreviewSupervisor.RunsItsOwnSpec | plugins/hooop/preview-runner/lib/supervisor.ts:146-254 | "running", "shared" and a failed run command mean that the log holds exactly the commands of the spec's own `setup` (none for a restart), each exited 0, and its `run`; "failed at step i" that it holds those up to i |
| PreviewSupervisor.RunsOnItsPort | plugins/hooop/preview-runner/lib/supervisor.ts:146-186 | the port of an unanswered readiness check and of the lease is the spec's fixed port, else the one the start was given; restarts and rebuilds keep the lease's |
| PreviewSupervisor.LeaseHoldsTheLastStart | plugins/hooop/preview-runner/lib/supervisor.ts:127-186 | in every run a leased spec is that of the last accepted start, with its port |
| PreviewSupervisor.Supervisor.BeginExecution | plugins/hooop/preview-runner/lib/supervisor.ts:197-213 | the synchronous head of `execute`, its plan spelled out, takes exactly the machine's step for the accepted command |
| PreviewSupervisor.Supervisor.FinishStop | plugins/hooop/preview-runner/lib/supervisor.ts:189-195 | the tail of `stop` and of `release` takes exactly the machine's step, whatever the generation |
| PreviewSupervisor.Supervisor.AfterStep | plugins/hooop/preview-runner/lib/supervisor.ts:217-232 | resuming after a setup step: superseded, failed, next step, or the run command, exactly as the machine says |
| PreviewSupervisor.Supervisor.RunProcessClosed | plugins/hooop/preview-runner/lib/supervisor.ts:292-305 | the run command's close handler takes exactly the machine's step |
| PreviewSupervisor.CapturedOutput.StdoutData | plugins/hooop/preview-runner/lib/supervisor.ts:529-537 | whatever both pipes produced so far, each buffer is the end of its own stream up to its cap, and the one flag of the entry says whether either was cut |
| PreviewSupervisor.CapturedOutput.StderrData | plugins/hooop/preview-runner/lib/supervisor.ts:538-544 | the same for the other pipe, with its own cap and the same flag |
| WatchScan.ScanIsPartition | plugins/hooop/sandbox/lib/file-watch.ts:257-327 | for every tree, exclusion set and budget: shallow directories are exactly the visited ones that are not clean, recursive roots exactly the topmost clean ones, each listed once |
| WatchScan.WatchedExactlyOnce | plugins/hooop/sandbox/lib/file-watch.ts:257-327 | each visited directory is shallow or at or below exactly one recursive root, never both; roots do not nest; nothing excluded or skipped lies under one |
| WatchScan.FewestRoots | plugins/hooop/sandbox/lib/file-watch.ts:310-325 | any set of clean directories that covers all clean ones contains the scan's roots, so there is no smaller one |
| WatchScan.BudgetIsExact | plugins/hooop/sandbox/lib/file-watch.ts:286-299 | the walk goes over budget exactly when more than the budget are open; under it all are visited, over it exactly the budget |
| WatchScan.VisitedUnlessPruned | plugins/hooop/sandbox/lib/file-watch.ts:129-138 | within budget the scan visits a directory if and only if the event filter does not prune its relative path (names without slashes or backslashes) |
| WatchScan.IsPruned | plugins/hooop/sandbox/lib/file-watch.ts:129-138 | the accumulator loop answers whether some prefix of the path is excluded |
| WatchScan.Scanner.ScanCwd | plugins/hooop/sandbox/lib/file-watch.ts:257-327 | the walk over shared lists, counter and flag adds exactly what the scan function says |
| ArmProtocol.OnlyDesiredAreWatched | plugins/hooop/sandbox/lib/file-watch.ts:674-734 | in every interleaving at most one arm of a directory is in flight, the pending map says whether one is, and a directory that is watched or about to be is in the last desired set |
| ArmProtocol.CoveredExactlyUnlessDropped | plugins/hooop/sandbox/lib/file-watch.ts:579-608 | a desired directory is watched or about to be if and only if no reconcile left it out since its last arm began and that arm bound some watch |
| ArmProtocol.FlagsAreEvents | plugins/hooop/sandbox/lib/file-watch.ts:674-734 | what the conditions of this module remember is read off the events: since the last arm began, a reconcile left the directory out, the arm bound no watch, or a new directory was seen |
| ArmProtocol.ScanRegistersExactlyUnlessDropped | plugins/hooop/sandbox/lib/file-watch.ts:602-674 | a finished scan swaps its watches in exactly when its token still matches, which is exactly when no reconcile left the directory out meanwhile |
| ArmProtocol.ReentryDuringScanIsLost | plugins/hooop/sandbox/lib/file-watch.ts:693-733 | a concrete run: a directory that leaves and re-enters the desired set during one scan ends up unwatched |
| ArmProtocol.TokenStaysExactlyWhenUnbound | plugins/hooop/sandbox/lib/file-watch.ts:713-734 | in every reachable state a directory that is neither live nor mid-arm still has a token if and only if its last arm bound no watch and no reconcile took it out since; in general a token is there exactly for a watched directory or an arm not dropped that is pending or bound nothing |
| ArmProtocol.TokenOutlivesDirectory | plugins/hooop/sandbox/lib/file-watch.ts:434-446 | a concrete run: after an arm that bound no watch, a reconcile leaves the token of a directory that is neither live nor mid-arm |
| ArmProtocol.NextReconcileHeals | plugins/hooop/sandbox/lib/file-watch.ts:693-734 | with nothing in flight, the next reconcile that wants the directory covers it whenever it, or an ancestor, can be watched |
| ArmProtocol.NewDirectoriesAreRescanned | plugins/hooop/sandbox/lib/file-watch.ts:371-426 | while a directory stays watched, a new directory in it keeps a re-arm scheduled until an arm that began later, and a timer that meets a pending arm waits again |
| ArmProtocol.FileWatch.SyncFileWatchers | plugins/hooop/sandbox/lib/file-watch.ts:713-734 | both loops, in any order of their sets: every directory takes exactly one reconcile step and none influences another |
| ArmProtocol.FileWatch.TrackArm | plugins/hooop/sandbox/lib/file-watch.ts:683-688 | starting an arm changes one directory's entries, as the machine says, and no other's |
| ArmProtocol.FileWatch.FinishArm | plugins/hooop/sandbox/lib/file-watch.ts:602-676 | the part after the scan: discard on a token mismatch, else swap the watches and leave the timers |
| ArmProtocol.FileWatch.RearmTimerFired | plugins/hooop/sandbox/lib/file-watch.ts:371-405 | the timer's callback retries while an arm is pending and never revives an unwatched directory |
| SessionRegistry.OneHopResolution | plugins/hooop/sandbox/lib/active-sessions.ts:583-623 | in every reachable state each slot sits under its own id, resolving twice is resolving once, every alias leads to a live slot, and expanding an id gives exactly the ids that resolve where it does |
| SessionRegistry.SessionsNeverMerge | plugins/hooop/sandbox/lib/active-sessions.ts:1485-1492 | while a slot's child sends frames only as long as the slot is registered: over any later run ids of different sessions never come together, ids of one stay together while it lives, and what stopped resolving never resolves again |
| SessionRegistry.StepsAddAtMostOneId | plugins/hooop/sandbox/lib/active-sessions.ts:2305-2343 | re-keying keeps a session's ids exactly; a swap or a recovery adds exactly the new id |
| SessionRegistry.FailedWake | plugins/hooop/sandbox/lib/active-sessions.ts:1340-1413 | when the spawn of a wake throws, the registry keeps its shape if and only if the wake was refused, pruned the session or had nothing to re-key |
| SessionRegistry.FailedRecovery | plugins/hooop/sandbox/lib/active-sessions.ts:2305-2314 | when the spawn of a recovery throws, no id of the session leads to a slot any more, every other id does as before, and the registry keeps its shape if and only if the session had no alias |
| SessionRegistry.RevokesTheWholeSession | plugins/hooop/sandbox/lib/active-sessions.ts:2440-2459 | shares and previews are revoked for exactly the ids the session had when its destroy began, whatever happens meanwhile |
| SessionRegistry.PurgesExactly | plugins/hooop/sandbox/lib/active-sessions.ts:2377-2459 | whatever happens during the wait of a destroy: the event purge covers the captured id alone when the session was removed, and all ids of the session when the events of the wait left it alive under another id; so it covers all the ids whose shares are revoked if and only if the latter, or there was only one id |
| SessionRegistry.MarkedOnlyByItsDestroy | plugins/hooop/sandbox/lib/active-sessions.ts:2377-2459 | from a session's creation on, under whatever id it lives, its slot is marked as being destroyed if and only if a destroy named one of its ids and no recovery of it came since; created, woken and recovered sessions are unmarked |
| SessionRegistry.SurvivesDestroyExactly | plugins/hooop/sandbox/lib/active-sessions.ts:2440-2459 | whatever happens during the wait of a destroy, an id of the session resolves afterwards if and only if the events of the wait, followed one by one, left the session alive under another id than the captured one, and then under that id; it takes a swap or a recovery from the captured id |
| SessionRegistry.DestroyedNeverComesBack | plugins/hooop/sandbox/lib/active-sessions.ts:2440-2459 | under the same condition: if no swap and no recovery took the session off its id while its destroy waited, ended meanwhile or not, no id it had ever leads to a slot again, in any later run |
| SessionRegistry.SwapDuringDestroySurvives | plugins/hooop/sandbox/lib/active-sessions.ts:2668-2691 | an id swap during that wait leaves the session alive under the new id, marked as being destroyed for good |
| SessionRegistry.Registry.RekeyCanonical | plugins/hooop/sandbox/lib/active-sessions.ts:1485-1492 | the deletions and the loop over the alias map give exactly the re-keyed maps |
| SessionRegistry.Registry.WakeSession | plugins/hooop/sandbox/lib/active-sessions.ts:1340-1449 | refuse, prune, re-key and register exactly as the machine's wake does |
| SessionRegistry.Registry.AdoptId | plugins/hooop/sandbox/lib/active-sessions.ts:3148-3167 | the id-swap block, with the slot its handler holds, registered or not, gives exactly the renamed maps, flat again |
| SessionRegistry.Registry.RecoverWithFreshSession | plugins/hooop/sandbox/lib/active-sessions.ts:2305-2343 | recovery points the old id and all that led to it at the fresh session |
| SessionRegistry.Registry.ExpandSessionIds | plugins/hooop/sandbox/lib/active-sessions.ts:597-623 | the walk over the alias map finds exactly the canonical id and every alias of it |
| SessionRegistry.Registry.FinishDestroy | plugins/hooop/sandbox/lib/active-sessions.ts:2377-2459 | what the rest of a destroy removes, revokes and purges, given what was captured before the wait |
| LateFrames.SessionsNeverMerge | plugins/hooop/sandbox/lib/active-sessions.ts:3148-3167 | with frames of children that outlive their slots as steps: the registry keeps its shape in every run, ids that lead to different sessions never come together later, and ids of one session that both lead to a slot later lead to the same one |
| LateFrames.BackExactlyByLateFrame | plugins/hooop/sandbox/lib/active-sessions.ts:3148-3167 | in every run an id that leads to no slot leads to one again at some later time if and only if a late frame comes from it or to it |
| LateFrames.RemovedComesBackExactly | plugins/hooop/sandbox/lib/active-sessions.ts:2668-2691 | after the removal of a slot whose child lives on, none of the session's ids leads to a slot, and one does again if and only if a late frame names it |
| LateFrames.LateFrameRevives | plugins/hooop/sandbox/lib/active-sessions.ts:3148-3159 | a late frame brings back exactly its two ids, with the removed slot and its mark; one that was being destroyed is refused to every later wake and destroy |
| LateFrames.DestroyedSlotComesBack | plugins/hooop/sandbox/lib/active-sessions.ts:3148-3159 | a concrete run: a session removed by a destroy while its child lives on is put back by a frame with another id, still marked |
| LateFrames.EndedWithItsChildNeverComesBack | plugins/hooop/sandbox/lib/active-sessions.ts:2668-2691 | a session whose child closed before its slot was removed never comes back, whatever late frames of other children come |
| PermissionGate.Rendezvous | plugins/hooop/sandbox/lib/active-sessions.ts:4895-4917 | over all orders of ask, peek, wait, answer, timeout, expiry and withdrawal: a wait settles once, it and any peek get a decision produced for their own id, an id is never both stashed and waited on |
| PermissionGate.NoAskIsDecidedTwice | plugins/hooop/sandbox/lib/active-sessions.ts:4945-4999 | in every run no two accepted replies are to the same ask, on a session's board or on that of a session without a slot, and none is to an ask the gate decided itself |
| PermissionGate.TimeoutSettlesAndLeavesTheCard | plugins/hooop/sandbox/lib/active-sessions.ts:4895-4917 | a timeout settles that wait, removes only that waiter and leaves the ask answerable |
| PermissionGate.EarlyReplyIsKept | plugins/hooop/sandbox/lib/active-sessions.ts:5028-5041 | an accepted reply that finds nobody waiting is what the next wait on that id gets, at once |
| PermissionRules.AskFollowsTheRules | plugins/hooop/sandbox/lib/active-sessions.ts:4447-4854 | in any state, what an ask is told at once and what it leaves: "allow" and "deny" exactly under flat conditions on the tool's name, the two classifiers and the slot's flags; a submitted plan with text opens the one review; tools that work alone put nothing on a board; all else becomes one card, with its fields, on its session's board or the slotless one; no other board, flag or decision changes |
| PermissionRules.AllowedByRuleOrReply | plugins/hooop/sandbox/lib/active-sessions.ts:4447-4854 | in every run a hook is told "allow" right after its ask exactly under that condition, and later without it only when its ask became a card and a participant who may answer that card allowed it in between |
| PermissionRules.RouteFollowsTheRules | plugins/hooop/sandbox/server.ts:397-441 | in every state of a run the route takes a reply if and only if a card with that id is open there and the participant is the host, on a valid device or not, or a peer on a live share of that session that may turn, with the card not critical and either a question or full access; the reply is recorded with the participant's standing, only that card goes, trust grows only by the host's "always"; otherwise nothing changes |
| PermissionRules.CriticalIsAllowedByTheHost | plugins/hooop/sandbox/server.ts:1100-1181 | in every run, when a hook is told "allow", inline or by a wait, on an ask recorded as critical, some earlier request of the run came from the host, as such or on a valid device, and allowed that ask's open card |
| PermissionRules.CriticalBashNeedsTheHost | plugins/hooop/sandbox/lib/active-sessions.ts:4669-4683 | in any slot state a Bash command that counts as critical is allowed only by such a reply, after its ask |
| PermissionGate.PlanTurnsOnlyRead | plugins/hooop/sandbox/lib/active-sessions.ts:4551-4586 | in every run an ask raised through the gate in a plan turn is allowed, inline by the peek or by a wait, only if it is a non-critical listed read-only tool or a question |
| PermissionGate.ReusedIdMeetsItsOwnVerdict | plugins/hooop/sandbox/lib/active-sessions.ts:4493-4508 | in any state, even under an id asked before: the peek after an ask answers exactly what this ask's own verdict decided and others' decisions stay; an id is both parked on and decided exactly when a wait was left over and the verdict decides at once |
| PermissionGate.ApprovedPlanWasApproved | plugins/hooop/sandbox/lib/active-sessions.ts:4752-4761 | every "approved plan" auto-allow is for an ask raised in an open window of its session: an earlier event started a queued turn and nothing closed the window since, and before that some event is the route answering "allow" to a synthetic review of that session |
| PermissionGate.AutoTurnsAreAccounted | plugins/hooop/sandbox/lib/active-sessions.ts:4973-5094 | in every run the auto turns a session started, with those still queued, are exactly as many as its allowed reviews and the questions answered inside an open window |
| PermissionGate.WindowIsOneTurn | plugins/hooop/sandbox/lib/active-sessions.ts:1759-1767 | the auto-allow window of a session is open if and only if a queued turn started and since then came no result frame, ordinary turn, new child or end |
| PermissionGate.PermissionBoard.BeginTurn | plugins/hooop/sandbox/lib/active-sessions.ts:1755-1767 | rewriting the per-turn flags takes exactly the machine's step, and an auto turn uses up one queued turn |
| PermissionGate.ApprovedOnlyByReview | plugins/hooop/sandbox/lib/active-sessions.ts:4973-4998 | a session starts to count as approved only in the step that answers "allow" to a synthetic review on its own board |
| PermissionGate.RunKeeps | plugins/hooop/sandbox/lib/active-sessions.ts:4004-4026 | the invariant of boards, stash, waiters, replies and plan flags holds over every run, and records, replies and settled waits are never rewritten |
| PermissionGate.PermissionBoard.CreatePermissionRequest | plugins/hooop/sandbox/lib/active-sessions.ts:4447-4854 | dropping a stale decision, then deciding, opening a review, entering plan mode or placing a card: the branches in the source's order take exactly the step that `AskFollowsTheRules` describes |
| PermissionGate.PermissionBoard.AnswerRoute | plugins/hooop/sandbox/server.ts:1100-1181 | `checkParticipant`, what a peer may decide and the answer itself, as the machine's route step; a refused request changes nothing |
| PermissionGate.PermissionBoard.RespondToPermission | plugins/hooop/sandbox/lib/active-sessions.ts:4937-5094 | removing the card, trusting, queueing the follow-up turn and notifying or stashing, exactly as the machine's answer step |
| PermissionGate.PermissionBoard.WithdrawPermissionRequest | plugins/hooop/sandbox/lib/active-sessions.ts:4855-4893 | taking a card and its stashed decision back, or reporting that there is none and changing nothing |
| Checkpoint.RoundTrip | plugins/hooop/sandbox/lib/active-sessions.ts:3775-3921 | loading any checkpoint of a registry, its slots in any order, gives exactly the surviving slots as dormant and exactly their aliases |
| Checkpoint.WhatSurvivesARestart | plugins/hooop/sandbox/lib/active-sessions.ts:3775-3921 | exactly the sessions neither expired nor still provisioning, at most thirty days old and allowed in their (migrated) directory come back from any saved file, each field of theirs said; an alias comes back exactly when its session does |
| Checkpoint.SettingsSurviveExactlyWhenDurable | plugins/hooop/sandbox/lib/active-sessions.ts:3823-3899 | a session's settings come back unchanged if and only if they are durable: no empty strings, not the migrated directory, and a preview spec the validator keeps together with the reason "idle"; an idle window of 0 stays 0 |
| Checkpoint.AliasClassSurvives | plugins/hooop/sandbox/lib/active-sessions.ts:3908-3919 | a surviving session keeps its aliases exactly, one that does not survive keeps none |
| Checkpoint.SecondRestartOnlyPrunes | plugins/hooop/sandbox/lib/active-sessions.ts:3775-3921 | a second save and load, at any later time and under any directory policy, with any orders, changes no session and drops exactly those that no longer survive; when only time passed, exactly the ones grown too old |
| Checkpoint.RestartFollows | plugins/hooop/sandbox/lib/active-sessions.ts:3823-3921 | a restart is one more step of the registry: its shape holds, no two sessions merge, nothing that was gone comes back |
| Checkpoint.Sessions.SaveCheckpoint | plugins/hooop/sandbox/lib/active-sessions.ts:3775-3821 | the written file lists every slot worth reviving exactly once, with its settings, aliases and synthetic reviews, and nothing else |
| Checkpoint.Sessions.LoadCheckpoint | plugins/hooop/sandbox/lib/active-sessions.ts:3823-3921 | the loop over entries gives the loaded maps, and reports whether anything was pruned or migrated |
| UsageStats.HandlerIsCorrect | plugins/hooop/sandbox/lib/active-sessions.ts:3394-3475 | after every frame history, across any number of wakes, the incremental fields say what looking back over the history says, totals and turn count included |
| UsageStats.TurnEnd | plugins/hooop/sandbox/lib/active-sessions.ts:3432-3474 | at a billed result the context usage is the last real call since the turn's last boundary, else that boundary's size, else the result's own usage |
| UsageStats.FrameByFrame | plugins/hooop/sandbox/lib/active-sessions.ts:3394-3475 | after any history one frame does exactly this: a result that consumed anything adds each of its four figures to its own total and one turn, a boundary shows its size when positive and leaves the totals, any other frame shows nothing new |
| UsageStats.TurnEndByFrames | plugins/hooop/sandbox/lib/active-sessions.ts:3432-3474 | the three cases of a billed turn's end in terms of the frames' own figures |
| UsageStats.TotalsAccumulate | plugins/hooop/sandbox/lib/active-sessions.ts:2957-2999 | totals do not depend on where a history is cut: a later part adds exactly what its billed results add, wakes or not |
| UsageStats.QuietFramesShowNothing | plugins/hooop/sandbox/lib/active-sessions.ts:3418-3431 | waking and results that billed nothing move no figure |
| UsageStats.Meter.OnFrame | plugins/hooop/sandbox/lib/active-sessions.ts:3094-3475 | after each frame the shown usage and totals are those of the whole history |
| EventStore.TiersAreOneTable | plugins/hooop/sandbox/lib/db.ts:393-464 | over every run of ingests, rotations, crashes between their halves, boots and deletions, hot and archive together hold exactly what a single table would |
| EventStore.RowsSurvive | plugins/hooop/sandbox/lib/db.ts:393-464 | a row of either tier, hashed or not, stays in one of them unchanged until its session is deleted |
| EventStore.BootSeparatesHashes | plugins/hooop/sandbox/lib/db.ts:76-95 | after a boot no content hash is in both tiers, and the rows still in both are exactly the ones without a hash |
| EventStore.ReplayIsIgnored | plugins/hooop/sandbox/lib/ingestor.ts:128-172 | a line once stored is never stored again, in whichever tier it is by then |
| EventStore.RotationMovesExactlyTheOld | plugins/hooop/sandbox/lib/db.ts:410-464 | the archive gains exactly the rows that hot loses, unchanged, and no other row of either tier is touched; they are exactly the rows older than the cutoff, and the reported number theirs, if and only if no younger row lies in the id range; timestamps nondecreasing in id suffice |
| EventStore.LateRowMoves | plugins/hooop/sandbox/lib/db.ts:412-429 | a concrete table whose younger row is moved too |
| EventStore.RotationLosesExactlyOnIdClash | plugins/hooop/sandbox/lib/db.ts:424-452 | when ids were given out again, of the rows a rotation takes from hot exactly those whose id the archive already uses are lost |
| EventStore.WipeThenRotateLoses | plugins/hooop/sandbox/lib/db.ts:424-452 | a concrete history after a wiped hot file in which such a row is lost |
| EventStore.Tiers.IngestLines | plugins/hooop/sandbox/lib/ingestor.ts:128-172 | one id per line, new or stored before, each naming a row with the line's hash; the union grows as the single table does |
| EventStore.Tiers.RotateIfNeeded | plugins/hooop/sandbox/lib/db.ts:424-464 | both halves, or the first alone when the process dies: the union is unchanged either way |
| EventStore.DeletionRemovesExactly | plugins/hooop/sandbox/lib/db.ts:494-541 | a deletion takes exactly the rows of the given sessions out of both tiers and leaves every other row as it was |
| EventStore.DeletedSessionsStayGone | plugins/hooop/sandbox/lib/db.ts:494-541 | over whole runs after a deletion, a row of those sessions is in a tier only if it was ingested again since |
| EventStore.Tiers.DeleteEventsForSessions | plugins/hooop/sandbox/lib/db.ts:494-541 | afterwards no row of either tier has its session among the non-empty ids, every other row is there unchanged, and the count is the number of such rows in hot plus that in the archive |
| BackupSlots.SlotsHoldTheNewest | plugins/hooop/sandbox/lib/db.ts:180-248 | after any number of backups, slot i holds the i-th newest snapshot and the plain name the newest |
| BackupSlots.RotationDropsOnlyTheLast | plugins/hooop/sandbox/lib/db.ts:180-193 | a rotation loses no snapshot but what the last slot held |
| BackupSlots.Directory.RotateBackupSlots | plugins/hooop/sandbox/lib/db.ts:180-193 | the downward loop moves every slot up by one and overwrites nothing it still needs |
| BackupSlots.Directory.RunBackup | plugins/hooop/sandbox/lib/db.ts:230-248 | a snapshot that fails its check changes nothing but the temporary file; one that passes is rotated in |
| PeerToken.RoundTrip | plugins/hooop/dashboard/lib/peer-token.ts:33-45 | base64url decoding inverts encoding for every byte sequence |
| PeerToken.EncodingIsInjective | plugins/hooop/dashboard/lib/peer-token.ts:33-37 | different byte sequences have different encodings, of the unpadded length |
| PeerToken.DotSplits | plugins/hooop/dashboard/lib/peer-token.ts:81-87 | splitting a token at its first dot recovers both encoded parts |
| PeerToken.VerifiesWhatWasSigned | plugins/hooop/dashboard/lib/peer-token.ts:68-110 | on any platform, verifying a signed object with the same secret returns it if and only if the secret is not empty and this object's JSON text is read back as it was written |
| PeerToken.PeerTokenRoundTrip | plugins/hooop/dashboard/lib/peer-token.ts:112-184 | a signed object comes back from a verifier if and only if it is read back, its own fields are those of that kind (texts `sid` and `ses` without the host kind; the host kind with non-empty `did` and `host`) and its `exp`, when a number other than 0, is not past; one that is read back is otherwise refused |
| PeerToken.NeverBothKinds | plugins/hooop/dashboard/lib/peer-token.ts:121-184 | a corollary of the two shape tests: no token is accepted both as a peer token and as a host device token, at any times |
| PeerToken.AcceptedOnlyWithItsMac | plugins/hooop/dashboard/lib/peer-token.ts:81-110 | an accepted token is two non-empty parts around its first dot, the second decoding to the MAC of the first |
| PeerToken.TimingSafeEqualBytes | plugins/hooop/dashboard/lib/peer-token.ts:61-66 | the or-accumulating loop answers exactly whether the byte sequences are equal |
| PeerToken.VerifySignedToken | plugins/hooop/dashboard/lib/peer-token.ts:81-110 | verification with the byte-comparing loop in place accepts exactly what the specification accepts |
| AgentRecords.RecordFromItsRows | plugins/hooop/sandbox/lib/agents.ts:123-250 | every field of a launch's final record from the rows of the log: completed exactly when a response other than an asynchronous acknowledgement or a notice for it came, interrupted exactly when neither did, its session is gone and the grace period over; end, duration, result, tool count and model from the last row with a say in each, with its fallback; the rest from the launch |
| AgentRecords.RecordsAreLaunches | plugins/hooop/sandbox/lib/agents.ts:109-250 | the computed records are exactly those of the launch rows |
| AgentRuns.RecordIsItsOwnRows | plugins/hooop/sandbox/lib/agents.ts:123-221 | the record of a launch is what its own rows alone make of it, however launches interleave |
| AgentRuns.OtherRowsDoNotMatter | plugins/hooop/sandbox/lib/agents.ts:123-250 | deleting any rows that carry neither a run's tool-use id nor one of its agent ids leaves its final record unchanged, its parent link aside |
| AgentRuns.ParentIsTheIssuersRun | plugins/hooop/sandbox/lib/agents.ts:217-221 | a run's parent is exactly the run whose launch exposed the agent id that issued it, wherever that response stands |
| AgentRuns.ComputeAgentRuns | plugins/hooop/sandbox/lib/agents.ts:109-250 | the loop over rows with its maps, the parent pass and the stuck pass give exactly the specified runs |
| FileMentions.OnlySigilsChange | plugins/hooop/shared/file-mentions.ts:73-99 | for every text the length and line breaks stay, and only `#` changes, into `@` |
| FileMentions.ExactlyMentionsChange | plugins/hooop/shared/file-mentions.ts:102-113 | on one line a character changes if and only if it is the `#` of a mention: at a boundary, outside code spans, before a path-shaped token that is no issue number |
| FileMentions.TokenIsItsRun | plugins/hooop/shared/file-mentions.ts:41 | a path-shaped token begins exactly where the longest run of path characters is not empty, does not begin with "/" or "-", and is neither a number nor a number with a full stop |
| FileMentions.MarkerIsFenceLine | plugins/hooop/shared/file-mentions.ts:61 | a line opens or closes a fence exactly when, after blanks, it begins with three or more backticks or tildes |
| FileMentions.FencedLinesStay | plugins/hooop/shared/file-mentions.ts:73-99 | fence lines and lines inside fences come out as they went in; of any other line exactly the mentions change |
| FileMentions.Idempotent | plugins/hooop/shared/file-mentions.ts:73-113 | rewriting twice is rewriting once |
| FileMentions.ReplacedFrom | plugins/hooop/shared/file-mentions.ts:41 | the scanning global replace equals the pointwise map over match starts |
| FileMentions.ToClaudeFileRefsLoop | plugins/hooop/shared/file-mentions.ts:73-99 | the loop with its mutable fence produces the specified text |
| RateLimiter.NoKeyExceedsItsLimit | plugins/hooop/sandbox/rate-limit.ts:18-45 | with a clock that never goes back, over whole runs of many keys, no key has more than `max` admissions in any window (a, a + windowMs] |
| RateLimiter.RingIsTheWindow | plugins/hooop/sandbox/rate-limit.ts:25-41 | after each check the ring is exactly the admissions of the current window |
| RateLimiter.KeysAreIndependent | plugins/hooop/sandbox/rate-limit.ts:25-41 | what is held for a key is made by that key's requests alone |
| RateLimiter.RetryAfterReset | plugins/hooop/sandbox/rate-limit.ts:34-38 | a refused request succeeds later, with no traffic between, exactly once the oldest has left the window; `resetSec` is the least whole number of seconds, at least one, that is enough |
| RateLimiter.Limiter.Check | plugins/hooop/sandbox/rate-limit.ts:25-41 | the shifting loop and the push or refusal agree with the specification over the whole request history |
| PathPolicy.AcceptedExactly | plugins/hooop/sandbox/lib/cwd-policy.ts:145-176 | exactly which targets are accepted: the real path of the deepest existing ancestor with the missing tail, free of "..", is the real cwd or below it, component by component |
| PathPolicy.ExistingTarget | plugins/hooop/sandbox/lib/cwd-policy.ts:145-176 | an existing target is accepted if and only if its real path is the real cwd or below it |
| PathPolicy.AcceptedThenMadeIsInside | plugins/hooop/sandbox/lib/cwd-policy.ts:145-176 | once an accepted target that did not exist is made, its real path is the real cwd or below it |
| PathPolicy.WithinIsPrefix | plugins/hooop/sandbox/lib/cwd-policy.ts:174-176 | the string test of `within` holds exactly on segment boundaries |
| PathPolicy.TargetsStepByStep | plugins/hooop/sandbox/lib/cwd-policy.ts:149-163 | which path a target names, one component at a time: "~" is home, "." the session's directory, a component behind a slash one step on, ".." one up but not above the root; only a target from the root keeps its dots for the resolver |
| PathPolicy.RelativeTailHasNoDotDot | plugins/hooop/sandbox/lib/cwd-policy.ts:149-166 | joining leaves no ".." in a relative or home-relative target, so no tail of it is refused for one |
| PathPolicy.CanonicalizeDeepest | plugins/hooop/sandbox/lib/cwd-policy.ts:49-66 | the bounded upward loop returns the resolved deepest ancestor with its tail, or nothing |

## Left out

Assumptions, by the member that needs them:

- PreviewSupervisor.LastExecutionWins: no stop is pending when the last command is accepted; `StopTailClobbers` says exactly what goes wrong otherwise.
- PreviewSupervisor.RunsItsOwnSpec: as for `FailFast`.
- PreviewSupervisor.FailFast: no release is pending when the last command is accepted, which `FailFastExactly` shows to be needed; the runner exits its process after a release, which the supervisor object does not know.
- SessionRegistry.SessionsNeverMerge: a new id is new or already the session's own, a transcript is found among the session's ids, a slot's child sends frames only while the slot is registered, and a spawn succeeds (`Orderly`); `FailedWake` and `FailedRecovery` cover spawns that throw, and the theorems of `LateFrames` cover frames of a child whose slot was removed. Recovery is one step: nothing else is queued between its spawn and the rewriting of the aliases.
- SessionRegistry.DestroyedNeverComesBack: no swap and no recovery from the captured id during the wait (recovery does not look at `destroying`; `SurvivesDestroyExactly` says what happens otherwise), and no frame of a child whose slot was already removed: `endSession` does not wait for the close after its SIGTERM, and a late frame with another id puts the slot back. `LateFrames.RemovedComesBackExactly` says exactly when.
- LateFrames.BackExactlyByLateFrame: as for `SessionsNeverMerge`, frames of removed slots aside; the new id of a late frame is new or one the session had when its slot was removed.
- PermissionGate.Rendezvous: ask, review and wait ids are new, and a wait is for an id that was asked and is the only wait on it (`WellUsed`); a timed-out wait would otherwise take another wait's entry. `ReusedIdMeetsItsOwnVerdict` says what an id used again meets. Ids are resolved through aliases before they reach the gate.
- PermissionGate.NoAskIsDecidedTwice: the same.
- PermissionRules.AllowedByRuleOrReply: the same, and the two classifiers of critical tools and commands are uninterpreted.
- PermissionRules.CriticalIsAllowedByTheHost: the same, and on Bash the classifier of tools is that of commands (`BashAgrees`), as `isCriticalTool` defines it (peer-policy.ts:445-448).
- PermissionRules.RouteFollowsTheRules: device ids and shares are those the registries hold valid at that time, with their session ids resolved.
- PermissionGate.PlanTurnsOnlyRead: the same.
- PermissionGate.ApprovedPlanWasApproved: ids are new (`WellUsed`).
- Checkpoint.SecondRestartOnlyPrunes: the preview-spec validator accepts its own result unchanged (`Stable`) and is the same both times.
- EventStore.TiersAreOneTable: the halves of a rotation run back to back, so that only a crash comes between them, and ids are never given out again; `RotationLosesExactlyOnIdClash` says what happens when they are.
- AgentRecords.RecordFromItsRows: row ids, tool-use ids and agent ids are distinct (`DistinctIds`).
- AgentRuns.OtherRowsDoNotMatter: row ids, tool-use ids and agent ids are distinct (`DistinctIds`).
- AgentRuns.ParentIsTheIssuersRun: the same.
- RateLimiter.NoKeyExceedsItsLimit: the clock of the requests never goes back.
- RateLimiter.RingIsTheWindow: the same, and a positive window.
- WatchScan.VisitedUnlessPruned: names without slashes or backslashes; a backslash in a name is read as a separator by the event filter.
- PathPolicy.AcceptedThenMadeIsInside: the missing tail is made of plain names, no dangling link (`MadePlainly`).
- PathPolicy.AcceptedExactly: doubled and trailing slashes are ignored, and the cwd is absolute.

Not modelled:

- PreviewSupervisor: a spawn that fails ('error' followed by 'close'), setup children surviving a stop, the forwarder, scratch wiping and lease-slot HTTP.
- WatchScan: the nested repository roots the walk also collects, and the git-ignored set and the deny list are inputs.
- ArmProtocol: emitting and its timers, real watching, `stopFileWatcher` and a restart after it.
- SessionRegistry: meta data other than the id and the destroying mark, child processes, liveness limits, workspace removal.
- PermissionGate: the replay of a turn into a fresh session after a failed resume, which sets that turn's flags once more on the new slot; notices, transcript lines, the texts of reasons, plan comments, and the preview and page tools that run in the background beyond how they settle.
- Checkpoint: files, JSON and an unreadable checkpoint; the transcript relocation that follows a migration.
- UsageStats: durations, model and context-window fields of the statistics.
- EventStore: full-text and vector tables, byte sizes and the cap test that triggers a rotation, a purge that fails in one tier only; timestamps are compared as numbers.
- BackupSlots: renames and copies that fail half-way.
- PeerToken: HMAC, JSON and UTF-8 are parameters of which nothing is assumed: the theorems name what they need of the signed payload (`ReadsBack`), and `EveryPayloadCanReadBack` shows it can be had; numbers are exact, where JSON's are doubles; the loops of `toBase64Url` and `fromBase64Url` only move bytes into and out of a binary string and are not spelled out; `preview-token.ts` repeats the encoding.
- AgentRuns: the payload readers and the notification parser, the cache, the newest-first sorting of the result.
- FileMentions: `parseFileMention`; characters are code points, where the source counts UTF-16 units.
- PathPolicy: the deny list and the roots policy for working directories, and the removal of old scratch directories.
- HTTP, SSE, sockets, uid switching, the confinement helpers and everything in the dashboard's user interface.
