# Verified model of the Discord agent's durable core

A Dafny model of the parts of the repository that have to survive crashes, restarts and interleaved
calls. State machines are written twice: as values, with functions for every step and lemmas over whole
runs, and as classes whose methods update their fields in place as the source does. Each method is
proved to take the state exactly where the function says, so that what is proved about runs holds of
the in-place code. The functions in turn are pinned down from outside: lemmas named `…Exactly` say, in terms
of rows, files and statuses alone, when each operation is accepted, what it changes and what it leaves.

| files | what they model |
|---|---|
| `Restore`, `RestoreService` | swapping a database generation (main file, `-wal`, `-shm`) by single renames and removals, and the recovery routine, with a crash after any prefix and a failure of any call |
| `TaskStore`, `Usage` | task, session, worktree and result rows; the usage-hold ledger and admission arithmetic |
| `Coordinator`, `CoordinatorLaws`, `CoordinatorSafety`, `CoordinatorScenarios`, `CoordinatorService` | every await-delimited segment of start, continue, cancel, finalize and fail as one step over the shared tables, and restart recovery |
| `HoldConservation`, `HoldAccounting`, `HoldTracing`, `LostHolds` | what every run keeps of calls, usage holds and the coordinator's maps, the path of one hold through a run, and when a hold that nobody settles is released |
| `CancellationRaces`, `LateCompletion`, `RaceScenarios` | exactly when a cancellation ends the right hold and when a late completion ends the wrong turn, with runs from an empty store |
| `LoopStore`, `LoopMachine`, `LoopLaws`, `LoopSafety`, `LoopHistory`, `LoopService` | scheduled loops: rows, runtimes, timers, `runNow` calls, stops of the process, reconciliation |
| `RepositoryLock`, `Worktrees`, `Decimal` | the promise-chain lock per repository and the search for free branch and directory names |
| `Bindings` | project, surface and run bindings with every declared constraint and the archive trigger |
| `Launch`, `LaunchService` | one-time Activity launches and proof-key attempts under concurrent calls |
| `ServiceAuth`, `RequestVerification` | the signed-request header, its payload, and acceptance against a nonce store |
| `RateLimiter` | the fixed-window limiter |
| `Missions`, `MissionService` | the evidence-driven mission state machine, its indexes and its snapshot |
| `Chunker`, `Duration` | message chunking; printing and parsing durations |

## What turned out

These are facts about the code that the proofs brought out; each has a lemma.

- Activation removes the main file at the rollback path before its sidecars. If a `-wal` or `-shm` lies
  there that the active generation lacks, a crash in between lets recovery move the stale sidecar next to
  the active file. Without such a sidecar no crash mixes generations (`Restore.CrashSafetyExact`); neither
  does one where recovery throws first, which is a disk without a rollback main file and with a `-wal` at
  both paths.
- Activation itself leaves such a disk whenever the generation it sets aside had a sidecar
  (`Restore.ActivationArmsHazard`), and the maintenance command's default rollback path is the same every time. So
  a second restore is protected against crashes only once the service has recreated those sidecars next
  to the active file; `Restore.Before`, the premise of `CrashConsistency`, `ActivationResult` and the safe
  half of `ActivateStagedRestore`, excludes it until then (`Restore.SecondRestoreCanMix`).
- The transition table lets an interrupted task go to `starting` with its completion time still set, and
  to `cancelled` with a result stored; nothing else it allows breaks the tables
  (`TaskStore.TransitionConsistentExactly`). The coordinator never uses these two.
- `created` to `failed` is not a legal transition, so the error path after a failed attach would always
  throw; but attaching a reserved hold never fails, so the path is never taken
  (`HoldAccounting.WorktreeCreatedExactly`). What does leave a task in `created` is a restart while its
  renderer starts: recovery skips it and keeps its hold. Cancelling that task does not give the capacity
  back, because nothing is registered for it any more; the hold goes exactly with a restart after that,
  when its release loop comes to it (`LostHolds.StrandedEndsExactly`, `RaceScenarios.RestartStrandsHold`).
- A cancellation looks its hold up only after its card update. It ends the hold of the turn it cancels
  exactly when that hold is registered and meanwhile neither the turn completes nor a continuation of the
  task reaches its reopening (`CancellationRaces.CancelLosesHoldExactly`). Otherwise it releases the hold
  of the later turn, or nothing, and the first hold stays active until its own completion falls into the
  later turn or a restart's release loop comes to it (`LostHolds.LostEndsExactly`). Hold conservation is therefore stated for runs without
  cancellations, and again for what follows any completed restart.
- The completion of a cancelled turn is discarded until a continuation reopens the task, and from there
  to the end of the newer turn it ends that turn instead (`LateCompletion.LateCompletionExactly`).
- At three or four observations the estimate can come out with low above high
  (`Usage.EstimateOrderedExactly`).
- A window of the limiter always contains its opening request, so an interval of one window's length
  admits at most twice the maximum less one (`RateLimiter.LimiterBound`).

## Assumptions

- Time is an integer that callers pass in. The at-most-once and limiter results ask for a clock that does
  not go backwards; nothing else does.
- Random identifiers are fresh where the source draws them: state ids of launches, surface ids, hold ids.
- Reconciliation runs once, before any handler is attached, and `runNow` is entered only from timers and
  from creating a loop, as `src/index.ts:102-122` wires them. A loop id stands for its runtime object.
- Integers are unbounded. Where the source's limit matters it is written out: 9007199254740991 for
  timestamps and intervals, 16 digits for a header's timestamp, 1800 code units for a chunk.
- Hashes, keyed digests and upper-casing are function parameters; of the keyed digest only its length of
  32 bytes is used. Provider turns, Discord calls and git commands are arbitrary outcomes of an await.

## Model

| member | source | states |
|---|---|---|
| Restore.CrashSafetyExact | src/services/databaseBackup.ts:396-482 | Crash consistency with its exact condition: with the prechecks passed, the old generation complete at the active path and the staged file in place, activation crashed after any number of renames and removals and then any series of crashed recoveries leaves the whole old generation, or a state recovery can finish, or exactly the new file with the old generation at rollback, if and only if no `-wal` or `-shm` lies at the rollback path whose counterpart the active path lacks; the one exception is a disk without a rollback main file and with a `-wal` at both paths, where recovery throws before it renames anything and nothing mixes |
| Restore.ActivationArmsHazard | src/services/databaseBackup.ts:435-482 | A completed activation leaves exactly that condition behind: a second one over the same paths, of any valid staged file, is safe against every crash if and only if the generation set aside had no sidecar, until the service has recreated them next to the active file |
| Restore.SecondRestoreCanMix | src/commands/databaseMaintenance.ts:107-121 | A concrete disk: two restores in a row with the default rollback path, the second of which can be crashed into a mix |
| Restore.CrashConsistency | src/services/databaseBackup.ts:396-482 | From a safe start, a crash of activation anywhere, then any number of crashed recoveries, then one that finishes: exactly the old generation is active, or exactly the new file is active with the whole old generation at rollback; never "no database" |
| Restore.ActivateSafe | src/services/databaseBackup.ts:435-482 | From a safe start, every disk that an activation passes through is safe, however far its checks let it go |
| Restore.ActivationResult | src/services/databaseBackup.ts:435-482 | A complete activation leaves exactly the staged file active and the whole old generation at rollback, and touches no other path |
| Restore.FirstActivation | src/services/databaseBackup.ts:455-482 | With nothing active and nothing at rollback, activation only moves the staged file into place |
| Restore.RecoveryFinishes | src/services/databaseBackup.ts:396-433 | From any safe disk, after any series of crashed recoveries, a finished recovery installs one whole generation, and if it throws the old generation is already in place |
| Restore.RecoverSafe | src/services/databaseBackup.ts:202-222 | Every disk a recovery passes through is safe; a half-moved generation is restored in full and a settled disk is left alone |
| Restore.RestartableRecovery | src/services/databaseBackup.ts:202-222 | From every disk, also one on which recovery throws: after any prefix of its renames a new recovery issues exactly the remaining renames, so the final disk is that of one uninterrupted run |
| Restore.CrashedRecoveriesHarmless | src/services/databaseBackup.ts:396-433 | Any number of interrupted recoveries never changes what a finished recovery leaves |
| Restore.RecoverIdempotent | src/services/databaseBackup.ts:396-433 | Running recovery twice is running it once; the second run renames nothing |
| Restore.SidecarsRestart | src/services/databaseBackup.ts:206-221 | After any prefix of the sidecar renames the loop has exactly the remaining ones left, and throws exactly if it would have thrown |
| Restore.RemoveSafe | src/services/databaseBackup.ts:170-174 | Clearing the rollback generation in front of a safe start keeps every intermediate disk safe |
| Restore.MoveGenerationSafe | src/services/databaseBackup.ts:194-200 | Moving the active generation aside keeps every intermediate disk safe and ends with the whole generation at rollback and no active sidecar |
| Restore.RemoveActiveSafe | src/services/databaseBackup.ts:471 | Removing a failed activation keeps the old generation recoverable at every step |
| Restore.HazardMixes | src/services/databaseBackup.ts:170-174 | The concrete bad run: with a stale rollback sidecar, one or two removals followed by one rename of recovery put that sidecar next to the old active file |
| Restore.RecoverAnswers | src/services/databaseBackup.ts:202-222 | The answer of recovery on every disk: by which main files are there and, where sidecars are to be moved, whether two claim one place; "no database" if and only if none of the six files of both generations is there, and orphaned sidecars otherwise |
| Restore.RecoverLeaves | src/services/databaseBackup.ts:396-433 | What a recovery that succeeds leaves at every path, wherever it started: nothing moves while both main files or neither is there, and otherwise the active path ends with the main file and every sidecar of either place |
| Restore.PrecheckExactly | src/services/databaseBackup.ts:435-455 | Activation goes ahead if and only if it is authorised, the nine paths are distinct, and the staged file is there, intact, of the expected version and without sidecars; what it refuses first is named, and a refused activation touches nothing |
| Restore.HalfMovedActivation | src/services/databaseBackup.ts:435-482 | An activation that finds a half-moved generation restores it and then swaps, safe at every step, with the same end as from a complete one |
| RestoreService.FileSystem.RenameFile | src/services/databaseBackup.ts:217-219 | One atomic rename that may also fail without effect; a missing source is an error |
| RestoreService.FileSystem.ValidateDatabase | src/services/databaseBackup.ts:224-240 | Accepts a file exactly if it is there, intact and of the expected schema version, unless reading fails |
| RestoreService.AssertDistinctPaths | src/services/databaseBackup.ts:122-140 | Answers whether all listed paths are pairwise different |
| RestoreService.RemoveDatabaseGeneration | src/services/databaseBackup.ts:170-174 | Removes main file, `-wal` and `-shm` in this order, or a prefix of them if a call fails |
| RestoreService.RestoreMissingSidecars | src/services/databaseBackup.ts:202-222 | Issues exactly the sidecar renames of the specification, or a prefix if a call fails, and throws exactly at an ambiguous suffix |
| RestoreService.MoveDatabaseSidecars | src/services/databaseBackup.ts:176-192 | Moves each sidecar that exists and throws at the first existing destination |
| RestoreService.MoveDatabaseGeneration | src/services/databaseBackup.ts:194-200 | Main file first, then the sidecars; what was done is a prefix of the specified operations |
| RestoreService.RecoverInterruptedRestore | src/services/databaseBackup.ts:396-433 | The recovery routine issues exactly the specified operations and answer, or a prefix of them if a call fails |
| RestoreService.SetAside | src/services/databaseBackup.ts:456-464 | Clears rollback and moves the active generation there; a failed move is undone by a recovery, and every disk on the way is safe |
| RestoreService.Undo | src/services/databaseBackup.ts:470-476 | Undoing a failed activation passes through safe disks only, also when the undoing itself fails |
| RestoreService.PutInPlace | src/services/databaseBackup.ts:466-476 | Renames the staged file into place and validates it; any failure goes through the undo with every disk safe |
| RestoreService.ActivateStagedRestore | src/services/databaseBackup.ts:435-482 | Whatever call fails and wherever, every disk passed through is safe; stopped after any number of the operations it issued, its own compensation included, and followed by any series of crashed recoveries, the recovery that finishes leaves exactly the old generation or exactly the new file with the old one at rollback; when it returns normally it has issued exactly the specified operations and answers whether a database was set aside |
| TaskStore.TransitionConsistentExactly | src/repositories/taskRepository.ts:106-115 | Exactly which accepted transitions keep the tables consistent: all but an interrupted task starting again, or becoming cancelled with a result stored |
| TaskStore.TransitionTable | src/repositories/taskRepository.ts:106-115 | The statuses: a started task can end in every way, only not completed before it runs; running and waiting lead to each other; of the ended ones only an interrupted task moves again; nothing else is accepted |
| TaskStore.TransitionExactly | src/repositories/taskRepository.ts:236-274 | A status update is accepted exactly for an expected status with a legal successor; it changes that row alone, sets the start time once and the completion time at an end, and names its refusal |
| TaskStore.CreateExactly | src/repositories/taskRepository.ts:165-209 | A task is inserted, in `created` and with its worktree, exactly for a live project and four unused keys |
| TaskStore.ReopenExactly | src/repositories/taskRepository.ts:307-332 | A task is reopened exactly when it has ended, has a session and its worktree is still there; its result and completion time go and its other fields stay |
| TaskStore.SaveExactly | src/repositories/taskRepository.ts:374-405 | A result is stored exactly once, for an ended task, by its provider and with its status |
| TaskStore.CreateConsistent | src/repositories/taskRepository.ts:165-209 | Creating a task with its worktree keeps result, completion time, provider and key uniqueness consistent |
| TaskStore.AttachConsistent | src/repositories/taskRepository.ts:211-234 | Attaching a session keeps one session per task, of the task's provider, and no session shared |
| TaskStore.ReopenConsistent | src/repositories/taskRepository.ts:307-332 | Reopening removes result and completion time together |
| TaskStore.SaveConsistent | src/repositories/taskRepository.ts:374-405 | A saved result has the outcome of the terminal task it belongs to |
| TaskStore.TaskRepository.Create | src/repositories/taskRepository.ts:165-209 | Inserts task and worktree row, or fails for an archived project or a taken key and changes nothing |
| TaskStore.TaskRepository.Attach | src/repositories/taskRepository.ts:211-234 | Attaches the session, or reports which of the four checks failed and changes nothing |
| TaskStore.TaskRepository.Move | src/repositories/taskRepository.ts:236-274 | The guarded status update with its two timestamps, or the error of the first failing guard and no change |
| TaskStore.TaskRepository.Reopen | src/repositories/taskRepository.ts:307-332 | Deletes the result and restarts a terminal task that has a session and a live worktree; otherwise changes nothing |
| TaskStore.TaskRepository.Save | src/repositories/taskRepository.ts:374-405 | Stores a result only for a terminal task of the same provider, with its status as outcome, once |
| TaskStore.TaskRepository.ListRecoverable | src/repositories/taskRepository.ts:342-348 | Lists each started and unfinished task once, and never one in `created` |
| CoordinatorSafety.StepKeeps | src/coordinator/taskCoordinator.ts:276-618 | One segment of any call: tables stay consistent, no session or provider changes, and a terminal status is left only by the continuation that reopens that very task |
| CoordinatorSafety.RunKeeps | src/coordinator/taskCoordinator.ts:276-618 | Over every interleaving of starts, continuations, decisions, cancellations, failures and restarts: results only for terminal tasks with their status, completion time exactly when terminal, providers in agreement, sessions never changed |
| HoldAccounting.StepAccounted | src/coordinator/taskCoordinator.ts:183-274 | Every segment, cancellations and restarts included: distinct calls have distinct holds, a reserved hold is active and unattached until its call attaches it, an attached one stays with its task, and the maps point only to holds of their own task and to calls that are starting |
| HoldAccounting.RunAccounted | src/coordinator/taskCoordinator.ts:183-721 | The same over every run from an empty store, whatever the interleaving |
| HoldAccounting.AttachNeverFails | src/coordinator/taskCoordinator.ts:233-236 | In every reachable world a reserved hold can still be attached: nobody else can have settled it |
| HoldAccounting.WorktreeCreatedExactly | src/coordinator/taskCoordinator.ts:204-256 | Persisting a task has two ends, its worktree removed again or the row inserted with its hold attached and registered; the error path that moves `created` to `failed`, which the transition table refuses, is never taken |
| RaceScenarios.RestartStrandsHold | src/coordinator/taskRecovery.ts:18-41 | From an empty store: a restart, complete or cut short, while a new task's renderer starts strands its hold with a task in `created`; over every later run the hold is released if and only if the task is cancelled and the release loop of a later restart then comes to it |
| LostHolds.StrandedEndsExactly | src/services/runtimeRecovery.ts:28-42 | The same from any reachable world with a hold left behind, over every run with any cancellations and restarts, complete or cut short: the cancellation of the task, which finds nothing registered, releases nothing by itself |
| LostHolds.LeavesCreatedExactly | src/coordinator/taskRecovery.ts:18-41 | Over every such run the task leaves `created` if and only if it is cancelled |
| Coordinator.StepBalanced | src/services/usageAdmission.ts:144-163 | Over every segment the observations are exactly the costs of the consumed holds, as a multiset |
| CoordinatorLaws.PersistedExactly | src/coordinator/taskCoordinator.ts:204-256 | The segment after the worktree exists: the worktree is removed again, or the row, the hold, the map entry and the renderer are all in place |
| CoordinatorLaws.BeforeTask | src/coordinator/taskCoordinator.ts:183-231 | A start that fails before its task exists gives its hold back and leaves nothing |
| CoordinatorLaws.AnswerRuns | src/coordinator/taskCoordinator.ts:331-358 | A provider that answers in time: a new session is attached or the old one confirmed, and the turn runs with its hold untouched |
| CoordinatorLaws.FailedStart | src/coordinator/taskCoordinator.ts:459-498 | A start that fails while its task is starting ends it as failed, stores the result and pays nothing |
| CoordinatorLaws.LateAnswer | src/coordinator/taskCoordinator.ts:322-337 | A start answered after its task was cancelled or has ended changes no row, no hold and no map entry |
| CoordinatorLaws.LateContinuation | src/coordinator/taskCoordinator.ts:338-354 | A continuation answered after its task has ended changes nothing with its own session, and gives its hold back without it |
| CoordinatorLaws.CompletedExactly | src/coordinator/taskCoordinator.ts:512-543 | A completion of a live task with an outcome legal from its status moves the row, stores the result, pays for the hold and forgets the map entry |
| CoordinatorLaws.EndedWithoutResult | src/coordinator/taskCoordinator.ts:524-538 | A completion for a task that has ended without a result stores the status it finds, not the outcome it brings |
| CoordinatorLaws.RefusedCompletion | src/coordinator/taskCoordinator.ts:520-522 | A completion whose outcome is not legal from the row changes no row and gives its hold back |
| CoordinatorLaws.ContinueExactly | src/coordinator/taskCoordinator.ts:546-573 | A continuation begins exactly for an ended task with a session and a worktree that is still there |
| CoordinatorLaws.ReopenedExactly | src/coordinator/taskCoordinator.ts:578-617 | Reopening either restarts the row with the new hold attached and registered, or gives the hold back and drops the map entry of whoever had it |
| CoordinatorLaws.CancelWaitsExactly | src/coordinator/taskCoordinator.ts:685-712 | Cancelling a live task writes row and result at once, tells a start under way, and waits for the card with everything else as it was |
| CoordinatorLaws.CancelAtOnceExactly | src/coordinator/taskCoordinator.ts:696-720 | Without a renderer it releases what is registered in the same segment, and an ended task is left alone |
| CoordinatorLaws.RestartedTasks | src/coordinator/taskRecovery.ts:13-44 | A restart, complete or cut short, interrupts exactly the started tasks it comes to and keeps every other row, result and session |
| CoordinatorLaws.RestartedHolds | src/services/runtimeRecovery.ts:28-42 | It releases exactly the active holds it comes to that belong to no task or to an ended one, and none while a task is still started |
| HoldConservation.StepConserves | src/coordinator/taskCoordinator.ts:459-544 | Every segment except a cancellation and a restart whose recovery is cut short keeps each active hold owned by exactly one call in flight or stranded with a task in `created` |
| HoldConservation.RunConserves | src/coordinator/taskCoordinator.ts:633-668 | Hold conservation over every run without a cancellation and without a restart whose recovery is cut short |
| HoldConservation.RestartThenConserved | src/services/runtimeRecovery.ts:26-42 | A completed restart recovery restores conservation whatever holds were lost before it, and every later run without a cancellation or a recovery cut short keeps it |
| HoldConservation.RecoveryLeavesOnlyCreated | src/services/runtimeRecovery.ts:28-42 | Once recovery has finished, the only active holds left belong to tasks still in `created` |
| HoldConservation.QuiescentHolds | src/coordinator/taskCoordinator.ts:233-251 | With no call in flight after a run without a cancellation or a recovery cut short, capacity is held only for tasks stuck in `created` |
| HoldConservation.RunFrozen | src/repositories/usageRepository.ts:22 | Over every run a hold that has been released or consumed never changes again, so each is finished at most once, and an attached hold stays with its task |
| CoordinatorScenarios.UndisturbedStart | src/coordinator/taskCoordinator.ts:183-274 | A new task nobody disturbs: seven events lead to a running turn with its session attached, two more end it with the hold consumed at its cost, one observation, the provider's outcome stored and no call left |
| CoordinatorScenarios.TurnSettles | src/coordinator/taskCoordinator.ts:500-544 | A completed turn stores the outcome, consumes exactly its hold and leaves only the closing card |
| CancellationRaces.CancelEndsHoldExactly | src/coordinator/taskCoordinator.ts:685-721 | For a turn cancelled at any of its awaits, in any reachable world, with any other turns and cancellations of the same task under way, and for every run of anything but a stop of the process up to the end of the card update: the cancellation then releases exactly the hold registered for the task, and it ends the hold of the turn if and only if that hold was registered to begin with, no call of the task has dropped the map entry (a completion, a continuation reaching its reopening or failing to start, the end of another cancellation), and the turn has not released the hold itself |
| CancellationRaces.CancelLosesHoldExactly | src/coordinator/taskCoordinator.ts:708-719 | For a turn awaiting its completion in a conserved world: its hold is ended by the cancellation exactly when it was registered and the run holds neither that completion nor a continuation of the task resumed with its reservation, whether the reopening then succeeds or throws |
| CancellationRaces.ReleasesLaterTurn | src/coordinator/taskCoordinator.ts:715-719 | When the cancellation ends another hold instead, it is that of a continuation that reopened the task in the meantime |
| CancellationRaces.CancelAtOnce | src/coordinator/taskCoordinator.ts:708-719 | Without a renderer there is nothing to wait for: the registered hold is released in the same segment |
| LostHolds.LostWhileRunning | src/coordinator/taskCoordinator.ts:715-719 | A hold that no call has and no map entry names stays active over every run without a stop of the process, further cancellations and continuations included |
| LostHolds.LostEndsExactly | src/services/runtimeRecovery.ts:28-42 | Over every run, restarts included, a lost hold is released if and only if some restart's release loop comes to it while its task is not in `created`; nothing else ever ends it |
| RaceScenarios.CompletionLosesHold | src/coordinator/taskCoordinator.ts:506-511 | From an empty store: the cancelled turn completes before the card update is over, and its hold is lost with no call left |
| RaceScenarios.CancelReleasesNewTurn | src/coordinator/taskCoordinator.ts:578-592 | From an empty store: a continuation reopens first, and the cancellation releases the hold and drops the renderer of that running turn while the cancelled turn, still awaiting its completion, keeps its hold |
| RaceScenarios.FailedReopeningLosesHold | src/coordinator/taskCoordinator.ts:611-617 | From an empty store: a continuation that fails to reopen drops the map entry, and the cancellation releases nothing |
| CoordinatorScenarios.DiscardedCompletion | src/coordinator/taskCoordinator.ts:506-511 | A completion that finds a stored result changes no row and forgets the registered hold |
| LateCompletion.CompletionMovesExactly | src/coordinator/taskCoordinator.ts:506-521 | A completion moves its task's row if and only if no result is stored, no restart has interrupted the task, and the outcome is legal from the row's status; with a result stored it changes neither tables nor ledger |
| LateCompletion.LateCompletionExactly | src/coordinator/taskCoordinator.ts:500-544 | For a turn cancelled while it awaits its completion, and every run of anything but that completion and a stop of the process: the completion then moves the row if and only if a continuation has reopened the task and nothing has ended that newer turn since, and its outcome is legal from there; until a reopening it is discarded |
| LateCompletion.LiveExactly | src/coordinator/taskCoordinator.ts:546-592 | From an ended task, a run leaves it live if and only if it reopens it and none of a completion with a legal outcome, a failing start or a cancellation has ended that turn since |
| LateCompletion.LateCompletionEndsNewTurn | src/coordinator/taskCoordinator.ts:500-544 | With two calls awaiting a completion for one running or waiting task, the older one's stores its outcome for the newer turn, whose own completion is then discarded with its hold unpaid |
| RaceScenarios.LateCompletionReached | src/coordinator/taskCoordinator.ts:500-544 | From an empty store: a start, a cancellation with its card, a continuation up to its running turn, and then the first turn's completion, which ends the second turn |
| CoordinatorService.TaskCoordinator.PersistTask | src/coordinator/taskCoordinator.ts:204-256 | The segment after the worktree exists takes the world exactly to the specified one, error paths included |
| CoordinatorService.TaskCoordinator.StartNewTask | src/coordinator/taskCoordinator.ts:633-634 | Reserving for a new task is one step of the machine; a refused admission leaves no call |
| CoordinatorService.TaskCoordinator.ContinueInThread | src/coordinator/taskCoordinator.ts:546-575 | Only a terminal task with a session and a live worktree enters a continuation |
| CoordinatorService.TaskCoordinator.ReopenTask | src/coordinator/taskCoordinator.ts:578-592 | Reopen, attach and register in one segment, with the catch clause on either failure |
| CoordinatorService.TaskCoordinator.ProviderAnswered | src/coordinator/taskCoordinator.ts:307-358 | The answer of the provider, cancelled and mismatching sessions included, is one step of the machine |
| CoordinatorService.TaskCoordinator.CompletionArrived | src/coordinator/taskCoordinator.ts:364-383 | A turn's completion is one step of the machine, whatever happened to the task meanwhile |
| CoordinatorService.TaskCoordinator.SettleTurn | src/coordinator/taskCoordinator.ts:524-543 | Stores the result and settles the hold, or leaves through the catch clause |
| CoordinatorService.TaskCoordinator.FailStartingTask | src/coordinator/taskCoordinator.ts:459-498 | A failed start ends the turn as `failed`, or with the terminal status it finds |
| CoordinatorService.TaskCoordinator.CatchCall | src/coordinator/taskCoordinator.ts:640-645 | The catch clauses: release the hold if it can be released, drop the continuation's map entry, end the call |
| CoordinatorService.TaskCoordinator.CancelByThread | src/coordinator/taskCoordinator.ts:685-721 | A cancellation up to its card update is one step of the machine |
| CoordinatorService.TaskCoordinator.WaitForDecision | src/coordinator/taskCoordinator.ts:393-410 | Asking the user moves a running task to waiting and no other task |
| CoordinatorService.TaskCoordinator.ShutDown | src/coordinator/taskCoordinator.ts:809-811 | Forgets the renderers while calls are in flight, and nothing else |
| CoordinatorService.TaskCoordinator.RecoverInterruptedTasks | src/coordinator/taskRecovery.ts:13-44 | Interrupts exactly the started tasks, or a subset of them when stopped part way |
| CoordinatorService.TaskCoordinator.ReleaseRecovered | src/services/runtimeRecovery.ts:28-42 | The release loop frees exactly the active holds without a task or with a finished one, or those of them it had come to when the process stopped |
| CoordinatorService.TaskCoordinator.RecoverRuntime | src/services/runtimeRecovery.ts:23-42 | Start-up is one restart step of the machine, complete or cut short in the loop over tasks or in the one over holds |
| Usage.AdmissionBound | src/services/usageAdmission.ts:106-134 | After one admission for a provider, every later sequence of reserve, attach, release and complete keeps the active upper estimates plus the primary reserve within the least remaining window |
| Usage.ReserveExactly | src/services/usageAdmission.ts:106-134 | A reservation is admitted exactly when its upper estimate and the primary reserve fit what the least window leaves, its id is new and its estimate ordered; the hold is inserted active and unattached |
| Usage.CompleteExactly | src/services/usageAdmission.ts:144-163 | What a completed turn costs: the reported share, a fraction counting as a share of the whole; or else its tokens; or else nothing for a failure and the upper estimate otherwise; the hold is consumed at that cost and observed at it |
| Usage.EstimateExactly | src/services/usageAdmission.ts:107-111 | Estimates are the defaults below three observations, the median from three on, and the ninth decile, never below the median, from five on |
| Usage.PercentileRank | src/services/usageAdmission.ts:60-64 | The percentile is the sorted value at the greatest rank not beyond the quantile |
| Usage.RecentExactly | src/repositories/usageRepository.ts:26 | The costs an estimate is made from are the last fifty of the provider and class, in order |
| Usage.LedgerSteps | src/services/usageAdmission.ts:106-163 | Each call of the service makes its own change to the ledger, or none if it throws |
| Usage.StepWithinCapacity | src/services/usageAdmission.ts:106-163 | One call of the service never breaks the bound once it holds |
| Usage.EstimateOrderedExactly | src/services/usageAdmission.ts:107-111 | An estimate satisfies 0 <= low <= high if and only if, at three or four observations, the median does not exceed the default upper estimate |
| Usage.EstimateGapExample | src/services/usageAdmission.ts:107-111 | Three costly conversations give low 30 and high 2, which the reservation table refuses |
| Usage.Percentile | src/services/usageAdmission.ts:60-64 | The result is one of the values, or zero for none |
| Usage.PercentileMonotone | src/services/usageAdmission.ts:60-64 | A higher quantile never gives a lower value |
| Usage.SortCorrect | src/services/usageAdmission.ts:62 | The values in ascending order, none added and none lost |
| Usage.LeastRemaining | src/services/usageAdmission.ts:80-83 | The least value any window reports, and none exactly when no window reports one |
| Usage.CompleteBalanced | src/services/usageAdmission.ts:144-163 | Completing consumes one hold and adds exactly one observation of its cost |
| Usage.ReleaseBalanced | src/repositories/usageRepository.ts:22 | Releasing a hold keeps observations and consumed holds in balance |
| Usage.UsageAdmission.ReservedTotal | src/services/usageAdmission.ts:84-85 | The loop over active reservations adds up exactly the upper estimates of the provider |
| Usage.UsageAdmission.Reservations | src/repositories/usageRepository.ts:23 | Every active reservation exactly once |
| Usage.UsageAdmission.ReserveHold | src/services/usageAdmission.ts:106-134 | Admits and inserts the hold, or refuses it or its row and changes nothing |
| Usage.UsageAdmission.AttachHold | src/repositories/usageRepository.ts:21 | Attaches only an active hold that has no task yet |
| Usage.UsageAdmission.CompleteHold | src/services/usageAdmission.ts:144-163 | Consumes an active hold at its actual cost and records it; does nothing for any other id |
| LoopSafety.NoOrphans | src/services/scheduledLoopService.ts:80-189 | Once reconciliation is over, in every run: a running row has exactly one iteration in flight and no timer, an active row exactly one pending timer or one call presenting its waiting state |
| LoopSafety.NoDoubleExecution | src/services/scheduledLoopService.ts:127-189 | In every state of every run a loop has at most one call in flight, a closed loop has neither runtime nor timer, and each channel at most one live row |
| LoopSafety.StepSafe | src/services/scheduledLoopService.ts:80-236 | Every event, stops of the process and reconciliation included, keeps rows, runtimes, timers and calls in agreement |
| LoopSafety.ResumedSafe | src/services/scheduledLoopService.ts:201-229 | Reconciling one loop ends with the row closed or with exactly one timer, and never with a replayed iteration |
| LoopSafety.AfterIterationSafe | src/services/scheduledLoopService.ts:144-189 | However an iteration ends, its loop is presenting, waiting for one timer, or closed and detached |
| LoopLaws.ExecutedExactly | src/services/scheduledLoopService.ts:141-189 | After an iteration of a running loop, in every reachable state: the loop ends if and only if the answer gives a nonempty reason or the very first iteration threw; otherwise it is active in the same iteration, due one interval from now, and waits for its card or its one timer |
| LoopLaws.PresentedExactly | src/services/scheduledLoopService.ts:173-188 | After the waiting card only a nonempty reason ends the loop, a card that throws does not, and otherwise its row stays and it waits for its one timer |
| LoopLaws.ClosedMeanwhile | src/services/scheduledLoopService.ts:160-186 | A loop closed while its call was away stays closed as it is, whatever the call answers |
| LoopLaws.FiredExactly | src/services/scheduledLoopService.ts:106-144 | A timer that fires is gone, and its loop runs its next iteration in exactly one call |
| LoopLaws.StartedExactly | src/services/scheduledLoopService.ts:231-244 | Creating a loop inserts its row and starts its first iteration at once, or changes nothing |
| LoopLaws.CloseExactly | src/repositories/loopRepository.ts:234-258 | Stopping or ending by channel or thread closes the one live loop there, dates it, and leaves no runtime and no timer |
| LoopLaws.CloseAllExactly | src/repositories/loopRepository.ts:260-280 | Ending a project's loops closes every live one of them and touches no other loop |
| LoopLaws.ReconcileExactly | src/services/scheduledLoopService.ts:191-199 | A loop whose project is gone is ended with that reason, and any other goes on to the fetch of its thread |
| LoopLaws.ThreadMissing | src/services/scheduledLoopService.ts:207-212 | A loop whose thread is gone is ended with that reason |
| LoopLaws.ThreadFound | src/services/scheduledLoopService.ts:214-228 | A loop whose thread is there waits for one new timer: an interrupted one is due one interval from now in the iteration it was in, which is not executed again, and an active one keeps its row |
| LoopLaws.StopsInBetween | src/services/scheduledLoopService.ts:127-144 | A stop between acquiring and executing an iteration leaves the row running and nothing executed |
| LoopSafety.BootSafe | src/services/scheduledLoopService.ts:243-247 | A list of the live rows, in any order, accounts for every loop until it is reconciled |
| LoopHistory.NoReplay | src/repositories/loopRepository.ts:210-216 | Over the whole life of a loop: acquired iterations are 1, 2, 3 and so on up to the stored one, and those executed strictly increase |
| LoopHistory.ClosedForever | src/repositories/loopRepository.ts:234-278 | A stopped or terminal row never changes again, iteration and reason included, and its loop never executes again |
| LoopHistory.StepHistory | src/repositories/loopRepository.ts:152-278 | No event removes a row, changes a closed one, or acquires more than the next iteration of one active loop |
| LoopSafety.CreatedTable | src/db/loopSchemaMigration.ts:6-25 | Creating a loop keeps one live row per channel and one row per thread |
| LoopStore.LoopRepository.Insert | src/repositories/loopRepository.ts:152-188 | Inserts a fresh row, or names the failing check and changes nothing |
| LoopStore.LoopRepository.FindActiveByChannelId | src/repositories/loopRepository.ts:192-195 | Finds the live row of a channel exactly when there is one |
| LoopStore.LoopRepository.Acquire | src/repositories/loopRepository.ts:210-216 | Takes the next iteration of an active row only |
| LoopStore.LoopRepository.SetNext | src/repositories/loopRepository.ts:218-232 | Only a running row becomes active again, with its next due time |
| LoopStore.LoopRepository.Close | src/repositories/loopRepository.ts:244-250 | Closes a live row with reason and time; a closed row is left alone |
| LoopStore.LoopRepository.TerminalizeByProject | src/repositories/loopRepository.ts:260-277 | Closes exactly the live rows of the project and reports which |
| LoopService.ScheduledLoopService.StartRun | src/services/scheduledLoopService.ts:127-141 | `runNow` up to its await: runs an idle active loop, detaches one that is not active, ignores one that is executing |
| LoopService.ScheduledLoopService.IterationAnswered | src/services/scheduledLoopService.ts:142-189 | The segment after an iteration is one step of the machine |
| LoopService.ScheduledLoopService.WaitingPresented | src/services/scheduledLoopService.ts:173-189 | The segment after the waiting card is one step of the machine |
| LoopService.ScheduledLoopService.TimerFired | src/services/scheduledLoopService.ts:106-114 | A firing timer is consumed and runs its loop |
| LoopService.ScheduledLoopService.CreateLoop | src/services/scheduledLoopService.ts:232-241 | Creating and starting a loop is one step of the machine up to the first await |
| LoopService.ScheduledLoopService.CloseLoop | src/services/scheduledLoopService.ts:251-267 | Stop and terminalize close the selected live row and detach its runtime |
| LoopService.ScheduledLoopService.TerminalizeByProject | src/services/scheduledLoopService.ts:269-273 | Closes the project's rows and detaches every one of their runtimes and timers |
| LoopService.ScheduledLoopService.DetachAll | src/services/scheduledLoopService.ts:80-85 | Detaching loops takes away exactly their runtimes and their own pending timers |
| LoopService.ScheduledLoopService.ReconcileOne | src/services/scheduledLoopService.ts:191-207 | Reconciling up to the fetch of the thread is one step of the machine |
| LoopService.ScheduledLoopService.ThreadAnswered | src/services/scheduledLoopService.ts:207-229 | An interrupted loop is deferred and rearmed, a missing thread closes the loop |
| RepositoryLock.FifoExclusion | src/git/worktreeManager.ts:70-85 | In every run, of two calls on one repository the later one waits until the earlier has released: mutual exclusion in order of arrival, although the map entry is deleted on release |
| RepositoryLock.EntersExactly | src/git/worktreeManager.ts:72-78 | A waiting call may enter if and only if every earlier call on its repository has released: the lock never gets stuck |
| RepositoryLock.OneHolder | src/git/worktreeManager.ts:70-85 | Two calls that hold one repository are the same call |
| RepositoryLock.AddedBranchIsNew | src/git/worktreeManager.ts:168-189 | When a branch is added it does not exist yet, whatever other calls and removals ran while its name was chosen |
| RepositoryLock.CreatedDistinct | src/git/worktreeManager.ts:159-191 | Unless branches are removed, no two creations in one repository ever use the same branch |
| RepositoryLock.ChosenIsFirstFree | src/git/worktreeManager.ts:160-175 | Unless branches are removed, over every run the name a call chooses is the first of its own candidates that is free in its repository |
| RepositoryLock.NothingLeft | src/git/worktreeManager.ts:70-85 | Over every run the map has an entry for a repository if and only if some call on it has not released yet |
| RepositoryLock.BranchesExactly | src/git/worktreeManager.ts:176-191 | Only adding a worktree adds a branch, and exactly the one chosen, to its own repository |
| RepositoryLock.ProbeBound | src/git/worktreeManager.ts:171-179 | Over a fixed set of branches the search ends, after at most as many hits as there are branches, at the first free candidate |
| RepositoryLock.WorktreeLock.Queue | src/git/worktreeManager.ts:71-76 | Queues behind the current tail and becomes the new one |
| RepositoryLock.WorktreeLock.TailResolved | src/git/worktreeManager.ts:72-78 | Walking the chain of tails tells whether it has resolved |
| RepositoryLock.WorktreeLock.TryEnter | src/git/worktreeManager.ts:78 | A call enters exactly when its predecessor's tail has resolved |
| RepositoryLock.WorktreeLock.Release | src/git/worktreeManager.ts:81-84 | Releases and deletes the map entry only if no call has queued behind |
| RepositoryLock.WorktreeLock.CreateBranch | src/git/worktreeManager.ts:168-191 | Creates the first free candidate and releases the lock |
| Worktrees.BranchCandidatesDistinct | src/git/worktreeManager.ts:168-178 | The candidates for a branch name are pairwise different |
| Worktrees.BranchNames | src/git/worktreeManager.ts:160-175 | The candidates in order: the name itself, then with the suffix, then numbered from two |
| Worktrees.DirectoryNames | src/git/worktreeManager.ts:147-153 | Each slash of a branch name becomes two dashes, and nothing else changes |
| Worktrees.PathCandidatesDistinct | src/git/worktreeManager.ts:182-187 | The candidates for a directory are pairwise different |
| Worktrees.PickBranch | src/git/worktreeManager.ts:169-179 | The collision loop terminates with the first candidate that is not taken |
| Worktrees.PickPath | src/git/worktreeManager.ts:182-187 | The path loop terminates with the first free candidate, a direct child of the base directory |
| Decimal.RoundTrip | src/git/worktreeManager.ts:176 | Printing a number and reading it back gives the number; the collision suffixes are therefore all different |
| Bindings.HierarchyHolds | src/repositories/factoryFloorBindingRepository.ts:266-543 | Over every run from empty tables: active run, active surface, active project binding and live project hang together, and no SQL constraint ever fires |
| Bindings.SchemaExactly | src/db/factoryFloorBindingsMigration.ts:5-82 | The schema written out: foreign keys, the identity check and the unique indexes, and a statement is refused exactly when it would break them |
| Bindings.BindProjectExactly | src/repositories/factoryFloorBindingRepository.ts:266-326 | Binding a project succeeds if and only if it is live, bound to nothing else and the Factory Floor project is free; it is then bound, and no other row changes |
| Bindings.BindSurfaceExactly | src/repositories/factoryFloorBindingRepository.ts:327-439 | Binding a surface succeeds if and only if its project is bound in that guild and at most one row answers to the identities and contradicts none; that row, or a new one, is then active with every identity it had or was given |
| Bindings.BindRunExactly | src/repositories/factoryFloorBindingRepository.ts:440-490 | Binding a run succeeds if and only if the surface is active in a live, bound project, has no other active run and the run is not bound elsewhere; the run is then in the table, active on that surface, and no other row changes |
| Bindings.BindActivityExactly | src/repositories/factoryFloorActivityInstanceBindingRepository.ts:74-112 | Attaching an instance succeeds if and only if the surface is active in a live project and has no other instance, and no other surface has this one |
| Bindings.RetireProjectExactly | src/repositories/factoryFloorBindingRepository.ts:491-543 | Retiring a project dates exactly the active rows at and below it, once |
| Bindings.ArchiveExactly | src/db/factoryFloorBindingsMigration.ts:66-82 | Archiving a live project dates it and leaves no active surface or run below it, and archiving again changes nothing |
| Bindings.CallSound | src/repositories/factoryFloorBindingRepository.ts:266-543 | Every call on a state that satisfies the hierarchy keeps it and is never refused by the schema |
| Bindings.BindSurfaceSound | src/repositories/factoryFloorBindingRepository.ts:327-414 | The identity checks alone keep thread, message and Activity identities unique |
| Bindings.BindRunSound | src/repositories/factoryFloorBindingRepository.ts:440-482 | The checks alone keep at most one active run per surface and all foreign keys |
| Bindings.BindProjectSound | src/repositories/factoryFloorBindingRepository.ts:266-309 | The checks alone keep Factory Floor project ids unique |
| Bindings.BindActivitySound | src/repositories/factoryFloorActivityInstanceBindingRepository.ts:74-112 | Attaching an Activity instance keeps the same invariants |
| Bindings.ArchiveKeeps | src/db/factoryFloorBindingsMigration.ts:69-82 | Archiving a project retires everything below it through the trigger |
| Bindings.ActiveRunChain | src/repositories/factoryFloorBindingRepository.ts:440-482 | An active run is the only one on its surface, and run, surface, binding and project agree on project and guild |
| Bindings.SurfaceAnswers | src/repositories/factoryFloorBindingRepository.ts:341-414 | After a surface is bound, an active surface of the project answers to every identity given |
| Bindings.RebindingIsIdempotent | src/repositories/factoryFloorBindingRepository.ts:280-309 | Binding the same project or run again changes nothing |
| Bindings.BindingRepository.ProjectBind | src/repositories/factoryFloorBindingRepository.ts:266-309 | Binds, revives or confirms the project binding, or names the conflict and changes nothing |
| Bindings.BindingRepository.SurfaceBind | src/repositories/factoryFloorBindingRepository.ts:327-414 | Inserts or reconciles the one surface its identities select, or names the conflict and changes nothing |
| Bindings.BindingRepository.RunBind | src/repositories/factoryFloorBindingRepository.ts:440-482 | Binds, revives or confirms the run, or names the conflict and changes nothing |
| Bindings.BindingRepository.ActivityBind | src/repositories/factoryFloorActivityInstanceBindingRepository.ts:74-112 | Attaches the instance to one active surface, or names the conflict and changes nothing |
| Bindings.BindingRepository.ProjectRetire | src/repositories/factoryFloorBindingRepository.ts:491-515 | Retires the binding and everything below it, and tells whether the binding was active |
| Bindings.BindingRepository.SurfaceRetire | src/repositories/factoryFloorBindingRepository.ts:517-533 | Retires the surface and its runs |
| Bindings.BindingRepository.RunRetire | src/repositories/factoryFloorBindingRepository.ts:535-543 | Retires one run only |
| Bindings.BindingRepository.ProjectArchive | src/db/factoryFloorBindingsMigration.ts:69-82 | Archiving a live project retires all its bindings at the archive time |
| Launch.OneTimeLaunch | src/factoryFloor/activityBootstrapService.ts:316-389 | In every interleaving: at most one session per launch, no launch both consumed and invalidated, no attempt that outlives its launch |
| Launch.ConsumedTogether | src/factoryFloor/activityBootstrapService.ts:344-360 | An attempt is consumed only with the verifier that hashes to its challenge (section 4.6 of RFC 7636), and then launch and session follow in the same step if and only if the project has not been archived meanwhile |
| Launch.OnlyExchangeConsumes | src/repositories/factoryFloorOAuthRepository.ts:101-121 | No other event consumes an attempt or a launch or requests a session |
| Launch.StepOk | src/factoryFloor/activityBootstrapService.ts:278-389 | Every segment of every call keeps launches, attempts, captured contexts and sessions consistent |
| Launch.SessionExactly | src/factoryFloor/activityBootstrapService.ts:344-389 | The last segment requests a session if and only if the attempt is consumed by it, the launch still has the context the call began with, and the project is live |
| Launch.AdmittedExactly | src/factoryFloor/activityBootstrapService.ts:316-342 | A bootstrap goes on if and only if its launch and attempt are unused and unexpired and the verifier is well formed and hashes to the challenge |
| Launch.LookedUpExactly | src/factoryFloor/activityBootstrapService.ts:286-291 | An attempt never asks for more time than its launch has left |
| Launch.VerifiesExactly | src/repositories/factoryFloorOAuthRepository.ts:101-121 | What consuming an attempt asks for: instance, digest of the verifier, and attempt and launch both unused and unexpired |
| Launch.TrustedExactly | src/repositories/factoryFloorLaunchRepository.ts:214-305 | A launch is trusted if and only if project, binding, guild and owner agree and, for a run, its active surface and active run belong together and to the project |
| Launch.CreateExactly | src/repositories/factoryFloorLaunchRepository.ts:307-357 | A launch is created under a free id, or an equal one for the same interaction confirmed; every refusal is one of the named ones |
| Launch.LaunchStatements | src/repositories/factoryFloorLaunchRepository.ts:358-411 | A launch is consumed or invalidated only while it is neither, and consumed only before it expires, in its own context and for a live project |
| Launch.CleanupExactly | src/repositories/factoryFloorLaunchRepository.ts:413-419 | Cleaning up keeps exactly what can still be used |
| Launch.SegmentsExactly | src/repositories/factoryFloorOAuthRepository.ts:124-152 | The other segments: a launch is created only under a fresh id, an attempt begins only once membership is confirmed, and a failure changes no table |
| LaunchService.LaunchStore.Create | src/repositories/factoryFloorLaunchRepository.ts:307-354 | Creates a launch in a trusted context, returns an equal earlier one, or names the conflict |
| LaunchService.LaunchStore.CheckTrusted | src/repositories/factoryFloorLaunchRepository.ts:249-283 | Accepts exactly the contexts whose project, guild, surface and run bindings are active and agree |
| LaunchService.LaunchStore.Consume | src/repositories/factoryFloorLaunchRepository.ts:358-400 | The conditional update matches only an open, unexpired launch in the expected context of a live project |
| LaunchService.LaunchStore.Invalidate | src/repositories/factoryFloorLaunchRepository.ts:402-411 | Only an open launch is invalidated |
| LaunchService.LaunchStore.CleanupLaunchRows | src/repositories/factoryFloorLaunchRepository.ts:413-419 | Deletes exactly the launches that are expired, consumed or invalidated, with their attempts |
| LaunchService.LaunchStore.BeginAttempt | src/repositories/factoryFloorOAuthRepository.ts:124-152 | Starts an attempt within its launch's lifetime, confirms an equal one, or names the conflict |
| LaunchService.LaunchStore.Verify | src/repositories/factoryFloorOAuthRepository.ts:101-121 | Consumes the attempt exactly when instance, challenge, both expiries and both states allow it |
| LaunchService.LaunchStore.CleanupAttemptRows | src/repositories/factoryFloorOAuthRepository.ts:155-161 | Deletes exactly the attempts that are expired or consumed |
| LaunchService.BootstrapService.InstanceFound | src/factoryFloor/activityBootstrapService.ts:286-291 | Finds the current launch and caps the attempt's expiry at the launch's |
| LaunchService.BootstrapService.BootstrapStarted | src/factoryFloor/activityBootstrapService.ts:327-329 | Admits only a current launch with a pending attempt whose challenge matches the verifier |
| LaunchService.BootstrapService.ExchangeAnswered | src/factoryFloor/activityBootstrapService.ts:344-375 | Attempt, then launch, then session: the last segment is one step of the machine |
| RequestVerification.AtMostOnceExactly | src/factoryFloor/serviceAuth.ts:134-195 | No run with a clock that never goes back accepts the same key id, timestamp and nonce twice, or the same header, if and only if twice the permitted skew is below the nonce's time to live |
| RequestVerification.AtMostOnce | src/repositories/factoryFloorBindingRepository.ts:547-572 | With that condition, however a header is respelt and whichever expired rows are deleted when, no two acceptances share key id, timestamp and trimmed nonce |
| RequestVerification.SignedIsAccepted | src/factoryFloor/serviceAuth.ts:98-195 | A request signed under the current or the previous key, with a fresh well-formed nonce and a clock within the skew, passes through format, parse and verify |
| RequestVerification.AcceptsExactly | src/factoryFloor/serviceAuth.ts:134-195 | A request whose header parses is accepted if and only if it is authentic, that is, it has the key id of its direction, a timestamp within the skew, a usable nonce and the keyed digest of exactly this method, path and body under the current or the configured previous key, and its nonce is not remembered |
| RequestVerification.LogAuthentic | src/factoryFloor/serviceAuth.ts:134-195 | Over every run each logged acceptance is of one of the requests of the run, which was authentic at that time |
| RequestVerification.RefusalsExactly | src/factoryFloor/serviceAuth.ts:134-191 | The first failing check names the error |
| RequestVerification.NonceExactly | src/repositories/factoryFloorBindingRepository.ts:547-572 | A nonce is taken if and only if no unexpired row has it, is then remembered for the time to live, and only expired rows are dropped |
| RequestVerification.TrimExactly | src/repositories/factoryFloorBindingRepository.ts:547-572 | Trimming a nonce drops exactly the white space at both ends |
| RequestVerification.PayloadBinds | src/factoryFloor/serviceAuth.ts:79-96 | Equal signed payloads mean equal timestamp, nonce, method, path and body digest, when none of them holds a newline |
| RequestVerification.VerificationKeys | src/factoryFloor/serviceAuth.ts:61-71 | The current key is always among those tried |
| RequestVerification.RequestVerifier.Consume | src/repositories/factoryFloorBindingRepository.ts:555-571 | Drops what has expired and accepts a nonce exactly when no live row has it |
| RequestVerification.RequestVerifier.Matches | src/factoryFloor/serviceAuth.ts:181-191 | The loop over all keys finds a match exactly when one of them signs the payload |
| RequestVerification.RequestVerifier.VerifyRequest | src/factoryFloor/serviceAuth.ts:134-195 | The checks in their order, each with its own error, and then the nonce |
| ServiceAuth.ParseExactly | src/factoryFloor/serviceAuth.ts:120-132 | A header parses to a request if and only if it is that request written out with at least one space: the grammar is unambiguous |
| ServiceAuth.FormatParse | src/factoryFloor/serviceAuth.ts:116-132 | Format and parse round-trip exactly the requests whose fields are nonempty and free of commas |
| ServiceAuth.WireFormat | src/factoryFloor/serviceAuth.ts:98-118 | The key ids and a header written out |
| ServiceAuth.UnhexHex | src/factoryFloor/serviceAuth.ts:181 | Hexadecimal digests decode to their bytes, in either case of letters |
| RateLimiter.LimiterBound | src/factoryFloor/activityRevalidationService.ts:249-259 | In every run with a clock that never goes back, each window admits at most the maximum and any half-open interval of a window's length at most twice the maximum less one |
| RateLimiter.RefusedExactly | src/factoryFloor/activityRevalidationService.ts:249-259 | In terms of the log alone: a request is refused if and only if a window of its key that covers this moment counts the maximum already, and an admitted one is counted in the window that covers it or opens one |
| RateLimiter.BoundAttained | src/factoryFloor/activityRevalidationService.ts:249-259 | The bound is sharp: for every maximum and every window of two units or more a run reaches it |
| RateLimiter.Limiter.RateLimited | src/factoryFloor/activityRevalidationService.ts:249-259 | Refuses exactly when the key's open window is full, and otherwise counts the request in the window it belongs to |
| Missions.RunOk | src/missions/missionLifecycle.ts:220-368 | After every sequence of calls, throwing ones included: each index is exactly the inverse of its column, every mission's evidence is a legal path to its state, no binding is lost |
| Missions.TransitionTable | src/missions/missionLifecycle.ts:169-218 | Which states lead where, state by state |
| Missions.ValidateExactly | src/missions/missionLifecycle.ts:92-167 | A record is valid if and only if its identity is complete, it shows the evidence its state demands, and while it is worked on it has an owner |
| Missions.TransitionExactly | src/missions/missionLifecycle.ts:271-303 | An accepted move changes state, evidence, owner and the four remarks exactly as it says; a refused one names its reason and changes nothing |
| Missions.FromSnapshotExactly | src/missions/missionLifecycle.ts:226-239 | A snapshot is accepted if and only if it has the version and its records are valid and share no id, key, message or thread; the repository then holds exactly these records |
| Missions.PromoteExactly | src/missions/missionLifecycle.ts:241-269 | For every binding: promote returns the mission bound equally, or a new one for an unused binding, or throws and changes nothing, so a half-filled index is never seen |
| Missions.PromoteIdempotent | src/missions/missionLifecycle.ts:249-258 | Promoting an equal binding again, after any further calls, returns the mission as it now is and changes nothing |
| Missions.IndexInjective | src/missions/missionLifecycle.ts:350-367 | Two missions never share a promotion key, a source message or a thread |
| Missions.LegalMoveAccepted | src/missions/missionLifecycle.ts:271-303 | A legal move with the required evidence is accepted if and only if the next state needs no owner or the mission then has one |
| Missions.TracedValidates | src/missions/missionLifecycle.ts:92-167 | Validation of a mission whose evidence is a path can only miss an owner |
| Missions.DoneInOrder | src/missions/missionLifecycle.ts:169-218 | A mission that is done has route, wake, claim, execution, verification and completion evidence, each first occurring after the one before it |
| Missions.MovedTraced | src/missions/missionLifecycle.ts:289-301 | A transition extends the path by one legal step and its evidence |
| Missions.SnapshotRoundTrip | src/missions/missionLifecycle.ts:226-239 | Rebuilding from a snapshot, its missions in any order, never throws and gives back the same missions and indexes |
| MissionService.MissionRepository.PromoteMission | src/missions/missionLifecycle.ts:241-269 | The in-place code answers and changes exactly as specified |
| MissionService.MissionRepository.TransitionMission | src/missions/missionLifecycle.ts:271-303 | The in-place code answers and changes exactly as specified |
| MissionService.MissionRepository.InsertMission | src/missions/missionLifecycle.ts:350-367 | Fills the indexes one by one and stops at the first duplicate, leaving the earlier ones filled |
| MissionService.MissionRepository.ResolveExisting | src/missions/missionLifecycle.ts:322-335 | The nonempty ids the three indexes give for a binding |
| MissionService.MissionRepository.Snapshot | src/missions/missionLifecycle.ts:313-320 | Lists every mission exactly once |
| MissionService.MissionRepository.Load | src/missions/missionLifecycle.ts:226-239 | Rebuilds record by record and stops at the first invalid or clashing one |
| Chunker.Lossless | src/utils/chunker.ts:3-31 | For every text: the chunks with one newline put back after each chunk that was cut at a newline are the text, nothing else is missing, and a long text has chunks of 1 to 1800 units |
| Chunker.FewLost | src/utils/chunker.ts:26-27 | At most one unit is dropped per chunk, and none from a text without newlines |
| Chunker.SplitAt | src/utils/chunker.ts:15-24 | The last newline within reach, or else the last space, or else the hard limit; never an empty chunk |
| Chunker.CutAndGoOn | src/utils/chunker.ts:8-30 | A long text is cut there, and what follows is chunked the same way without the line feed it was cut at |
| Chunker.ChunkText | src/utils/chunker.ts:3-31 | The loop terminates and produces the specified chunks |
| Duration.FormatParse | src/services/loopRunner.ts:111-133 | For every duration of a second or more, parse after format is the value rounded down to seconds below one hour and to minutes from one hour up |
| Duration.FormatShape | src/services/loopRunner.ts:123-133 | A duration is written in groups that are not zero, minutes below sixty, seconds below sixty only under one hour |
| Duration.FormatParseIdentityExactly | src/services/loopRunner.ts:111-133 | The round trip is the identity if and only if the value is a second or more and a whole number of those units |
| Duration.MatchExactly | src/services/loopRunner.ts:112-114 | A string matches with certain groups if and only if it is those groups written out: each accepted string has one reading |
| Duration.ParsesExactly | src/services/loopRunner.ts:111-121 | A string has a value exactly when its groups, one at least, add up to more than zero |

## Left out

- File contents, permission bits, directory creation, `quick_check` and what SQLite does to sidecars when a file is opened for validation: a file is its identity, an intact flag and a schema version. Errors of the existence probe itself are not modelled.
- Backup creation, manifests, checksums and retention, and staging a restore: only activation and recovery are crash-critical.
- Rendering, control cards, embeds and panels: each is an await that may succeed or fail. The provider event stream, the checkpoint it may request and `interruptionRequested` only lead to a completion that is arbitrary here anyway.
- Coordinator.Step: lets a decision be opened or closed whenever the row's status permits, and a worktree be marked removed at any time, which is more often than the running gate, the broker and the check before closing a task do.
- Provider, project and settings validation before a reservation; a handoff behaves as a start once its reservation is made.
- Disposing of renderers at shutdown: the event `Shutdown` only empties their map, and the calls in flight go on until the process stops.
- The result row keeps its outcome only; summary, verification and usage JSON are not modelled.
- Usage.AdmissionBound: costs and windows are exact reals, so floating-point rounding is not modelled; task classification by regular expressions, posture thresholds, and negative or non-finite utilisation are left out.
- Usage.RecentCosts: takes the last fifty observations in insertion order; rows with equal recording times are not reordered.
- SQL statements are single conditional updates on maps; transactions are atomic, and the SQL engine, migrations other than the cited constraints, and case-insensitive name lookup (a name arrives resolved to its id) are not modelled.
- LoopStore.CloseOne: stores the reason as it is given; the source redacts it first, and orders the rows to resume by their due time, of which `LoopMachine` allows every order.
- LoopMachine.Step: overlapping reconciliations, external `runNow` calls and `detachAll` are not events.
- Worktrees.PickPath: two repositories share one base directory but not one lock, so two concurrent creations for different repositories can pick the same path; git then refuses one of them.
- RepositoryLock.WorktreeLock.CreateBranch: the candidate probes of an undisturbed holder run as one call; their interleaving with other calls is in `RepositoryLock.Step`. Base-ref resolution, in-progress operation checks, slugs and worktree removal checks are not modelled.
- Trimming of identities in the binding and launch repositories: they arrive trimmed, with an empty string counting as missing.
- Launch.Step: the checks of an Activity instance (application, location, participants, membership, scopes, user) are the success or failure of an await.
- RequestVerification.PayloadBinds: asks for fields without newlines; nothing is claimed about collisions of the digests.
- Missions.SnapshotRoundTrip: holds for the missions in any order, so the locale-aware sort is not modelled; object cloning is invisible for values.
- Duration.FormatParse: integers are exact, so digit groups too long for a double are not rounded.
- Handlers, configuration, settings, HTTP plumbing, the agent-team composition and mission projection: field lookups and I/O that would only add easy members.
