# A verified model of the host process

The host process runs chat agents in containers. It schedules them, pipes messages to them, reads what they print,
brings their answers to the user, and keeps its configuration on disk. This project models the parts of it where
state, interleaving and refinement meet, and proves what they keep in every run.

`dafny verify dfyconfig.toml` checks the whole project.

## How it is laid out

Code that works step by step is modelled twice. A class has the source's fields and methods, loops included; an
asynchronous method is cut at its awaits, and each piece is a method of its own. A model on values, in the files named
`...Model.dfy`, says what each step does, and the methods of the class are proved to do exactly that and to keep the
invariant. The theorems are about the values: an event is a call, a settlement of an awaited operation, an exit or a
timer, and a run is any sequence of possible events.

| part | files |
|---|---|
| scheduler: steps | `GroupQueue`, `QueueModel`, `QueueInvariants`, `QueueMoves`, `QueueDraining`, `QueueRuns` |
| scheduler: every disciplined run | `QueueTheorems`, `QueueDiscipline`, `QueueWakeups`, `QueueTasks` |
| scheduler: every run | `QueueCursors`, `QueueRollback`, `QueueFairness`, `QueueMessages`, `QueueTurns` |
| thinking-preview edits | `CoalescerModel`, `CoalescerTheorems`, `FlashEditCoalescer` |
| container output | `StreamModel`, `ContainerRunner` |
| end of a turn | `TurnModel`, `TurnTheorems`, `TurnAnswers`, `TurnTexts`, `TurnStreams`, `TurnFailures`, `TurnTerminal` |
| outbound delivery | `DeliveryModel`, `DeliveryTheorems`, `Delivery` |
| configuration: chats | `ChatLayout`, `ConfigChats`, `MigrationModel`, `Migration` |
| configuration: files | `ConfigBackups`, `JsoncModel`, `Jsonc`, `Bindings` |
| stuck containers | `HostSweep` |
| shared | `Options`, `Text`, `Records`, `Sorting` |

## What the environment is assumed to do

- **Scheduler.** What is said of accounting, wakeups and tasks is for runs that keep one discipline: no process death
  is acted upon on a slot while a run of that slot is pending. The comment at `src/group-queue.ts:286` asks for it.
  `DisciplineIsExact` shows that the count of active slots stays right under exactly this condition, and
  `DisciplineIsNeeded` what happens otherwise: the exit listener and the finally blocks each give back a unit. The
  repository's own task path can break it: `src/task-scheduler.ts:286` marks the task's slot idle while the task's run
  is pending, so an exit that is seen before that promise settles releases the slot early; `DisciplineIsNeeded` is
  that case. What `proc.exitCode` and `proc.killed` say, whether the IPC write succeeds and whether stale IPC files
  are found are free choices at each look. Chat jids do not contain `::task::`.
- **Coalescer.** editMessage suspends before it settles.
- **End of a turn.** What handling an output writes to the streaming fields is arbitrary, and wires may die at any
  time, so the results hold for whatever the output branches do with them.
- **Delivery.** Message ids are unique across sessions, and a query returns each row once. Store and adapter may fail
  at every call; each result names the failures it excludes.
- **Configuration.** File operations succeed, and JSON parsing is an arbitrary function from text to a value or an
  error. Objects are dictionaries without inherited keys.

## Where the code does not do what is said of it

- `runForGroup`'s finally block releases a slot without clearing its rollback cursor, so "since the last slot release"
  holds of the cursor only while the slot is active (`RollbackIsFirstPiped`, `StrandedExactly`, `CursorOutlivesItsRun`).
- A message that is piped after the agent's first output of a run, and is in flight when the agent dies, is not
  reported for rollback, though the comment at `src/group-queue.ts:59` says that it would be lost: `agentHasOutput` is
  not reset when a message is piped (`ExitReportsExactly`, `SecondMessageUnreported`).
- A retry of a turn whose start cursor is the empty string loses that cursor (`RetryKeepsTurnExactly`); a chat's first
  turn has that one, by `src/index.ts:378` (`EmptyCursorIsLost`).
- Latest wins for texts but not for options (`OptionsGoStaleExactly`, `OptionsMayGoStale`).
- The coalescer's `drain` and `clear` may forget a slot whose worker still runs; then, and only then, the next enqueue
  can start a second worker for the same message (`SecondWorkerExactly`, `SecondWorkerStarts`).
- A payload that contains the end marker is cut short (`FramesRoundTrip`, `EndMarkerCutsPayload`).
- A terminal that starts while another one's plain send is in flight treats that send as failed
  (`BesideASendAsksExactly`, `RacingTerminalAsksForRetry`); the comment at `src/index.ts:1311` calls repeats no-ops,
  which they are once those that run side by side have returned (`SettlesQuiet`, `RepeatsDoNothing`).
- A message whose insert into the delivered table fails is delivered again (`LeftUnmarkedExactly`,
  `UnmarkedSuccessRepeats`).
- A first heartbeat can turn "let live" into a kill (`KinderKeepsAlive`, `FirstHeartbeatCanKill`).
- Saving drops an id that is not a number, and a registered channel's chats without jid or name do not come back as
  they were (`SaveLoadExactly`, `NamelessComesBackNamed`).
- A top-level record that mixes lists and single entries keeps main chats that the migration did not visit
  (`MigrateToOneMainExactly`, `MixedLayoutKeepsTwoMains`). In a grouped record, version 7 drops the whole list under
  `other` (`MigrateConfig`).

## Model

| member | source | states |
|---|---|---|
| QueueTheorems.ConcurrencyIsBounded | src/group-queue.ts:183-890 | In every disciplined run, activeCount is the number of active slots, never negative and never above MAX_CONCURRENT_CONTAINERS |
| QueueTheorems.ReleasedExactlyOnce | src/group-queue.ts:338-797 | Every activation is in force on exactly one slot or has been released exactly once, by one of the exit handler, sendMessage, runForGroup and runTask; runTask releases exactly the task slots |
| QueueTheorems.NoLostWakeup | src/group-queue.ts:819-890 | A non-empty waiting list means the cap is reached; an inactive chat slot has pendingMessages if and only if it waits; every waiting chat is such a slot; no key waits twice |
| QueueMessages.MessageRemembered | src/group-queue.ts:183-205 | In every possible run, disciplined or not: from a check for messages on, unless the chat is killed, processMessagesFn has been called for it since, or its pendingMessages is set |
| QueueMessages.MarkedIsLookedAfter | src/group-queue.ts:183-205 | In every disciplined run a chat with pendingMessages is active, or waits with the cap reached |
| QueueMessages.ForgottenExactly | src/group-queue.ts:584-612 | An event clears pendingMessages without the messages being fetched if and only if it kills an active chat |
| QueueMessages.FetchedForReason | src/group-queue.ts:819-860 | In every possible run processMessagesFn is called for a chat, or its pendingMessages set, only if it was set, a check came in, an agent is recycled, or an exit or a send found messages that a dead agent will not read |
| QueueTheorems.TasksStartOnce | src/group-queue.ts:216-246 | Accepted tasks are, as multisets, the started ones plus the waiting ones; the waitingTaskFns keys are exactly the waiting task keys; a task slot exists exactly while its run is pending and then does not wait |
| QueueTheorems.DuplicateDroppedExactly | src/group-queue.ts:216-231 | enqueueTask drops a task if and only if one with its key is waiting or running |
| QueueTasks.TaskSlotChangesExactly | src/group-queue.ts:250-283 | In every disciplined run: a task that starts finds a new slot, without a process and not waiting; the slot changes only when the task says that it waits or a process is registered on it, and is gone when the task ends; a late registration does not bring it back |
| QueueCursors.RollbackIsFirstPiped | src/group-queue.ts:459-488 | In every possible run, disciplined or not: the rollback cursor is the first non-empty cursor piped since the last output, run start or clearing release; so it is while the slot is active when every release counts, and for an inactive slot exactly when it carries none |
| QueueCursors.StepCursors | src/group-queue.ts:183-890 | Every possible event, disciplined or not, keeps the rollback cursors in step with the history of pipes, outputs, starts and releases |
| QueueRollback.StrandedExactly | src/group-queue.ts:736-763 | In every possible run, an event leaves an inactive slot with a rollback cursor if and only if it settles the run of a slot that has a cursor, whose agent is not kept alive idle and which has no messages pending |
| QueueRollback.CursorOutlivesItsRun | src/group-queue.ts:736-763 | A run from an empty queue that ends so: the cursor stays although nothing was piped since the release |
| QueueCursors.ReportedRollbackCovers | src/group-queue.ts:338-366 | In every possible run: with non-decreasing cursors, the rollback reported at a death with messages in flight is at or before every cursor piped in the period |
| QueueTurns.TurnIsRetained | src/group-queue.ts:455-513 | In every possible run a chat retains the texts piped since the last user delivery, joined by newlines in order, empty ones at the start leaving no line, and the cursor set since then, or if none was or it is empty the first non-empty one piped; retries change neither but for an empty start cursor |
| QueueTurns.RetrySendsTheTurn | src/group-queue.ts:521-536 | A retry that goes out pipes the whole retained text, with the start cursor |
| QueueTurns.SentGoesOutExactly | src/group-queue.ts:406-482 | A message goes out if and only if the chat is active with a folder, its process is not known to have exited and the write succeeds; it goes out with its own text and cursor |
| QueueTurns.TurnNumberCounts | src/group-queue.ts:459-460 | The turn number is the number of the chat's run starts plus the messages that went out, retries included |
| QueueTurns.ProcessIsKnown | src/group-queue.ts:250-283 | In every possible run a chat's slot has the process and the folder registered since it was last released, and idleWaiting is set if and only if the agent has said that it waits and has since been told nothing, been found dead or been started anew |
| QueueTurns.KeptExactly | src/group-queue.ts:748-761 | When a chat's run settles its slot is kept if and only if its agent waits and has a living process; otherwise it is released |
| QueueTurns.RecycledExactly | src/group-queue.ts:396-404 | An agent is recycled, its messages marked to be fetched anew and nothing else changed, if and only if it is active, waits and has a living process |
| QueueTurns.ExitReleasesExactly | src/group-queue.ts:291-345 | In every possible run, an exit releases an active chat if and only if, since its run started, the agent has said that it waits, or there was output, or something was piped that has had no output after it |
| QueueTurns.ExitReportsExactly | src/group-queue.ts:304-364 | The exit reports a cursor if and only if something was piped and there has been no output since the run started; without one if and only if there was output and the agent has not said since that it waits |
| QueueTurns.SecondMessageUnreported | src/group-queue.ts:304-364 | A run in which a message that follows an answer is in flight and its cursor is not reported |
| QueueDiscipline.DisciplineIsExact | src/group-queue.ts:286-366 | From a good state a possible event is disciplined if and only if activeCount is the number of active slots, within the cap, after it and after every disciplined run that follows |
| QueueDiscipline.DisciplineIsNeeded | src/group-queue.ts:743-797 | A concrete run in which a death observed too early makes activeCount -1 and lets two chats run with a cap of one |
| QueueTheorems.TurnSeqGrows | src/group-queue.ts:495-497 | No event lowers a chat's userTurnSeq or forgets its slot |
| QueueTheorems.RetryKeepsTurnExactly | src/group-queue.ts:521-536 | A retry leaves the retained text, and leaves the retained cursor except exactly when it sends a turn whose cursor is the empty string |
| QueueTheorems.EmptyCursorIsLost | src/group-queue.ts:521-536 | A run in which that happens: the first turn of a chat without a cursor is retried, and a second retry finds no turn |
| QueueTheorems.RetriesKeepTurn | src/group-queue.ts:521-536 | With a non-empty start cursor, any number of retries, each sent or not, neither loses nor grows the turn |
| QueueRuns.StepInv | src/group-queue.ts:183-890 | Every disciplined event keeps the whole invariant: accounting, waiting list, release ledger, rollback cursors, conservation of tasks |
| QueueRuns.RunInv | src/group-queue.ts:183-890 | So does every disciplined run |
| QueueDraining.DrainWaitingActivatesPrefix | src/group-queue.ts:862-890 | The drain loop activates a prefix of the waiting list, in order, and leaves the rest as it was |
| QueueDraining.DrainWaitingStartsPrefix | src/group-queue.ts:862-890 | The tasks that the drain loop starts are those of that prefix, in order |
| QueueFairness.FirstComeFirstServed | src/group-queue.ts:183-246 | Over any run, disciplined or not, the waiting list is what it was followed by the keys that the events of the run parked, in the order of those events, less a number of keys from the front: no key is overtaken |
| QueueFairness.StepIsFirstComeFirstServed | src/group-queue.ts:862-890 | In one step keys leave the waiting list only from its front, and what joins, at its end, is the key that the event parks because the cap is reached, one at most |
| QueueWakeups.PendingServedOnRelease | src/group-queue.ts:338-366 | A wakeup that is pending when a run settles, a listener releases the slot, or a send finds the process dead is served in that very step; if the slot was released, by a fresh run |
| QueueWakeups.BackoffCycle | src/group-queue.ts:799-817 | Failures in a row are retried after 5, 10, 20, 40 and 80 seconds, then not at all, and the cycle of six starts over |
| QueueWakeups.SettlementCounts | src/group-queue.ts:714-763 | A failed run takes one step in the backoff cycle, a successful one resets it, and the drain that follows does not touch it |
| GroupQueueClass.GroupQueue.GetSlot | src/group-queue.ts:123-150 | Finds or creates the slot; every other slot and field is unchanged |
| GroupQueueClass.GroupQueue.RunForGroup | src/group-queue.ts:714-736 | Up to its await: the slot is activated with its per-run fields reset, one unit is counted, one run is pending |
| GroupQueueClass.GroupQueue.RunForGroupSettled | src/group-queue.ts:736-763 | From its await on: the outcome is booked, the slot released unless kept alive idle, and the group drained |
| GroupQueueClass.GroupQueue.RunTask | src/group-queue.ts:765-778 | Up to its await: the task slot is activated and the task has been called |
| GroupQueueClass.GroupQueue.RunTaskSettled | src/group-queue.ts:779-797 | From its await on: the throwaway slot is gone, one unit given back, and the waiting list drained |
| GroupQueueClass.GroupQueue.NoteOutcome | src/group-queue.ts:799-817 | The retry counter and the delay of the retry that is scheduled |
| GroupQueueClass.GroupQueue.DrainWaiting | src/group-queue.ts:862-890 | The loop over the waiting list computes the recursive model, which starts slots in order while capacity lasts |
| GroupQueueClass.GroupQueue.DrainGroup | src/group-queue.ts:819-860 | A pending wakeup is piped to the kept idle agent or starts a run; otherwise the waiting list is drained |
| GroupQueueClass.GroupQueue.EnqueueMessageCheck | src/group-queue.ts:183-206 | Marks, parks or starts, and nothing else |
| GroupQueueClass.GroupQueue.EnqueueTask | src/group-queue.ts:216-246 | Drops a known key, parks at the cap, or starts |
| GroupQueueClass.GroupQueue.RegisterProcess | src/group-queue.ts:254-285 | A task key without a slot is ignored; otherwise the process and folder are noted |
| GroupQueueClass.GroupQueue.OnProcessExit | src/group-queue.ts:338-366 | Releases the slot in exactly the three cases, reports the rollback cursor, and drains the owning chat |
| GroupQueueClass.GroupQueue.SendMessage | src/group-queue.ts:406-493 | Not sendable: nothing; dead process: released, marked pending and drained; otherwise piped with cursors and turn text, or left with idleWaiting cleared when the write fails |
| GroupQueueClass.GroupQueue.RecycleIdleForAuthRefresh | src/group-queue.ts:396-404 | Marks an idle live agent's chat as pending and says so, or changes nothing |
| GroupQueueClass.GroupQueue.KillActive | src/group-queue.ts:584-645 | Clears pendingMessages of an active chat and says so, or changes nothing |
| GroupQueueClass.GroupQueue.MarkIdle | src/group-queue.ts:386-389 | Only idleWaiting of the chat is set |
| GroupQueueClass.GroupQueue.NotifyTaskIdle | src/group-queue.ts:653-656 | Only idleWaiting of an existing task slot is set |
| GroupQueueClass.GroupQueue.NotifyUserDelivery | src/group-queue.ts:507-511 | Only the retained cursor and text are dropped |
| GroupQueueClass.GroupQueue.NotifyAgentOutput | src/group-queue.ts:543-550 | Piped count and rollback cursor are cleared, output is noted |
| GroupQueueClass.GroupQueue.RequestDeliveryRetry | src/group-queue.ts:521-536 | The retained turn is piped again and, if that fails, put back |
| CoalescerTheorems.LatestWins | src/flash-edit-coalescer.ts:73-113 | In every run, on every slot: at most one edit outstanding; the frames sent are a subsequence of those enqueued, so no more edits than enqueues; idle without an orphan, the last text sent is the latest enqueued |
| CoalescerTheorems.OrphanReportedOnce | src/flash-edit-coalescer.ts:80-102 | In every run the settlements that found an orphan are as many as the onOrphan calls made and the orphans still being deleted, and no slot has more than one |
| CoalescerTheorems.OrphanDeletedFirst | src/flash-edit-coalescer.ts:78-98 | In every run on a channel that can delete, onOrphan is called once for each deletion that has settled; on one that cannot, nothing is ever being deleted and onOrphan is called for each orphan found |
| CoalescerTheorems.OrphanEndsSlot | src/flash-edit-coalescer.ts:80-102 | The settlement that finds an orphan starts no edit, none starts while it is deleted, and afterwards no step changes or reaches the slot |
| CoalescerTheorems.OneWorkerPerMessage | src/flash-edit-coalescer.ts:115-145 | In every run that never forgets a slot whose worker is running, no two running workers have the same message id |
| CoalescerTheorems.SecondWorkerExactly | src/flash-edit-coalescer.ts:115-145 | While every running worker can be found by its message id, a step lets the next enqueue give some message a second worker if and only if it forgets a slot whose worker is running |
| CoalescerTheorems.SecondWorkerStarts | src/flash-edit-coalescer.ts:115-143 | A run in which two workers run for one message: clear forgets it while its first edit is under way |
| CoalescerTheorems.OptionsGoStaleExactly | src/flash-edit-coalescer.ts:109-112 | In every run a step leaves a worker at rest on an outdated frame if and only if it settles an edit whose text is the latest but whose options are not, or it was so already and nothing is enqueued into the slot |
| CoalescerTheorems.OptionsMayGoStale | src/flash-edit-coalescer.ts:109-112 | A run of three events in which it happens |
| FlashEditCoalescerClass.FlashEditCoalescer.Enqueue | src/flash-edit-coalescer.ts:115-129 | Overwrites the latest frame, and starts a worker only if none runs |
| FlashEditCoalescerClass.FlashEditCoalescer.EditSettled | src/flash-edit-coalescer.ts:80-113 | From the await of editMessage on: next round, rest, or orphan handling |
| FlashEditCoalescerClass.FlashEditCoalescer.DeleteSettled | src/flash-edit-coalescer.ts:83-102 | From the await of deleteMessage on: the slot is removed, onOrphan called, the worker over |
| FlashEditCoalescerClass.FlashEditCoalescer.Forget | src/flash-edit-coalescer.ts:130-140 | The end of drain: the entry is deleted whether or not a worker runs |
| FlashEditCoalescerClass.FlashEditCoalescer.Clear | src/flash-edit-coalescer.ts:141-143 | All entries are deleted |
| StreamModel.ChunkingIrrelevant | src/container-runner.ts:529-553 | However the output is split, the incremental parser yields the payloads and the leftover of the whole text |
| StreamModel.SameTextSameResult | src/container-runner.ts:529-553 | Two splittings of one text give the same payloads and the same leftover |
| StreamModel.PairStable | src/container-runner.ts:532-537 | A complete pair stays the first one, with the same payload, whatever arrives later |
| StreamModel.LeftoverIsDrained | src/container-runner.ts:532-534 | What is left in the buffer holds no complete pair |
| StreamModel.FramesRoundTrip | src/container-runner.ts:44-46 | Framed payloads that start and end with a non-blank parse back to exactly the payloads written if and only if none contains the end marker |
| StreamModel.EndMarkerCutsPayload | src/container-runner.ts:44-46 | A JSON string that is the end marker comes out cut short |
| StreamModel.LastSessionIs | src/container-runner.ts:541-543 | The session kept is that of the last output that names one |
| StreamModel.OutputMarkersWellChosen | src/container-runner.ts:44-46 | The two markers are non-empty, hold no newline, and the end marker does not occur in the start marker |
| ContainerRunner.StdoutHandler.OnData | src/container-runner.ts:513-557 | After any chunk the buffer, the delivered outputs, the session id, the log text and its truncation flag are functions of the text received so far |
| ContainerRunner.StdoutHandler.DrainBuffer | src/container-runner.ts:532-557 | The loop ends with the leftover in the buffer and has delivered the payloads of the text, in order |
| ContainerRunner.StdoutHandler.Deliver | src/container-runner.ts:539-555 | A payload that parses is chained once and its session id noted; one that does not is skipped |
| ContainerRunner.StdoutHandler.Accumulate | src/container-runner.ts:516-526 | The log keeps the first maxSize characters, and is marked truncated if and only if more arrived |
| JsoncModel.PiecesAreValid | src/jsonc.ts:33-85 | Every text is a list of characters, quoted texts and comments |
| JsoncModel.PiecesAreUnique | src/jsonc.ts:33-85 | In only one way |
| Jsonc.StripPieces | src/jsonc.ts:24-87 | The scanner's output is the text of the pieces that are not comments |
| Jsonc.StripRemovesExactlyTheComments | src/jsonc.ts:24-87 | Read as pieces, the output is the input without its comments: quoted texts and all other characters stay, in order, and are read the same afterwards |
| Jsonc.NoCommentsLeft | src/jsonc.ts:24-87 | Removing comments never makes a new one |
| Jsonc.UnchangedExactly | src/jsonc.ts:24-87 | A text is left as it is if and only if it is read without a comment |
| Jsonc.Idempotent | src/jsonc.ts:24-87 | Stripping twice is stripping once, on every input |
| Jsonc.OnlyRemoves | src/jsonc.ts:24-87 | The output is a subsequence of the input, from any scanner state |
| Jsonc.StringsStay | src/jsonc.ts:52-67 | Whatever stands between quotes of either kind stays, comment signs and escaped characters included |
| Jsonc.CommentsGo | src/jsonc.ts:36-51 | A line comment goes up to its newline, a block comment with its ends |
| Jsonc.StripJsonComments | src/jsonc.ts:24-87 | The loop over four flags computes the scanner's output on every input |
| Jsonc.ParseJsonc | src/jsonc.ts:95-105 | A text that parses is not stripped; otherwise the text without its comments decides, and the error is that of the strict parse |
| Bindings.LoadBindings | src/bindings-loader.ts:68-87 | Every cell of the table holds the agent of the earliest usable binding for exactly that cell |
| Bindings.ResolveBinding | src/bindings-loader.ts:111-135 | On any table, the hit is a non-empty cell of the query that no other non-empty cell of the query outranks; no hit if and only if there is none |
| Bindings.Route | src/bindings-loader.ts:68-135 | Loading and resolving is a scan of the list for the most specific matching binding, the earliest of those |
| Bindings.SameRankSameCell | src/bindings-loader.ts:99-109 | The precedence order is strict: two cells of one query with the same rank are the same cell |
| Bindings.FirstForIs | src/bindings-loader.ts:80-83 | The cell's agent is that of a binding for it before which there is no other |
| Bindings.FilledCellsStay | src/bindings-loader.ts:80-83 | Appending bindings never changes a filled cell |
| Bindings.AppendedTakeOverExactly | src/bindings-loader.ts:68-135 | Appended bindings change who answers a query if and only if one of them matches more specifically |
| HostSweep.DecideStuckAction | src/host-sweep.ts:108-152 | A ceiling kill exactly when the ceiling rule holds, otherwise a kill for the first stuck claim in list order, otherwise none, with the ages and limits reported |
| HostSweep.PrescribedIsUnique | src/host-sweep.ts:108-152 | The rules prescribe one decision and no other |
| HostSweep.KinderKeepsAlive | src/host-sweep.ts:108-152 | When now is earlier, the heartbeat later, the Bash timeout larger, the limits laxer and the claims fewer, a container let live is let live, if and only if it is not a first heartbeat that is already past the ceiling |
| HostSweep.MonotoneWithHeartbeat | src/host-sweep.ts:108-152 | With a heartbeat present none of those changes turns ok into a kill |
| HostSweep.FirstHeartbeatCanKill | src/host-sweep.ts:125-131 | Without one, a heartbeat that appears can |
| HostSweep.BashIsAwaited | src/host-sweep.ts:108-152 | While a Bash command runs, nothing is killed until the time declared for it is over |
| HostSweep.SilentClaimKills | src/host-sweep.ts:138-149 | A claim older than the limit kills unless a heartbeat came after it; one at the same time does not count |
| HostSweep.OnlyBashCounts | src/host-sweep.ts:277-280 | What another tool declares does not influence the decision |
| HostSweep.DefaultLimits | src/host-sweep.ts:120-122 | Limits that are not given are half an hour and a minute |
| HostSweep.ZeroDisables | src/host-sweep.ts:132-145 | A limit of zero is no limit, and a claim whose time does not parse is never stuck |
| ConfigBackups.ConfigFiles.RotateConfigBackups | src/config-loader.ts:1185-1201 | Every backup moves one place on, gaps included, the oldest is lost, the newest place is free, and no other file changes |
| ConfigBackups.ConfigFiles.BackupConfig | src/config-loader.ts:1204-1214 | On any ring, the configuration goes in front and the oldest is lost; so a ring that started empty holds exactly the most recent min(n,5) contents backed up, newest first, after any backups, writes and losses; the configuration is untouched |
| ConfigBackups.ConfigFiles.RecoverFromBackup | src/config-loader.ts:1217-1236 | Whatever the ring holds, gaps included, the newest backup that parses is returned and restored; failing that nothing changes |
| ConfigBackups.RecoversNewestThatParses | src/config-loader.ts:1217-1236 | From such a ring, what is recovered is the most recent of the last five contents that parses |
| ConfigBackups.NamesDiffer | src/config-loader.ts:1182-1201 | The five names and the configuration's are all different |
| ChatLayout.SaveLoadExactly | src/config-loader.ts:490-657 | A layout read back gives the saved chats, no more and no fewer, if and only if every chat has a numeric or no id and, when its channel is registered, a jid and a name |
| ChatLayout.NamelessComesBackNamed | src/config-loader.ts:490-657 | A chat without a name on a registered channel comes back with its jid for a name |
| ChatLayout.ReadBackExactly | src/config-loader.ts:490-657 | The same for one chat, independently of the others |
| ChatLayout.NothingNew | src/config-loader.ts:490-657 | Nothing comes back that was not saved, from registered or unregistered channels |
| ChatLayout.ChannelIsByPrefix | src/config-loader.ts:474-481 | The part of a jid before its first colon decides the channel, by a table of five |
| ChatLayout.GroupedAnywhere | src/config-loader.ts:490-520 | A top level is read as grouped if and only if some key that is the name of a channel holds a list, wherever it stands |
| ChatLayout.GroupsFillUp | src/config-loader.ts:490-553 | A grouped top level only fills up: a chat that a channel lists is read from there, any other from the first entry for it in the groups |
| ChatLayout.ListsReadClean | src/config-loader.ts:490-553 | A chat read from a list has a number or no id, and a name |
| ChatLayout.ListsAreSorted | src/config-loader.ts:621-624 | Each channel's list is sorted by id, is a permutation of the channel's chats, and keeps the order of equal ids |
| ConfigChats.Config.DistributeChatsToChannels | src/config-loader.ts:601-657 | Whatever the layout was before, every registered channel gets its own chats or loses its list, and the rest goes to top level, each jid once: channel by channel in the order in which they first occur, and within a channel in the order of ids |
| ConfigChats.NormalizeChats | src/config-loader.ts:490-553 | The loops compute the reading: the last canonical entry of a jid, then top-level ones only where there is none |
| ConfigChats.SaveThenLoad | src/config-loader.ts:490-657 | Saving and loading, run one after the other, give back the chats if and only if each survives the layout |
| ConfigChats.GroupByChannel | src/config-loader.ts:605-620 | The groups are the channels' chats in record order; no group is empty |
| Sorting.SortIsSorted | src/config-loader.ts:621-624 | The sort puts elements in order |
| Sorting.SortIsStable | src/config-loader.ts:621-624 | It keeps elements that compare the same in order |
| Migration.MigratePureLayout | src/config-loader.ts:666-1002 | From any version before 4 with a purely grouped or purely flat layout: every chat left was visited, at most one is a main chat although version 5 adds one, and the ids are a numbering as below |
| Migration.MigrateToOneMainExactly | src/config-loader.ts:666-1002 | From any version before 4, whatever the layout, at most one main chat is left if and only if, of the chats left that are not visited, at most one is a main chat, and none when the kept one is left too; flags, keys and ids are those found before |
| MigrationModel.KeptIsUnique | src/config-loader.ts:821-836 | Which main chat is kept is determined by the configuration as it is found |
| MigrationModel.NumberingIsUnique | src/config-loader.ts:792-814 | The ids, numbering rules and walk order leave one numbering only |
| Migration.MixedLayoutKeepsTwoMains | src/config-loader.ts:775-790 | A configuration with two main chats left: a list and a single entry, each with one |
| MigrationModel.KeysThatGo | src/config-loader.ts:846-854 | Which keys go: other and all that begin with tui:, of which version 5 takes those that go on with a number |
| Migration.ConfigFile.MigrateConfig | src/config-loader.ts:666-1002 | For every version and layout: which keys are gone, that all visited chats are numbered, which one main chat is kept, and that nothing changes at version 9 |
| Migration.AssignIds | src/config-loader.ts:792-814 | Numeric ids stay; every other entry gets a positive id that no visited entry has, in walk order, without skipping a free number |
| Migration.IdAllocator.NextFree | src/config-loader.ts:800-804 | The smallest positive number not in use, which is then in use |
| Migration.DedupeMains | src/config-loader.ts:821-836 | Of several main chats the first with the least id stays and all others lose the flag; otherwise nothing changes |
| Migration.ConfigFile.MarkListedMain | src/config-loader.ts:673-689 | Exactly the entries in top-level lists without the flag become main chats |
| Migration.ConfigFile.ConsolidateTui | src/config-loader.ts:842-877 | Without numbered terminal chats nothing changes; with them they are dropped, and unless there is a default already one is made, a main chat with the id of the first of them |
| MigrationModel.PureWalksAll | src/config-loader.ts:752-790 | In a pure layout the numbering visits every chat |
| MigrationModel.WalkedOnce | src/config-loader.ts:752-790 | No object is visited twice |
| MigrationModel.SortedPlaces | src/config-loader.ts:823-825 | The sort brings the entry to keep to the front and leaves exactly the others behind it |
| TurnTheorems.OnePlainSendPerTurn | src/index.ts:531-658 | Over the whole life of the closure, for any interleaving of end paths, outputs and new turns, at most one plain terminal send starts per turn number |
| TurnTheorems.SettlesQuiet | src/index.ts:561-658 | A terminal and any number of further ones, in any interleaving and without an output event, leave nothing to send, end, cancel or retry once all have returned, from whatever state the first one starts and whatever calls are suspended then, if those do not move |
| TurnTheorems.AllSince | src/index.ts:561-658 | With no call in flight, every call that moves later has started since, so the theorem covers every interleaving |
| TurnTheorems.RepeatsDoNothing | src/index.ts:561-658 | With no call in flight, a terminal starts and any number of others, in any interleaving and without an output event; once all have returned, any further ones, again in any interleaving, send nothing, end nothing, cancel nothing and ask for no retry |
| TurnTheorems.BesideASendAsksExactly | src/index.ts:561-658 | A terminal that runs alone to its end while a plain send of the turn is in flight, or has failed, finds the turn failed: the failure is handled when it returns, by a retry in a follow-up turn and as the run's error in the first, if and only if it had not been handled before |
| TurnTheorems.RacingTerminalAsksForRetry | src/index.ts:531-566 | A run of the dispatcher in which the retry is asked for and the send then lands |
| TurnStreams.DraftIsEnded | src/index.ts:561-629 | In any interleaving of terminals without an output event, while the wire of the stream is alive and no plain send has started or is owed: an unsent draft is ended with its text exactly once and never cancelled, and it reaches the user so or its text is sent plainly; any other stream is cancelled and nothing is ended or sent |
| TurnStreams.EndedExactly | src/index.ts:573-629 | For one terminal alone, past the settle: the stream is ended and not cancelled if and only if it is an unsent draft, and cancelled once and not ended if and only if it is there and no draft |
| TurnStreams.DeadDraftGoesPlain | src/index.ts:515-580 | If the wire of a draft is dead when the first of any number of terminals starts, its text goes out plainly, once, and the stream is neither ended nor cancelled |
| TurnTexts.RightTextIsSent | src/index.ts:561-580 | In any interleaving, what goes out plainly is what is due, once: the buffered finals, or else the final that failed; if nothing is due, the partial text or nothing |
| TurnAnswers.ReturnTells | src/index.ts:631-657 | At every step: a returning terminal asks again or reports the failure exactly if the turn has failed and nobody knows, and else reports the delivery exactly if the user got something; nothing is told otherwise |
| TurnFailures.AloneAsksExactly | src/index.ts:561-658 | A terminal alone in a fresh turn takes it for failed exactly if what it tried to send plainly did not land, or a failed final or a buffer could not be tried, or the buffered finals landed and another final had failed |
| TurnAnswers.ReachedExactly | src/index.ts:531-610 | Over any run without output events, the turn counts as delivered plainly, and as sent, if and only if it did before or a plain send, or for the latter the end of a stream, came out fine |
| TurnAnswers.TurnStartsClean | src/index.ts:729-745 | The first output of a new turn finds everything that belongs to a turn as in a new dispatcher; a further one changes nothing |
| TurnTheorems.StepKeepsGate | src/index.ts:531-745 | Every step keeps: one send at most per turn, none for later turns, and the gate says whether the current one has started |
| TurnTerminal.Dispatcher.SendPlainTerminal | src/index.ts:531-553 | Up to the await: gated, or the gate is shut and one send started |
| TurnTerminal.Dispatcher.FinalizeNativeStreamTerminal | src/index.ts:561-566 | Up to its first await, with the gate invariant kept |
| TurnTerminal.Dispatcher.Resumes | src/index.ts:561-658 | From any await to the next or the end, with the gate invariant kept |
| TurnTerminal.Dispatcher.SendUnfinishedPartial | src/index.ts:573-580 | The partial text goes out only if the wire died and nothing else went out |
| TurnTerminal.Dispatcher.EndUnfinishedStream | src/index.ts:587-590 | A healthy unfinished stream with text is ended, at most once |
| TurnTerminal.Dispatcher.Conclude | src/index.ts:631-657 | The retry or failure is decided once, and a delivery is reported otherwise |
| TurnTerminal.Dispatcher.OutputArrives | src/index.ts:729-745 | The gates open again exactly when the turn number has changed |
| DeliveryTheorems.OneDrainPerSession | src/delivery.ts:151-162 | Whatever interleaves and whatever fails, no two drains of one session run and no message is in the hands of two |
| DeliveryTheorems.ThreeAttemptsOneMark | src/delivery.ts:192-226 | While failure marks can be written: at most three attempts start per message, at most one mark is made, none starts after it, and an unmarked message has fewer than three settled |
| DeliveryTheorems.MarksTell | src/delivery.ts:192-226 | In every run, whatever fails: a message is marked as delivered if and only if an attempt at it settled without an error, and as failed if and only if its third or a later attempt had an error that could be written down |
| DeliveryTheorems.FailedAfterThree | src/delivery.ts:208-216 | While failure marks can be written, a message is marked as failed if and only if exactly three attempts have settled and each had an error |
| DeliveryTheorems.DrainLeftExactly | src/delivery.ts:191-226 | A drain is left before its list is done if and only if the failure of a third or later attempt cannot be written down |
| DeliveryTheorems.NeverAfterSuccess | src/delivery.ts:192-226 | If nothing fails after a message reached the user, it does not reach the user again and is not being attempted |
| DeliveryTheorems.LeftUnmarkedExactly | src/delivery.ts:192-226 | An attempt leaves its message to be attempted again if and only if an error came and it was not the third, or its mark failed too |
| DeliveryTheorems.UnmarkedSuccessRepeats | src/delivery.ts:192-206 | With markDelivered throwing, a message reaches the user twice |
| DeliveryTheorems.FailuresDoNotBlock | src/delivery.ts:191-226 | From any moment of a drain to any later one, its messages are attempted in list order, each once, whether they fail or not and whatever other drains do |
| DeliveryTheorems.StepKeeps | src/delivery.ts:151-232 | Every step keeps the guard exact and what each drain has before it unmarked, distinct and of its session |
| Delivery.Deliverer.DeliverSessionMessages | src/delivery.ts:151-185 | Up to the first await: re-entry is refused, otherwise the unmarked due messages are taken |
| Delivery.Deliverer.MessageSettles | src/delivery.ts:192-226 | One settled attempt: mark and forget, count, or mark as failed at the third |
| Delivery.Deliverer.Settles | src/delivery.ts:191-226 | The drain moves on to its next message, or is left by an error |
| Delivery.Deliverer.Returns | src/delivery.ts:157-161 | The guard is lifted for exactly this session |

## Left out

- Shutdown: the scheduling results are for runs before it; drainWaiting does not consult shuttingDown.
- `pendingTasks` of a chat slot, which nothing fills, and the case that no processMessagesFn is set.
- What processMessagesFn and task functions do: their results are arbitrary, and their synchronous part is taken as a
  later step.
- Container names, signals, IPC file contents, timers and process spawning: environment steps and flags.
- Busy acknowledgements, closing of stdin, and all log lines.
- The stderr accumulation, timeouts and exit handling around the stdout parser; decoding of bytes to characters.
- The output branches of processGroupMessages, other than what they may do to the fields that the terminal reads;
  lastFinalMsgId and turnFinalized, which no terminal reads.
- The cursor map of processGroupMessages: a requested retry is counted, and what the queue then does is in
  RequestDeliveryRetry.
- What deliverMessage does before it settles; process restarts, which empty the attempt counts; the typing indicator.
- resetStuckProcessingRows and the sweep around the stuck decision; parsing of timestamps, which is a field of the
  claim; NaN arguments.
- The parts of the migration that concern agents, sandbox, teams accounts, plugins and tokens; entries that are null
  or not objects; fractional ids and versions.
- Loading and merging of the rest of the configuration, environment variables and secrets; audit of saves; file
  permissions of backups.
- Trailing commas and JSON syntax itself.
- Binding match fields that are neither strings nor absent.
- ConfigChats.Config.DistributeChatsToChannels: keys at top level are in the order of insertion; JavaScript moves
  those that look like integers to the front, and reading does not depend on the order.
