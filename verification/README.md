# QASight: a verified model of the run server and the run engine

QASight runs test plans ("cycles") and shows their results. This project models the parts of it
that are hard to get right, and proves what they promise:

- **Runs across processes.** Server processes accept runs, keep them in a FIFO and in a shared
  table, and hand them to a pool of worker threads. Several processes can share the table, crash at
  any point and recover its rows. `RunQueue.dfy` is the stored request and the table,
  `Registry.dfy` the state and the manager that change under their locks, `RunProcess.dfy` all
  interleavings of the threads of one process (one event for each lock region or store call), and
  `RunSystem.dfy` any number of such processes with crashes. `RunProgress.dfy` is what every
  execution can still do, what it waits for and how long it can be seen, `RunVerdict.dfy` what its
  status says of the events of its process, and `RunOrder.dfy` the order of the queue and what the
  table holds and loses.
- **The event stream.** A viewer tails a cycle's events file, which all runs of the cycle share,
  while it is being written. `EventStream.dfy` is the incremental reading, `RunStream.dfy` a viewer
  inside a running system of processes, `RunOvertaken.dfy` the events of a process that lead a
  viewer past the end of its run.
- **Stages.** `Orchestrator.dfy` is the parallel and the sequential stage scheduler,
  `StopScope.dfy` the handshake between starting a stage process and stopping it, `CycleLock.dfy`
  the cycle's lock and the marker in it that serves as a crash journal.
- **Algorithms with a plain specification.** `LoginThrottle.dfy` (failed sign-ins in a sliding
  window), `Retention.dfy` (which runs of the history expire), `CrashScanner.dfy` (crash lines in a
  stream of chunks), `LogBuffer.dfy` (the bounded tail of a log), `GoTest.dfy` (results from
  `go test -json` events) and `FoldAttempts.dfy` (one result for a test that ran more than once).

Classes whose methods change state in place are classes here too. Each method is proved against a
function of the old state (`View`, `Rows`, or a ghost history), and the state machines apply the
same functions, one per lock region, so that what is proved of all runs is about those methods.

## Assumptions

- `recover_queued` runs once when a process starts, before it serves requests
  (`qasight_api/main.py:79-87`).
- `cancel` is only called with an id that `_start` returned. The rollback of a failed `add` frees
  the cycle whoever holds it (`qasight_api/cycle_execution_manager.py:340-343`), so that a cancel
  before would let a second run of the cycle in.
- New execution ids are not in use, and a process that died does not come back.
- Only one process appends to a cycle's events file while a run of the cycle is followed, and the
  runs of a cycle share one events file.
- A file's size is read in the same step as the lock region that records it. Whether it can be
  read is free, and what is said of byte ranges is said of executions whose sizes could be read.
- Calls enter the throttle's lock in the order of their clock readings, which each takes before it
  has the lock, and `max_failures` is at least 1.
- The line matcher of the crash scanner finds nothing in an empty line; the parser of an event
  line is any total function.

## Findings

- The stream can show events of a later run. It samples the end offset and reads the file in two
  steps, so a live read can overtake the end (`ViewerSeesNextRun` gives the events of a process).
  `ViewerSeesItsRun` says exactly when nothing else is sent: the live reads stayed within the end,
  or no other event was read beyond it.
- The stream can lose the last event of a run. A run whose last line was torn off before its
  newline is joined with what the next run appends, when a live read overtakes its end
  (`ViewerMissesTornLine`). A run's own events come first and complete exactly when the live reads
  stayed within the end or the torn line keeps its event, if it has one; a run whose last line is
  complete loses nothing.
- A run's final status cannot always be read, although the bound of the registry is at least 1 for
  that (`qasight_api/cycle_execution_manager.py:37-40`). `_finish` releases an execution before it
  marks it done, and an execution in between can be evicted (`GoneBeforeDone`), exactly when at
  least `max_finished` others were released after it (`InRegistryUntilPushedOut`). Until its release
  an execution is never evicted. A viewer that follows it then misses the events it had not read yet
  (`EvictedStreamStops`).
- The description of the `go test` importer says that a parent is reported only when it has no
  subtests, or failed while none of its subtests did. The code looks at the subtests right below it
  only, and the model follows the code. With `-count=2` a subtest in between can pass on the rerun,
  and then a parent and a subtest deeper down are both reported failed (`ParentReportedTwice`). The
  rule holds exactly when no level is missing below a test without a subtest right below it
  (`DocumentedRuleHolds`), as in a file in which failures reach the parents (`OneRunIsAsDocumented`).
- The crash scanner can miss a crash at the start of a long line, and can report a line of the
  tool's own, which loses the prefix it is ignored for (`LongOpenLineLosesItsStart`,
  `LongToolLineIsScanned`, in chunks as the reader hands them over). Every line is scanned whole
  exactly when, at the end of each chunk, the line that is open then fits the carry
  (`WholeExactly`); so lines that fit the carry are scanned whole however they are cut
  (`LinesThatFit`).
- A failed package can pass unseen among the results: a parent test that failed and then passed on
  a rerun is left out (`FlakyParentIsUnseen`). `FailedPackageStandsOut` says exactly when a failed
  package has a failed, broken or flaky result.
- A run that died holding its cycle's lock can go unrecorded, in exactly two ways (`LostExactly`,
  `DeadRunIsAccountedFor`). `take_unfinished` clears the marker before its caller records the run
  (`qasight/history/maintenance.py:115-116`), and a crash in between loses it (`TakerLosesRun`). A
  run that is not persisted has no `on_unfinished` (`qasight/services/cycle_run.py:177-183`) and
  overwrites the marker without a report (`SilentRunLosesRun`).
- A blocked name or address is forgotten when as many other keys as the cap failed after it, and
  a name when it signs in, and not before (`RememberedExactly`).
- A log tail of 0 bytes is the whole tail (`data[-0:]`), and of `-m` bytes all but the first `m`;
  `LogBuffer.Tail` states this.
- A chunk longer than the ring empties the ring, since only whole chunks are kept.

## Model

| member | source | states |
|---|---|---|
| RunQueue.RoundTrip | qasight_api/run_queue.py:67-85 | A request read back from its JSON is the same request, also when unknown keys were added to the row |
| RunQueue.OlderRowReads | qasight_api/run_queue.py:36-61 | A row without keys that an older version did not know reads as the request with the defaults in their place; without its kind or cycle it is unreadable |
| RunQueue.EmptyValueReads | qasight_api/run_queue.py:82-84 | An empty value of any JSON type in place of the arguments, tests or environment reads as none; another number or flag makes the row unreadable |
| RunQueue.HoldsReadsBack | qasight_api/run_queue.py:77-85 | Any object that holds a request's fields, whatever else it holds, reads as that request |
| RunQueue.DbRunStore.Add | qasight_api/run_queue.py:135-148 | The table gets one row that reads back as the request; a second insert of the id changes nothing |
| RunQueue.DbRunStore.Claim | qasight_api/run_queue.py:150-158 | True exactly when the row was there, which is gone afterwards; no other row changes |
| RunQueue.DbRunStore.ReadRow | qasight_api/run_queue.py:168-178 | A readable row is handed on with its request, an unreadable one is deleted |
| RunQueue.DbRunStore.PendingRuns | qasight_api/run_queue.py:160-179 | Returns the readable rows in the order listed and deletes exactly the unreadable ones |
| RunQueue.ReadableCoversTable | qasight_api/run_queue.py:160-179 | The runs handed on are the rows that stay in the table, each once with its own request, oldest first |
| RunQueue.SourceMonotone | qasight_api/run_queue.py:165-179 | The runs handed on keep the order of the listing |
| Registry.CycleExecutionState.Cancel | qasight_api/cycle_execution_manager.py:362-368 | Wins exactly a queued execution that is not done, which becomes cancelled; otherwise nothing changes |
| Registry.CycleExecutionState.StopRequested | qasight_api/cycle_execution_manager.py:369 | The run's stop switch is on and nothing else changes |
| Registry.CycleExecutionState.BeginRun | qasight_api/cycle_execution_manager.py:407-410 | A worker goes on exactly when the execution is still queued, which is then running |
| Registry.CycleExecutionState.SetEventsStart | qasight_api/cycle_execution_manager.py:475-485 | The events path is known and the start offset is the file's size, or 0 when it cannot be read |
| Registry.CycleExecutionState.SetEventsEnd | qasight_api/cycle_execution_manager.py:545-551 | With an events file the end offset is its size, or the start offset when it cannot be read |
| Registry.CycleExecutionState.SetDone | qasight_api/cycle_execution_manager.py:136-140 | The final status, the error and `done` are set together |
| Registry.CycleExecutionManager.constructor | qasight_api/cycle_execution_manager.py:182-189 | An empty registry that keeps at least one finished execution |
| Registry.CycleExecutionManager.StartRegion | qasight_api/cycle_execution_manager.py:326-333 | Refused exactly when the cycle is active, and then unchanged; otherwise id and cycle are registered |
| Registry.CycleExecutionManager.RollbackRegion | qasight_api/cycle_execution_manager.py:340-342 | The id and the cycle, whoever holds it, leave the registry |
| Registry.CycleExecutionManager.DropLostRegion | qasight_api/cycle_execution_manager.py:420-423 | The id leaves the registry, and the cycle is freed only when this id holds it |
| Registry.CycleExecutionManager.ReleaseRegion | qasight_api/cycle_execution_manager.py:554-559 | Frees the cycle held by this id, appends the id to the deque and evicts exactly the oldest finished ones beyond the bound |
| Registry.CycleExecutionManager.Evict | qasight_api/cycle_execution_manager.py:558-559 | Exactly the oldest finished executions beyond the bound leave the deque and the registry |
| RunProcess.StepKeeps | qasight_api/cycle_execution_manager.py:284-560 | Each lock region and store call, in any interleaving, keeps the invariant of one process |
| RunProcess.FreshHolds | qasight_api/cycle_execution_manager.py:182-194 | A process that has just started meets the invariant, whatever is in the events files |
| RunProcess.RegistryIsExact | qasight_api/cycle_execution_manager.py:540-560 | The registry is the disjoint union of the finished deque and the active executions; the deque is bounded; each execution enters it at most once, exactly when it is released; none is evicted before its release; `done` implies the cycle is free of it |
| RunProcess.OneLivePerCycle | qasight_api/cycle_execution_manager.py:326-333 | At most one execution of a cycle is between its registration and its release |
| RunProcess.BoundedConcurrency | qasight_api/cycle_execution_manager.py:379-391 | No more executions run at once than there are workers |
| RunProcess.StatusOnlyAdvances | qasight_api/cycle_execution_manager.py:352-425 | A status moves queued to running or cancelled, then running to a final one; a run cancelled while queued is never entered; a finished run keeps its record under repeated cancels |
| RunProcess.RangesAreOwnBytes | qasight_api/cycle_execution_manager.py:474-551 | The byte range of a finished execution holds exactly the bytes it appended |
| RunProcess.RangesAreDisjoint | qasight_api/cycle_execution_manager.py:543-551 | The ranges of two executions of a cycle are disjoint and ordered |
| RunProcess.StartsAfterEarlierEnds | qasight_api/cycle_execution_manager.py:474-485 | A run's events start at or after the end of every earlier run of its cycle |
| RunProcess.KeepsBoot | qasight_api/cycle_execution_manager.py:284-308 | During recovery the only executions are the listed runs handled so far, each with its own request, and a dropped one has a queued one of its cycle before it |
| RunProgress.NeverStuck | qasight_api/cycle_execution_manager.py:335-425 | An execution that is not over has a next step of its own, which brings it nearer to its end whatever the store answers; or it waits in the FIFO, and taking the first job there or a step of a busy worker brings its turn strictly nearer |
| RunProgress.RecoveryGoesOn | qasight_api/cycle_execution_manager.py:284-308 | Recovery always has a next step, which brings it nearer to serving, whatever the workers do meanwhile |
| RunProgress.RecoveryKeepsOrder | qasight_api/cycle_execution_manager.py:291-308 | A run that recovery registered is queued next, and one it refused has its row claimed next or recovery ends there; a server that serves never recovers again |
| RunProgress.InRegistryUntilPushedOut | qasight_api/cycle_execution_manager.py:554-560 | An execution is out of the registry exactly when it was released and at least `max_finished` others were released after it; this is when one that is not done yet can be gone |
| RunProgress.LeavesRegistry | qasight_api/cycle_execution_manager.py:310-560 | The one step that takes an execution out: its own rollback, its claim lost to another process, or the release that is one too many |
| RunProgress.GoneBeforeDone | qasight_api/cycle_execution_manager.py:552-560 | A server and the events after which an execution is gone before it is done |
| RunSystem.ActKeeps | qasight_api/cycle_execution_manager.py:310-425 | Steps, crashes and new processes keep the invariant that ties every process to the shared table and the history |
| RunSystem.RunHolds | qasight_api/cycle_execution_manager.py:310-425 | The invariant holds at every moment of every run of the system |
| RunSystem.RunsAtMostOnce | qasight_api/cycle_execution_manager.py:404-425 | Over any number of processes, crashes and recoveries, an id enters `_run_execution` at most once |
| RunSystem.CancelledIsNeverRun | qasight_api/cycle_execution_manager.py:370-376 | A queued run whose `cancel` deleted its row is run by no process, before or after |
| RunSystem.RowsAreDurable | qasight_api/run_queue.py:135-158 | A row keeps its request whatever crashes, until a step that settles the run: it is run, stopped, fails with the store's error, is found unreadable, or is dropped because an earlier run of its cycle was queued |
| RunSystem.SameRequestEverywhere | qasight_api/cycle_execution_manager.py:291-298 | Every process that holds an id holds it with the request it was queued with |
| RunSystem.StatusAlongRun | qasight_api/cycle_execution_manager.py:352-425 | Over a process's whole life a status only advances, and a run cancelled while queued never executes there |
| RunSystem.BootKeepsListing | qasight_api/cycle_execution_manager.py:291-299 | Recovery works through exactly the rows its one select returned |
| RunSystem.RecoveryIsComplete | qasight_api/cycle_execution_manager.py:284-308 | Each readable row of the table at the select is queued under its id with its request, or dropped because an earlier listed run of its cycle was queued |
| RunVerdict.FinalStatusIs | qasight_api/cycle_execution_manager.py:136-140 | The status of a done execution is the one its run ended with, failed when its claim raised, or cancelled when it was stopped while queued; no other |
| RunVerdict.StopTakesEffect | qasight_api/cycle_execution_manager.py:369 | In every run of the system, a run that was asked to stop before it ended does not end as completed, and it ends as cancelled only if it was asked |
| RunVerdict.ShownAsStopped | qasight_api/cycle_execution_manager.py:536-538 | An execution shown as completed was not asked to stop before its run ended; one shown as cancelled was asked before its run ended, or was never run |
| RunVerdict.StopIsPossible | qasight_api/cycle_execution_manager.py:352-377 | An execution that `_start` returned can be asked to stop, which lets its run end as cancelled and no longer as completed |
| RunVerdict.WhoComesFirst | qasight_api/cycle_execution_manager.py:362-410 | Of `cancel` and the worker the first one wins: a run cancelled before its worker began it is never claimed there and stays cancelled; one whose worker began first goes on to its claim |
| RunOrder.TakenInOrder | qasight_api/cycle_execution_manager.py:345 | Over any interleaving, runs are taken in the order in which they were queued |
| RunOrder.AddedAsStarted | qasight_api/cycle_execution_manager.py:335-337 | The row that `add` inserts holds the request and the creation time the run was started with |
| RunOrder.ClaimsAreExact | qasight_api/run_queue.py:150-158 | A claim wins exactly while the row is there; the row it or a cancel deletes is gone for good; without a table every claim wins |
| RunOrder.GoneForGood | qasight_api/run_queue.py:135-158 | A row that was deleted never comes back, whatever the processes do |
| RunOrder.RecoveryCleansUp | qasight_api/cycle_execution_manager.py:300-306 | Once recovery has gone through its listing, the unreadable rows are deleted and so are those of the runs it dropped |
| RunOrder.NothingIsBlocked | qasight_api/run_queue.py:110-179 | What a process can do by itself the store lets it do; a claim gets exactly one answer; a process can crash or join at any moment |
| RunOrder.CrashedIsGone | qasight_api/cycle_execution_manager.py:182-194 | A process that crashed never acts again |
| RunOrder.UnreadSizes | qasight_api/cycle_execution_manager.py:475-551 | A size that cannot be read makes the events start at the beginning of the file, and the range end where it starts |
| EventStream.SplitAdditive | qasight_api/execution_events.py:83 | Splitting at \n, \r and \r\n is additive after a complete line |
| EventStream.LinesEndAt | qasight_api/execution_events.py:83 | A line ends at \n, at \r and at \r\n as one, and nowhere else; an end at the very end makes no other line |
| EventStream.ParseAdditive | qasight_api/execution_events.py:82-89 | Parsing two byte ranges is parsing them together, when the first ends with a complete line |
| EventStream.LastNewline | qasight_api/execution_events.py:81 | Finds how many bytes make complete lines |
| EventStream.ReadNdjson | qasight_api/execution_events.py:68-90 | A live read returns the complete lines after the offset and moves past them; a final read returns exactly the range up to the end; an unreadable file returns nothing |
| EventStream.TailEvents | qasight_api/execution_events.py:117-129 | The loop sends what its turns read, and stops after the turn that sampled an end |
| EventStream.LiveStreamIsExact | qasight_api/execution_events.py:120-127 | While the run is live, exactly its complete lines so far were sent: none lost, none twice, in file order |
| EventStream.ReachedWithin | qasight_api/execution_events.py:120-127 | The reader stays within the end when no live read saw the file beyond it |
| EventStream.StreamDeliversRange | qasight_api/execution_events.py:117-129 | For every schedule that ends by sampling `end`, what was sent, exactly: the events of the range, or, when a live read went beyond `end`, those of its complete lines and then of every line up to there |
| EventStream.StreamStartsWithRange | qasight_api/execution_events.py:117-129 | Exactly when the events of the range come first, and exactly when nothing else is sent |
| EventStream.LateReadShowsNextRun | qasight_api/execution_events.py:121-125 | A schedule in which a later run's event is sent |
| EventStream.TornLineIsLost | qasight_api/execution_events.py:121-125 | A schedule in which the event of a torn last line is lost |
| RunStream.OwnBytesOfRange | qasight_api/cycle_execution_manager.py:543-551 | When a range is where an execution's bytes are, its bytes in file order are the range |
| RunStream.FollowingKeeps | qasight_api/execution_events.py:158-177 | Between two turns of a viewer the cycle's file only grows and the offsets it follows do not move |
| RunStream.ViewerSeesItsRun | qasight_api/execution_events.py:144-186 | In every run of the system and for every schedule, a viewer of a registered execution is sent the events of the bytes it appended, first and in order, exactly when its reads stayed within the end or the last line keeps its event, which a complete one does; and nothing else exactly when no other event was read beyond the end |
| RunStream.EvictedStreamStops | qasight_api/execution_events.py:172-177 | A viewer of an execution that is evicted while it is followed is sent nothing more, whatever its run has appended |
| RunOvertaken.Overtaken | qasight_api/cycle_execution_manager.py:543-560 | For any bytes of two runs of a cycle and either outcome of the first, the events of a process in which the second appends before the first is done |
| RunOvertaken.ViewerSeesNextRun | qasight_api/execution_events.py:121-125 | In such a process a viewer of the first run is sent the event of the second |
| RunOvertaken.ViewerMissesTornLine | qasight_api/execution_events.py:121-125 | In such a process a viewer of a run that failed while writing its last line misses that line's event |
| Orchestrator.ParallelIsLegal | qasight/engine/orchestrator.py:305-333 | For all plans, completion orders and interrupt times the loop ends with a legal schedule: a prefix of the plan starts, at most `max_parallel` at once, each started stage finishes once, none starts after a stop or a fail-fast failure, no waiting with a free slot unless stopped or nothing is pending |
| Orchestrator.LooksAreExact | qasight/engine/orchestrator.py:311-312 | The k-th look at the flag sees what is requested then |
| Orchestrator.WakesAreExact | qasight/engine/orchestrator.py:321-328 | The pool wakes up on the first stage that ends: the k-th wait finishes exactly the running stages that have ended by then, in plan order, before anything else is called; if the environment names none, at least one running stage and only such |
| Orchestrator.FewStartsAfterRequest | qasight/engine/orchestrator.py:310-319 | At most `max_parallel` stages start after a stop request |
| Orchestrator.OneStartAfterRequest | qasight/engine/orchestrator.py:274-284 | The sequential loop starts at most one stage after a stop request |
| Orchestrator.ResultsInOrder | qasight/engine/orchestrator.py:333 | The results are those of the started stages, in plan order |
| Orchestrator.OneSlotIsSequential | qasight/engine/orchestrator.py:263-333 | With one slot the pool makes the same start, execute, finish and abort calls as the sequential loop and returns the same list |
| Orchestrator.RunSequential | qasight/engine/orchestrator.py:272-285 | The loop makes the calls and returns the list of the sequential specification |
| Orchestrator.RunParallel | qasight/engine/orchestrator.py:305-333 | The loop makes the calls and returns the list of the parallel specification |
| Orchestrator.StartAll | qasight/engine/orchestrator.py:313-319 | The inner loop fills the free slots as the specification does |
| Orchestrator.ReportAll | qasight/engine/orchestrator.py:323-330 | The stages that ended are reported one by one in plan order |
| StopScope.StopSwitch.constructor | qasight/engine/interrupt.py:41-47 | A new switch runs nothing and was not asked to stop |
| StopScope.StopSwitch.Add | qasight/engine/interrupt.py:49-51 | The process is in the scope and nothing else changes |
| StopScope.StopSwitch.Discard | qasight/engine/interrupt.py:53-55 | The process is out of the scope and nothing else changes |
| StopScope.StopSwitch.Request | qasight/engine/interrupt.py:62-67 | Each request counts, and the first one's signal and reason stay |
| StopScope.StepKeeps | qasight/engine/interrupt.py:49-78 | Each region of the stage threads and of the askers keeps the invariant of the handshake |
| StopScope.NoProcessEscapes | qasight/engine/executor.py:408-421 | Once a request is through, every stage process that is still waited for was sent terminate or kill, and all it saw were sent its signal |
| StopScope.LaterRequestsKill | qasight/engine/interrupt.py:57-77 | By the events alone: the first request of a run terminates every process in the scope at its snapshot, every later one kills them, and nobody is killed before there is a second |
| StopScope.InScopeExactly | qasight/engine/interrupt.py:112-122 | A process is in the scope, and in the process-wide set, from when its thread adds it until the thread takes it out |
| StopScope.EveryoneGoesOn | qasight/engine/executor.py:408-421 | In every state each stage thread has a step nearer to the end of its clean-up, also when terminate raised, and each request one nearer to having signalled its snapshot |
| StopScope.ExitSeesWaitingStages | qasight/engine/interrupt.py:112-122 | A stage that is looked at or waited for is in the process-wide set |
| StopScope.RequestIsSeen | qasight/engine/executor.py:408-411 | In every interleaving a stage that looks at the flag after a request was made goes on to terminate its process, and the first request's signal and reason are kept |
| CycleLock.StepKeeps | qasight/engine/cycle_lock.py:119-197 | Each step of `cycle_lock` and `take_unfinished`, and a crash at any step, keeps the journal's invariant |
| CycleLock.HoldersExclude | qasight/engine/cycle_lock.py:164-195 | Two runs of a cycle are never inside the lock at once |
| CycleLock.FoundMarkerIsOfADeadRun | qasight/engine/cycle_lock.py:111-116 | A marker that a holder finds is that of a run that died holding the lock, never of a live run or one that ended |
| CycleLock.DeadRunIsSeenNext | qasight/engine/cycle_lock.py:119-140 | A run that dies inside its body is what the next taker of the lock reads |
| CycleLock.UnreportedMarkerStays | qasight/engine/cycle_lock.py:177-186 | A marker that could not be reported stays for the next taker |
| CycleLock.HolderGoesOn | qasight/engine/cycle_lock.py:176-197 | Whoever holds the lock has a step of its own nearer to its release, and the last one releases it |
| CycleLock.WaiterGetsIn | qasight/engine/cycle_lock.py:162-175 | From every reachable state a run that found the lock held can get it by polling again; a `take_unfinished` gives up |
| CycleLock.TryingIsExact | qasight/engine/cycle_lock.py:164-175 | An attempt gets the lock exactly when nobody holds it, and a crash of the holder frees it |
| CycleLock.CutShortIsNotFound | qasight/engine/cycle_lock.py:86-97 | A marker whose writing was cut short is not a marker |
| CycleLock.TakerRecords | qasight/history/maintenance.py:114-117 | A marker that was taken is recorded by its taker's next step |
| CycleLock.EndedRunLeavesNothing | qasight/engine/cycle_lock.py:187-193 | A run that left its body is never named by the file again, whatever happens to it later |
| CycleLock.DeadRunIsAccountedFor | qasight/engine/cycle_lock.py:119-197 | At every later moment a run that died in its body is named in the file, was reported at least once, is in the hands of a taker, or its marker was cleared without a report |
| CycleLock.LostExactly | qasight/engine/cycle_lock.py:176-186 | A run is lost exactly when a taker dies after it cleared the marker and before the run is recorded, or a run without an `on_unfinished` overwrites the marker |
| CycleLock.TakerLosesRun | qasight/history/maintenance.py:114-117 | The events that lose a run |
| CycleLock.SilentRunLosesRun | qasight/engine/cycle_lock.py:177-186 | The events in which a run without an `on_unfinished` loses one |
| LoginThrottle.WaitIsExact | qasight_api/login_throttle.py:59-74 | The wait of a key is positive exactly at its limit, and the key stays at its limit until the wait is over and no longer |
| LoginThrottle.RetryIsSafeAndTight | qasight_api/login_throttle.py:65-74 | `retry_after` is positive exactly when a key has reached its limit; blocked before `now + wait`, allowed from then on; the whole seconds are safe and less than one too long |
| LoginThrottle.PruningIsInvisible | qasight_api/login_throttle.py:59-63 | Failures that were pruned earlier would be pruned now too, so the stored deque answers like the full history |
| LoginThrottle.Throttle.constructor | qasight_api/login_throttle.py:47-51 | A new throttle tracks nothing |
| LoginThrottle.Throttle.RecentOf | qasight_api/login_throttle.py:59-63 | Returns the failures of the full history that are still in the window, and prunes the stored ones to these |
| LoginThrottle.Throttle.RetryAfter | qasight_api/login_throttle.py:65-74 | Answers from the pruned deques what the full history of the tracked keys says; positive exactly when as many remembered failures as the limit are in the window |
| LoginThrottle.Throttle.Failed | qasight_api/login_throttle.py:76-85 | Both keys note the failure and go last in the order; then the cap holds, and whoever was dropped failed last no later than everyone who stays |
| LoginThrottle.Throttle.Evict | qasight_api/login_throttle.py:84-85 | Drops exactly the first keys beyond the cap |
| LoginThrottle.Throttle.Succeeded | qasight_api/login_throttle.py:87-89 | Clears the name's failures and no other key |
| LoginThrottle.RememberedExactly | qasight_api/login_throttle.py:76-89 | Over any failures and sign-ins, a key is tracked exactly as long as its name has not signed in and fewer other keys than the cap have failed since its last failure |
| LoginThrottle.KeptIsExact | qasight_api/login_throttle.py:76-89 | Over any failures and sign-ins, what is kept of a key is the sequence of the times at which it failed since it was last forgotten |
| LoginThrottle.LimitsHold | qasight_api/login_throttle.py:53-74 | From the calls alone: fewer than `max_failures` failures of the name and fewer than four times as many from the address in the window, and the next attempt is allowed; that many of either, none forgotten, and it is not |
| Retention.ExpiredRunIds | qasight/history/retention.py:51-85 | The one-pass loop returns the ids of exactly the runs the rank rule expires, each once; by days alone, those of the runs that are not running and started more than `days` ago |
| Retention.OldRunsExpire | qasight/history/retention.py:66-78 | By days alone a run expires exactly when it is not running and more than `days` have passed since it started; without a start time, since the beginning of time |
| Retention.ExactlyNStay | qasight/history/retention.py:73-83 | By count alone exactly N runs of a cycle that are not running stay, or all when there are fewer; a running one always stays |
| Retention.NewestStay | qasight/history/retention.py:69-83 | What stays of a cycle by count started later than what expires, or was listed later when both started together |
| Retention.OldestComeFirst | qasight/history/retention.py:84-85 | The expired runs come by start time and then by id |
| Retention.ExpiryIsClosed | qasight/history/retention.py:73-83 | Within a cycle, whatever is older than an expired run and not running expires too |
| Retention.FewSurvive | qasight/history/retention.py:77-83 | At most N runs of a cycle that are not running survive |
| Retention.SecondPassExpiresNothing | qasight/history/retention.py:51-85 | Reapplied to the survivors at the same moment, the rule expires nothing |
| Retention.SortIsNewestFirst | qasight/history/retention.py:69-72 | The reversed stable sort lists every run once, newest first, equal starts last listed first |
| CrashScanner.Scanner.Feed | qasight/engine/crash_signatures.py:183-194 | Scans the lines that ended, in order, and keeps the clipped open line; a settled scanner ignores the rest |
| CrashScanner.Scanner.Finish | qasight/engine/crash_signatures.py:200-205 | Scans the open line once and returns what was found |
| CrashScanner.SplitIsExact | qasight/engine/crash_signatures.py:188 | The lines put together again are the bytes, and no line holds a newline |
| CrashScanner.CrashOfIsFirst | qasight/engine/crash_signatures.py:126-129 | The scan of a whole output answers with the first stack-overflow line if any, else the first crash line, else nothing |
| CrashScanner.AnyChunkingScansLines | qasight/engine/crash_signatures.py:183-216 | However an output is cut into chunks, the scanner answers like the scan of its lines in order, where only a line over the carry limit can have lost its start |
| CrashScanner.WholeExactly | qasight/engine/crash_signatures.py:187-189 | Every line is scanned whole exactly when the open line fits the carry at the end of each chunk |
| CrashScanner.LinesThatFit | qasight/engine/crash_signatures.py:183-216 | When all lines fit the carry, the scanner answers what the scan of the whole output answers |
| CrashScanner.ChunkingIsInvisible | qasight/engine/crash_signatures.py:183-216 | However an output is cut into chunks, when the open line fits the carry at each cut the scanner answers what the scan of the whole output answers |
| CrashScanner.LongOpenLineLosesItsStart | qasight/engine/crash_signatures.py:189 | In chunks of at most 4096 bytes, a line one byte over the carry limit whose crash at the start is missed |
| CrashScanner.LongToolLineIsScanned | qasight/engine/crash_signatures.py:210-213 | In chunks of at most 4096 bytes, a line of the tool's own that loses its prefix and is scanned |
| LogBuffer.LogBuffer.constructor | qasight/engine/log_buffer.py:51-60 | An empty, open buffer of at least one byte |
| LogBuffer.LogBuffer.Feed | qasight/engine/log_buffer.py:69-81 | The history gets the chunk unless it is empty or the buffer is closed; the log stays the concatenation of the history, the ring its window and the counter the ring's size |
| LogBuffer.WindowIsLongest | qasight/engine/log_buffer.py:77-81 | The ring is the longest run of most recent whole chunks that fits |
| LogBuffer.WindowAppend | qasight/engine/log_buffer.py:77-81 | Dropping chunks as they come drops the same ones as dropping them at the end |
| LogBuffer.WindowEndsLog | qasight/engine/log_buffer.py:73-81 | The ring's bytes are the last bytes of the log |
| LogBuffer.LogBuffer.Tail | qasight/engine/log_buffer.py:92-97 | The byte window is the end of the log, of exactly the length asked for, or the whole ring for 0 bytes |
| LogBuffer.LogBuffer.Close | qasight/engine/log_buffer.py:105-114 | Nothing is taken after it, and what was taken stays |
| GoTest.Collect | qasight/reporting/gotest_import.py:103-126 | Tests and packages in order of first appearance, each with the actions that ended its runs |
| GoTest.Parents | qasight/reporting/gotest_import.py:129-134 | The sets hold exactly the names with a finished, or a finally failing, subtest right below |
| GoTest.FailedPackages | qasight/reporting/gotest_import.py:144 | Exactly the packages in which a run of a finished test failed |
| GoTest.Import | qasight/reporting/gotest_import.py:102-174 | Returns the specified results for the events |
| GoTest.ResultsAre | qasight/reporting/gotest_import.py:136-174 | Which results there are, exactly: finished tests by the parent rule, tests that never finished in a failed package, and failed packages nothing else speaks for |
| GoTest.FailureIsReported | qasight/reporting/gotest_import.py:128-142 | Each test that ends in fail has a failed result at itself or at a subtest below it, at any depth |
| GoTest.FailedParentHasNoFailedChild | qasight/reporting/gotest_import.py:137-142 | A failed result is of a test that ended in fail and has no subtest right below it that did |
| GoTest.DocumentedRuleHolds | qasight/reporting/gotest_import.py:128-142 | The documented rule for parents holds of all tests of a file exactly when no level is missing below a test that has no subtest right below it |
| GoTest.OneRunIsAsDocumented | qasight/reporting/gotest_import.py:12-14 | When failures reach the parents, a test has a failed result exactly when it ended in fail and no subtest at any depth did |
| GoTest.ParentReportedTwice | qasight/reporting/gotest_import.py:128-142 | A file for which a parent and a subtest two levels down are both reported failed |
| GoTest.FailedPackageIsReported | qasight/reporting/gotest_import.py:143-173 | A failed package without a failed run of a finished test has a broken result |
| GoTest.FailedPackageStandsOut | qasight/reporting/gotest_import.py:136-174 | Exactly when a failed package has a failed, broken or flaky result |
| GoTest.FlakyParentIsUnseen | qasight/reporting/gotest_import.py:137-142 | A failed package whose one failed run is a parent's that passed on the rerun has none |
| GoTest.BrokenOnlyInFailedPackage | qasight/reporting/gotest_import.py:145-173 | A broken result is only made in a package that failed |
| GoTest.OneResultPerTest | qasight/reporting/gotest_import.py:136-162 | However often a test ran, it makes at most one result, for its finished runs or for never having finished; both kinds come in the order in which the tests first appeared |
| GoTest.OneResultPerPackage | qasight/reporting/gotest_import.py:159-173 | A failed package makes at most one result of its own, in the order of the packages |
| GoTest.StatusTells | qasight/reporting/gotest_import.py:136-142 | A test's result is failed, flaky, passed or skipped exactly as its runs and the last of them say |
| GoTest.AttemptsAddUp | qasight/reporting/gotest_import.py:106-126 | The attempts of a test in two parts of a file are those of the first and then those of the second |
| GoTest.AttemptsOfOne | qasight/reporting/gotest_import.py:121-126 | An event adds its action to the attempts of its own test, if it ends a run, and nothing else |
| GoTest.SeenStays | qasight/reporting/gotest_import.py:116-120 | What has appeared keeps its place when more events come |
| FoldAttempts.FoldAttempts | qasight/reporting/imported_results.py:95-139 | The two loops return the specified list |
| FoldAttempts.Groups | qasight/reporting/imported_results.py:110-112 | Each id has exactly its results, in order |
| FoldAttempts.OnePerTest | qasight/reporting/imported_results.py:113-139 | One result per history id, in order of first appearance |
| FoldAttempts.FoldingIsIdempotent | qasight/reporting/imported_results.py:95-139 | Folding twice is folding once |
| FoldAttempts.NothingToFold | qasight/reporting/imported_results.py:118-120 | A list with one result per id is left as it is |
| FoldAttempts.EachIsItsGroup | qasight/reporting/imported_results.py:114-138 | The result for a test is made from all its attempts and from nothing else |
| FoldAttempts.SpansItsAttempts | qasight/reporting/imported_results.py:118-138 | A single attempt is unchanged; repeated ones span the earliest start to the latest stop, under the first one's uuid |
| FoldAttempts.RerunTellsFirstFailure | qasight/reporting/imported_results.py:121-131 | A failed or broken attempt followed by a final pass is passed and flaky, with the first such attempt's message and trace and the rest of the last one |
| FoldAttempts.WorstAttemptWins | qasight/reporting/imported_results.py:132-134 | Otherwise the first attempt of the worst status (failed, broken, passed or unknown, skipped) gives status, details and the rest |
| FoldAttempts.Worst | qasight/reporting/imported_results.py:133 | The first of the attempts with the worst status |
| FoldAttempts.AgreesWithGoTest | qasight/reporting/imported_results.py:121-134 | On every nonempty list of pass, fail and skip runs, status and flaky verdict agree with the `go test` import |

## Left out

- RunStream.ViewerSeesItsRun: the execution stays registered while it is followed; `EvictedStreamStops` is what happens when it does not. The wait for the events path and its error message are not part of it.
- RunSystem.CancelledIsNeverRun: speaks of a cancel whose delete removed the row. A run that another process has claimed goes on there, since `cancel` ignores the claim's answer.
- RunQueue.RoundTrip: reading a row in which a value has another JSON type than the writer gives it is modelled as unreadable, where Python would convert some of them.
- CrashScanner.ChunkingIsInvisible: the `_failed` path after an exception is not modelled; decoding, the signatures and the cap on a line's length are inside the matcher.
- LoginThrottle.RetryIsSafeAndTight: time is a real number, and the history is that of the tracked keys, since an evicted key's failures are forgotten. Normalising the user name is left to the caller.
- Retention.ExpiredRunIds: moments are integers and ids are compared in the order of the strings they stand for; an overflow of the cutoff date is not modelled.
- LogBuffer.LogBuffer.Tail: decoding the bytes as text and the limit on lines.
- GoTest.Import: output, messages, traces, durations and start times of the results.
- FoldAttempts.FoldAttempts: the texts of messages and traces; the message of a rerun is any function of the first failure's.
- Starting the worker threads; a thread that cannot start. A worker is a slot of the pool, and the exceptions its loop catches end a run through `_finish`.
- SQL and sessions: the table is a map with an atomic delete. A store call that raises may or may not have changed the table.
- File I/O: an events file is a byte sequence that only grows, the OS lock a cell that a crash frees, a crash keeps what was written. I/O errors while the lock's marker is cleared, and locking on Windows, are not modelled.
- Poll back-off, keep-alives and time in the stream; `UnicodeDecodeError` of an event line.
- The process pool's threads, futures and contexts: the environment decides which stages each wake-up finds done.
- The store raising while recovery deletes the row of a run it drops: recovery ends there and the row is taken to stay.
- CycleLock.DeadRunIsAccountedFor: `record_unfinished_run` logs a database error and goes on; being handed to it counts as recorded.
- `StopScope.reset`, signal numbers and the process-group sweep.
- `delete_runs` and removing snapshots, `crash_from_returncode` and `stage_crash`, the log renderer callback: branch by branch, nothing across functions.
- Config, adapters, reporters, the CLI, the web pages, AI and MCP code, cookies and hashing.
