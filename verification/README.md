# repo2ree verification

A Dafny model of the parts of repo2ree where a wrong step is hard to see: the
copy-in and request protocol between supervisor and workbench, the durable run
store and the worker that drives it, the life of an allocation, the bounds and
cursors of the API, bundles, and the graph and interval algorithms behind the
diagrams. `dafny verify dfyconfig.toml` checks all of it.

Code that changes state is modelled by classes whose methods are proved against a
specification of the whole new state. Where that is a function, what it promises is
also said without it, of the state before and after, and shown to leave no other
result (`Transfers.DoesIsApply`, `RunStore.UpdatedIsTheChange`,
`Bundle.GatheredIsCollected` and the like). What several parties do at once is a step
system: a total function from a state and a step to the next state, where a step
that is not enabled changes nothing, so that a list of steps is a run and a property
of every list is a property of every interleaving. Methods that wait (copy-in, the
worker thread) are given an arbitrary schedule of what happens around them.

| file | what it models |
|---|---|
| Transfers.dfy | the workbench's table of transfers and their temporary files |
| CopyIn.dfy | one pipelined copy-in: caller, wire and bench as steps, and the caller's own loop |
| Multiplex.dfy | requests multiplexed over one connection, and which connection holds a bench id |
| Common.dfy | options, bytes and the like |
| LogLines.dfy | log entries as lines of text, and reading a log that a crash cut |
| RunStore.dfy | the run store's files, indexes, histories, crashes and reload |
| JsonRunStore.dfy | the store object: loading, and every operation, against that specification |
| LogCursor.dfy | a client that follows a run's log by its cursor |
| RunWorker.dfy | a background run with telemetry and store faults, cancels and restarts |
| DurableRun.dfy | the worker's run and the run store together |
| Allocation.dfy | the lifecycle table, the allocation store, the bench's assignment, the manager |
| Benches.dfy, BenchRuns.dfy | operations, benches, lost messages and restarts together; two runs of them |
| OneOperation.dfy | one operation among those steps, from start to end |
| Staging.dfy | the upload staging budget under concurrent PUTs |
| Text.dfy, Pagination.dfy | string order; keyset pages of a changing collection |
| SelfTime.dfy, SpanForest.dfy | a span's self time; pruning, nesting and listing spans |
| EvidenceGraph.dfy, ArchGraph.dfy | blast radius and tiers; leaves of an import graph |
| DigestTree.dfy | what a tree digest is computed over |
| Listing.dfy, Bundle.dfy | sorted listings of files; sealing, exporting and loading an REE |

## What the code does not promise

Some properties one might expect are false of the code. Each has its exact condition.

- A crash that leaves a log entry complete but for its newline is accepted on reload
  (json_run_store.py, lines 260-271), and the next append joins two objects on one
  line. A read right after that drops both; once another append followed, the joined
  line is not the last, every read of the log fails, and so does loading the whole
  store. `LogLines.AppendsAfterCut` and `RunStore.LoadableAfterCut` show that this is
  the only cut that does harm, and when. The histories of `RunStore` and `LogCursor`
  have every cut inside an object; a crash after the newline is an append followed by
  a restart.
- `finalize` of the store overwrites a settled run. `RunWorker.FinalizeNeedsTheGuard`
  says a finalize at a new time is sound exactly on an active run; the worker's checks
  make sure of that.
- Two reservations may pick one idle bench, since picking records nothing. The bench's
  single-assignment rule makes its process exclusive (`Benches.AssignedIsHeld`,
  `Benches.NoTwoShareAProcess`), but not the bench id: two assigned records name one
  bench exactly when two processes of it took their assignments
  (`Benches.BenchIsShared`), which can happen (`BenchRuns.AReplacedProcessIsShared`).
- A teardown drains the bench before it checks anything, so a stale one stops whatever
  process answers for its bench by then: exactly that one (`Benches.DrainTakes`,
  `BenchRuns.AStaleTeardownStopsABench`).
- A reservation that names no bench never finds one, although the signature allows it
  (`Allocation.PickExternal`).
- A delivery whose close of the temporary file fails leaves that file behind
  (`Transfers.OrphansOnlyFromAFailedClose`).
- Concurrent uploads may exceed the staging budget: with at most M of them by as much as
  M-1 times the smaller of cap and budget (`Staging.TheBoundIsMet`), so by something
  exactly when M is at least two and cap and budget are positive
  (`Staging.OvershootIsPossible`).
- Cursors of keys with a `~` in the sort value are read as lower keys
  (`Pagination.CursorRoundTrip`), so that pages can skip items
  (`Pagination.SeparatorSkipsItems`); REE names are such sort values. Which items a walk
  skips is `Pagination.WalkIsComplete`, and which collections are safe in pages of any
  sizes is `Pagination.ListedInFullWhateverThePages`.
- Self time loses what children cover past the span's end
  (`SelfTime.SelfTimeIsOwnTime`).
- An archive whose lifted runtime has the name of a directory of artifacts cannot be
  unpacked (`Bundle.UnpacksUnlessBlocked`).

## Model

| member | source | states |
|---|---|---|
| Transfers.WriteAt | workbench/src/repo2ree_workbench/transfers.py:60-66 | A write lands its bytes at the offset, keeps every other byte, and fills a gap past the end with zeros. |
| Transfers.Apply | workbench/src/repo2ree_workbench/transfers.py:40-111 | Whatever the request, the table stays well formed: every transfer has its own temporary file. |
| Transfers.OrphansOnlyFromAFailedClose | workbench/src/repo2ree_workbench/transfers.py:68-93 | A request leaves an unowned temporary file behind if and only if it is a delivery whose close of the file fails. |
| Transfers.OthersUntouched | workbench/src/repo2ree_workbench/transfers.py:60-85 | No request for one transfer changes another transfer, its file, or the sink calls made for it. |
| Transfers.DoesIsApply | workbench/src/repo2ree_workbench/transfers.py:40-111 | What each request promises of handles, files and sink calls before and after it holds of the table the request makes, and of no other table. |
| Transfers.TransferStore.Open | workbench/src/repo2ree_workbench/transfers.py:47-58 | Adds an empty file under a new handle, with its destination, and changes nothing else. |
| Transfers.TransferStore.Write | workbench/src/repo2ree_workbench/transfers.py:60-66 | Writes at the offset in that transfer's file; an unknown handle is refused and changes nothing. |
| Transfers.TransferStore.Deliver | workbench/src/repo2ree_workbench/transfers.py:68-78 | Forgets the handle first, gives the sink the whole file once, for its destination, then deletes it; a second delivery is refused. |
| Transfers.TransferStore.Abort | workbench/src/repo2ree_workbench/transfers.py:80-85 | The transfer and its file are gone and nothing else changes; harmless when it is gone already. |
| Transfers.TransferStore.AbortAll | workbench/src/repo2ree_workbench/transfers.py:87-93 | No transfer is left and none of their files; every other file keeps its content, no sink is called, and a disk without orphans ends empty. |
| CopyIn.WriteLands | supervisor/src/repo2ree_supervisor/workbench_link.py:500-518 | A chunk written in any order keeps every chunk that landed before, and lands itself. |
| CopyIn.LandedEverywhere | supervisor/src/repo2ree_supervisor/workbench_link.py:505-521 | When chunks that tile the source have all landed in a file no longer than it, the file is the source. |
| CopyIn.StepKeepsInv | supervisor/src/repo2ree_supervisor/workbench_link.py:494-532 | Every step of caller, bench or connection, in any order and with any failure, keeps the copy-in invariant. |
| CopyIn.Run | supervisor/src/repo2ree_supervisor/workbench_link.py:494-532 | The invariant holds after every finite run, from any state it holds in. |
| CopyIn.CopyInIsExact | supervisor/src/repo2ree_supervisor/workbench_link.py:494-532 | In every run: at most eight requests in flight, the sink is called for nothing but the whole source at its destination and at most once, not before the close is sent, and exactly once when the copy returns. |
| CopyIn.CanReturn | supervisor/src/repo2ree_supervisor/workbench_link.py:505-524 | From every healthy sending or draining state some run reaches the return: the window cannot deadlock. |
| CopyIn.NothingLeaks | workbench/src/repo2ree_workbench/connection.py:302-305 | In every run without a close that fails, each temporary file belongs to an open transfer, and when the connection drops no transfer and no file is left. |
| CopyIn.AnswersAreHonest | workbench/src/repo2ree_workbench/transfers.py:60-78 | The bench answers a chunk well if and only if it has the transfer and could write it, and the close if and only if it has the transfer, its file closes and the sink works. |
| CopyIn.FailingForgetsTheWindow | supervisor/src/repo2ree_supervisor/workbench_link.py:525-527 | A copy that is given up, or refused a chunk, leaves no request in the window. |
| CopyIn.OthersGoOn | workbench/src/repo2ree_workbench/transfers.py:40-93 | Requests of other transfers do to the table what they would do alone. |
| CopyIn.AbortClears | supervisor/src/repo2ree_supervisor/workbench_link.py:525-532 | Once the bench handled the abort of a copy that was given up, its transfer and its file are gone and the sink was not called for it. |
| CopyIn.CopyInCall.SendChunks | supervisor/src/repo2ree_supervisor/workbench_link.py:507-519 | The reading loop ends with the whole file sent and room in the window, or with the copy given up, which it is not while socket and bench work. |
| CopyIn.CopyInCall.SendNext | supervisor/src/repo2ree_supervisor/workbench_link.py:507-519 | Sends the next chunk at its offset and, when the window is full, drains the oldest reply. |
| CopyIn.CopyInCall.DrainAll | supervisor/src/repo2ree_supervisor/workbench_link.py:520-521 | Drains every reply in order; ends with none in flight, or with the copy given up, which it is not while socket and bench work. |
| CopyIn.CopyInCall.CopyIn | supervisor/src/repo2ree_supervisor/workbench_link.py:494-532 | Returning means the sink ran once on exactly the source at its destination; failing before the close means it never ran; and while the socket works and the bench handles what it was sent, the copy returns. |
| Multiplex.StepKeepsInv | supervisor/src/repo2ree_supervisor/workbench_link.py:140-258 | Start, the two halves of routing a frame, get, leave, discard, close and its notices, interleaved in any way, keep the multiplexing invariant. |
| Multiplex.Run | supervisor/src/repo2ree_supervisor/workbench_link.py:119-258 | The invariant holds after every finite run. |
| Multiplex.StreamsAreFaithful | supervisor/src/repo2ree_supervisor/workbench_link.py:221-258 | Every reply stream is, in order, the first frames received for its own request, then at most the close notice, and nothing follows a terminal frame. |
| Multiplex.NobodyStranded | supervisor/src/repo2ree_supervisor/workbench_link.py:211-218 | After a close nothing is pending, and a caller still listening is about to be notified or has a terminal frame queued. |
| Multiplex.ClosedStaysClosed | supervisor/src/repo2ree_supervisor/workbench_link.py:171-194 | Nothing becomes pending again once the connection is closed. |
| Multiplex.LeftIsForgotten | supervisor/src/repo2ree_supervisor/workbench_link.py:196-253 | In every run a caller that left has no entry any more, and a frame that arrives for it afterwards is put nowhere. |
| Multiplex.TerminalFrames | protocol/src/repo2ree_protocol/frames.py:187-189 | The frames that end a reply are the eight listed; log, span and bytes frames are the others. |
| Multiplex.RunOneMore | supervisor/src/repo2ree_supervisor/workbench_link.py:119-258 | A run goes on with any step, from the state it ended in; the connection object is always at the end of such a run. |
| Multiplex.CancelsAreOfAbandonedStreams | supervisor/src/repo2ree_supervisor/workbench_link.py:200-253 | The bench is told to cancel only a request whose caller left before a terminal frame, and is told so whenever one leaves while the connection is open. |
| Multiplex.WorkbenchConnection.Start | supervisor/src/repo2ree_supervisor/workbench_link.py:171-194 | A closed connection refuses and changes nothing; otherwise the request is pending with its own empty queue, and when sending fails its entry is discarded and the pending table is what it was. |
| Multiplex.WorkbenchConnection.Lookup | supervisor/src/repo2ree_supervisor/workbench_link.py:140-152 | Finds the queue of a pending request under the lock; a frame for any other id is dropped. |
| Multiplex.WorkbenchConnection.Put | supervisor/src/repo2ree_supervisor/workbench_link.py:153-154 | Puts the frame at the end of the queue the lookup found, whatever happened in between. |
| Multiplex.WorkbenchConnection.Next | supervisor/src/repo2ree_supervisor/workbench_link.py:230-250 | Takes the first queued frame, or, when there is none, ends the wait: the entry goes and the request is left. |
| Multiplex.WorkbenchConnection.Leave | supervisor/src/repo2ree_supervisor/workbench_link.py:251-258 | The entry goes, and the bench is told to cancel if and only if the connection is open and no terminal frame was yielded. |
| Multiplex.WorkbenchConnection.Close | supervisor/src/repo2ree_supervisor/workbench_link.py:211-218 | Marks the connection closed, empties the table, puts one notice at the end of each pending queue and none on any other. |
| Multiplex.NewestConnectionHoldsTheId | supervisor/src/repo2ree_supervisor/workbench_link.py:276-320 | After any history a connection holds an id if and only if it was the last to register under it and has not unregistered since; one it displaced cannot evict it. |
| Multiplex.WorkbenchConnectionRegistry.Register | supervisor/src/repo2ree_supervisor/workbench_link.py:276-290 | Last writer wins, and the displaced connection is closed with all its waiters notified. |
| Multiplex.WorkbenchConnectionRegistry.Unregister | supervisor/src/repo2ree_supervisor/workbench_link.py:311-320 | Removes the id only for the connection that holds it. |
| LogLines.TextRoundTrip | api/src/repo2ree_api/storage/json_run_store.py:87-115 | A message survives escaping and parsing, and parsing stops at its closing quote. |
| LogLines.CutObjectFails | api/src/repo2ree_api/storage/json_run_store.py:252-271 | No proper prefix of an encoded entry parses as an entry. |
| LogLines.ReadComplete | api/src/repo2ree_api/storage/json_run_store.py:252-271 | A log of whole lines reads as exactly its entries and is left as it is. |
| LogLines.ReadLogReadsLines | api/src/repo2ree_api/storage/json_run_store.py:252-271 | For every file and its lines: reading refuses it if and only if a line before the last cannot be read; else it gives what the readable lines hold, in order, and the file loses its last line if and only if that cannot be read. |
| LogLines.EveryFileSplits | api/src/repo2ree_api/storage/json_run_store.py:252-271 | Every file has such lines, each ending at its only newline. |
| LogLines.StripIs | api/src/repo2ree_api/storage/json_run_store.py:258-260 | Stripping takes the blanks off both ends of a line and nothing else; it leaves nothing if and only if the line is blank. |
| LogLines.CutInsideRecovers | api/src/repo2ree_api/storage/json_run_store.py:252-271 | A log cut strictly inside its last object reads as the entries before it, and the fragment is gone from the file. |
| LogLines.CutBeforeNewlineReads | api/src/repo2ree_api/storage/json_run_store.py:260-271 | A log cut between object and newline reads with that entry and keeps its missing newline. |
| LogLines.JoinedObjectsAreLost | api/src/repo2ree_api/storage/json_run_store.py:252-271 | The next append then makes one line of two objects: the last line of the file is dropped with both of them, and with any line after it the log is refused. |
| LogLines.AppendsAfterCut | api/src/repo2ree_api/storage/json_run_store.py:252-271 | After a crash at any point of an append, recovery and any list of appends: all of it reads back if and only if the cut was not at the missing newline or nothing was appended; else one append is dropped together with the entry before it, and after two or more the log is refused. |
| LogLines.ReadLogs | api/src/repo2ree_api/storage/json_run_store.py:252-271 | The line-by-line reader computes the specified reading: blank lines skipped, an unreadable last line cut off, one anywhere else refused. |
| RunStore.IndexedMeansRebuilt | api/src/repo2ree_api/storage/json_run_store.py:209-224 | Live indexes that name exactly the stored runs and slots are the ones a rebuild gives, and no rebuild clash exists. |
| RunStore.ReloadAfterCrash | api/src/repo2ree_api/storage/json_run_store.py:209-224 | Stopping, or crashing in a create or strictly inside an append, always loads again, into the same indexes and states. |
| RunStore.StopsAndReloads | api/src/repo2ree_api/storage/json_run_store.py:26-35 | A stopped process goes on from what loading its files gives; a directory that a crashed create made is there from then on. |
| RunStore.StepKeepsInv | api/src/repo2ree_api/storage/json_run_store.py:37-207 | Every operation and crash keeps: indexes match the files, logs hold the acknowledged entries numbered without a gap, and the next number follows. |
| RunStore.RunKeepsInv | api/src/repo2ree_api/storage/json_run_store.py:26-278 | The store invariant holds after every history. |
| RunStore.StepFollows | api/src/repo2ree_api/storage/json_run_store.py:75-207 | Through every step each stored run is still there and changed only as promised: a call about it makes its own change, starting up again fails it as interrupted when unfinished, everything else leaves it alone. |
| RunStore.StepAddsOnlyCreated | api/src/repo2ree_api/storage/json_run_store.py:37-73 | A run is added if and only if a create succeeds, and it is the requested one. |
| RunStore.UpdatedIsTheChange | api/src/repo2ree_api/storage/json_run_store.py:75-187 | The changes promised of begin, outputs, cancel and finalize leave exactly one result each, and it is what the call stores. |
| RunStore.ReloadRefinesMemory | api/src/repo2ree_api/storage/json_run_store.py:209-224 | After every history, loading the files succeeds and gives exactly the live store. |
| RunStore.LoadableAfterCut | api/src/repo2ree_api/storage/json_run_store.py:209-224 | A store in any reachable state whose append was cut anywhere comes back; appended to further and stopped again it comes back if and only if the cut was not at the missing newline or at most one entry was appended, and else no run of it is served. |
| RunStore.StepKeepsNames | api/src/repo2ree_api/storage/json_run_store.py:37-58 | A slot goes on naming the run it named, with the same fingerprint, through every operation and restart. |
| RunStore.CreateIsIdempotent | api/src/repo2ree_api/storage/json_run_store.py:37-58 | Once a run was created under a slot, any later request with it, after any history, replays that run or conflicts by fingerprint, and changes nothing. |
| JsonRunStore.JsonRunStore.LoadIndexes | api/src/repo2ree_api/storage/json_run_store.py:209-224 | Loading succeeds if and only if every log reads and no two runs share a key or slot, and then gives the rebuilt store. |
| JsonRunStore.JsonRunStore.CreateIdempotent | api/src/repo2ree_api/storage/json_run_store.py:37-58 | A used slot replays its run on the same fingerprint and conflicts on another; else an existing directory fails and a free one is created with the run as requested; only creating changes the store. |
| JsonRunStore.JsonRunStore.Begin | api/src/repo2ree_api/storage/json_run_store.py:75-85 | Stamps the start of any known run and, when it is still queued, moves it to provisioning for that operation and to running for any other; later states stay. |
| JsonRunStore.JsonRunStore.AppendLog | api/src/repo2ree_api/storage/json_run_store.py:87-115 | Appends one numbered line and advances the number; an unknown run changes nothing. |
| JsonRunStore.JsonRunStore.RequestCancel | api/src/repo2ree_api/storage/json_run_store.py:141-155 | Records the time of the first cancel request, also on a settled run, and never a later one; an unfinished run becomes canceling, a settled one keeps its status. |
| JsonRunStore.JsonRunStore.IsCancelRequested | api/src/repo2ree_api/storage/json_run_store.py:157-160 | True if and only if the run is known and has a recorded cancel request. |
| JsonRunStore.JsonRunStore.Finalize | api/src/repo2ree_api/storage/json_run_store.py:162-187 | Stores status, outputs, failure and, when settled, the time; a recorded cancel turns any outcome but success and failure into canceled without a failure. |
| JsonRunStore.JsonRunStore.InterruptIncomplete | api/src/repo2ree_api/storage/json_run_store.py:189-207 | Every unfinished run is failed with the interruption and the time, all its other fields kept; every other run and all logs stay as they are. |
| JsonRunStore.JsonRunStore.ListLogs | api/src/repo2ree_api/storage/json_run_store.py:117-130 | Gives the entries after the number, the first ones when there is a limit, and none for an unknown run. |
| LogCursor.PageIsNextSlice | api/src/repo2ree_api/control/runs.py:91-103 | A page is the next slice after the cursor, moves the cursor past it, and says there is more if and only if entries remain. |
| LogCursor.FollowKeepsOk | api/src/repo2ree_api/control/run_registry.py:442-474 | The client invariant holds over every interleaving of store operations, crashes and requests. |
| LogCursor.FollowOneMore | api/src/repo2ree_api/control/run_registry.py:442-474 | Following a log goes on with any event, from where the client stands. |
| LogCursor.FollowingIsReading | api/src/repo2ree_api/control/run_registry.py:442-474 | Whatever a client asks for in between, the store ends where its own operations take it. |
| LogCursor.ReadsExactlyOnce | api/src/repo2ree_api/control/runs.py:91-103 | Whatever interleaves, a client has the log up to its cursor, each entry once and in order, and has all of it when a page says nothing remains. |
| LogCursor.CutAtNewlineLosesAnEntry | api/src/repo2ree_api/storage/json_run_store.py:260-275 | Without excluding the cut at the newline the promise fails: of three entries the second was acknowledged and no reader ever sees it. |
| RunWorker.StepIsSound | api/src/repo2ree_api/control/run_registry.py:314-401 | Every worker step and fault keeps a stored run well formed and lets it only evolve: status rank never falls, a settlement and a cancel request stay. |
| RunWorker.FinalizeNeedsTheGuard | api/src/repo2ree_api/control/run_registry.py:215-235 | Finalizing at a new time is a legal evolution if and only if the run is still active: the guard around it is what protects a settlement. |
| RunWorker.History | api/src/repo2ree_api/control/run_registry.py:261-401 | Well-formedness and legal evolution hold over every history. |
| RunWorker.SettledOnce | api/src/repo2ree_api/control/run_registry.py:314-401 | Between any two moments of any history a run settles at most once, is finished if and only if terminal, has a failure if and only if failed, and is settled once its worker is gone unless the store failed the last boundary too. |
| RunWorker.NeverBack | api/src/repo2ree_api/control/run_registry.py:314-401 | Along an evolution a run is never queued again, a canceling one stays so until it is settled, and a settled one keeps its status. |
| RunWorker.RestartSettles | api/src/repo2ree_api/storage/json_run_store.py:189-207 | From any state, starting up again fails an unfinished run as interrupted at that time, leaves a settled one as it was, and leaves no worker. |
| RunWorker.CancelSurvives | api/src/repo2ree_api/storage/json_run_store.py:141-155 | The first time a cancel was requested stands, and from then on an unfinished run is canceling, whatever the worker does. |
| RunWorker.FailureSettles | api/src/repo2ree_api/control/run_registry.py:237-259 | A run whose runner raised, or whose worker failed, is settled as canceled without a failure when a cancel was recorded by the time that is decided, and else as failed with that failure, whatever is called in between. |
| RunWorker.RequestsApply | api/src/repo2ree_api/control/run_registry.py:201-213 | A cancel request and new outputs apply to the run wherever its worker stands. |
| RunWorker.TakenOrFailed | api/src/repo2ree_api/control/run_registry.py:380-401 | A recorded run is worked on when the executor takes it, and has failed with the failure at hand when it does not. |
| RunWorker.WorksThrough | api/src/repo2ree_api/control/run_registry.py:314-357 | A worker nothing disturbs stamps the start, settles the run as its runner returned, and is gone. |
| RunWorker.FaultsEscape | api/src/repo2ree_api/control/run_registry.py:359-379 | Any fault reaches the last-resort boundary with the run as it was; only a store that fails there, or while a rejected run is settled, leaves a run behind that may not be settled. |
| RunWorker.BoundaryChecks | api/src/repo2ree_api/control/run_registry.py:364-371 | The boundary leaves a settled run alone and takes any other one on. |
| RunWorker.BackgroundRun.InstrumentedWorker | api/src/repo2ree_api/control/run_registry.py:314-357 | The nested blocks either settle the run or hand an exception to the boundary around them; settled it is as the runner said, or, when that raised, canceled or failed as recorded when it was caught. |
| RunWorker.BackgroundRun.WorkerThread | api/src/repo2ree_api/control/run_registry.py:359-401 | When the thread is gone the run is settled unless the store faulted; without faults it is settled as the runner said, or, when that raised, as canceled if and only if a cancel was recorded when that was caught; and a raising run whose cancel was recorded before ends canceled whatever telemetry does. |
| RunWorker.BackgroundRun.Recover | api/src/repo2ree_api/control/run_registry.py:369-401 | The last-resort boundary leaves a settled run alone and settles any other one, as canceled if and only if a cancel was recorded by then and else as failed, unless the store faults again. |
| DurableRun.StepIsItsCall | api/src/repo2ree_api/control/run_registry.py:314-401 | What a step of the worker, or a request about its run, does to its copy of the run is what its store call does to the state file. |
| DurableRun.LiveIsTracked | api/src/repo2ree_api/control/run_registry.py:314-401 | Among calls about other runs, stops and crashes, the state file is the worker's run at every moment, and it only evolves. |
| DurableRun.EventChangesFile | api/src/repo2ree_api/control/run_registry.py:314-401 | A call about another run leaves the state file alone, a stop interrupts an unfinished run in it, and a step of the worker changes it as its store call promises. |
| DurableRun.LiveOneMore | api/src/repo2ree_api/control/run_registry.py:314-401 | A life goes on with any event, from where it stands. |
| DurableRun.CallsElsewhereHappen | api/src/repo2ree_api/control/run_registry.py:314-401 | A call about another run reaches the store and leaves the worker alone. |
| DurableRun.SettlementIsDurable | api/src/repo2ree_api/control/run_registry.py:314-401 | A run created in a store with any history is settled at most once in its state file, whatever goes on around it; once its worker is gone it is settled, unless the store failed the last boundary too; and a later process loads just that. |
| Allocation.AssignedWasWaitingThenReady | supervisor/src/repo2ree_supervisor/allocation_state.py:7-42 | A record whose every change was legal and that is assigned was waiting for its workbench and after that ready. |
| Allocation.ReleasedIsFinal | supervisor/src/repo2ree_supervisor/allocation_state.py:7-42 | A released record never leaves that state. |
| Allocation.TableByTarget | supervisor/src/repo2ree_supervisor/allocation_state.py:7-42 | The table read by its targets: all but draining and released records may drain, only a draining one is released, what is not released, failed or lost may fail, and each other state has its own ways in. |
| Allocation.AllocationStore.Create | supervisor/src/repo2ree_supervisor/allocation_store.py:42-63 | Refuses a known id and an REE that has a placement; otherwise adds both and keeps one live allocation per REE. |
| Allocation.AllocationStore.Update | supervisor/src/repo2ree_supervisor/allocation_store.py:65-88 | Moves the record if and only if the table allows it, changing only what is given. |
| Allocation.AllocationStore.ForRee | supervisor/src/repo2ree_supervisor/allocation_store.py:95-100 | Gives the placed record, which is the only one of the REE that is not released. |
| Allocation.AllocationStore.RemovePlacement | supervisor/src/repo2ree_supervisor/allocation_store.py:107-111 | Forgets the placement, which keeps one live allocation per REE when its record is released. |
| Allocation.WorkbenchService.Assign | workbench/src/repo2ree_workbench/service.py:19-31 | Accepts a first assignment on an empty root and the same one again; refuses any other and never overwrites. |
| Allocation.WorkbenchService.ExecSimple | workbench/src/repo2ree_workbench/service.py:41-43 | Refuses until there is an assignment, whichever allocation it names. |
| Allocation.PickExternal | supervisor/src/repo2ree_supervisor/workbench_link.py:327-344 | Finds a bench if and only if one is named, connected, external, held by no record and gives no other location; a request that names none never finds one. |
| Allocation.ConsumeLifecycle | supervisor/src/repo2ree_supervisor/manager.py:267-279 | The first failing frame is raised; without one the last status counts, and having none is reported; exactly the log lines before a failure are passed on, in order. |
| Allocation.WorkbenchManager.AssignAndInitialise | supervisor/src/repo2ree_supervisor/manager.py:235-248 | The record ends assigned, or stays ready when binding or initialising fails. |
| Allocation.WorkbenchManager.Provision | supervisor/src/repo2ree_supervisor/manager.py:161-213 | Ends assigned and enrolled, or failed with the enrollment discarded and the bench released; an REE that has an allocation is refused unchanged. |
| Allocation.WorkbenchManager.ReserveExternal | supervisor/src/repo2ree_supervisor/manager.py:215-233 | Ends assigned or failed, with nothing enrolled or released; refused without a bench or with a placement. |
| Allocation.WorkbenchManager.Compensate | supervisor/src/repo2ree_supervisor/manager.py:206-213 | Marks the record failed, discards the enrollment and asks for the release. |
| Allocation.WorkbenchManager.Teardown | supervisor/src/repo2ree_supervisor/manager.py:250-265 | Drains the bench first, whatever the handle; then releases the record and its placement, or stops at a failing drain or release. A stale handle changes no record and no placement, but its bench is drained all the same; one live allocation per REE holds throughout. |
| Benches.HandleAssignKeepsInv | workbench/src/repo2ree_workbench/service.py:19-31 | A late, repeated or contended assign request never makes an earlier acknowledgement false. |
| Benches.StepKeepsInv | supervisor/src/repo2ree_supervisor/manager.py:161-265 | Every interleaved step of operations, benches, lost messages and control-plane restarts keeps the invariant. |
| Benches.CompensationIsLegal | supervisor/src/repo2ree_supervisor/manager.py:206-233 | A failing provision or reservation can always be recorded: the move to failed is legal, the enrollment is gone and the placement still names the record. |
| Benches.AssignedIsHeld | workbench/src/repo2ree_workbench/service.py:19-31 | In every run an assigned record has a process of its own bench that acknowledged it and holds exactly its request. |
| Benches.NoTwoShareAProcess | workbench/src/repo2ree_workbench/service.py:19-31 | So no two assigned records share a process. |
| Benches.BenchIsShared | supervisor/src/repo2ree_supervisor/workbench_link.py:327-344 | In every run two assigned records name one bench if and only if two different processes of one bench took their two assignments. |
| Benches.BenchesAreExclusive | supervisor/src/repo2ree_supervisor/workbench_link.py:327-344 | A bench serves at most one assigned record as long as at most one of its own processes ever took an assignment, although any number of reservations may pick it. |
| BenchRuns.AReplacedProcessIsShared | supervisor/src/repo2ree_supervisor/manager.py:235-248 | A run in which a bench's process is replaced between acknowledging an assignment and its initialisation, and two assigned records end up naming that bench. |
| Benches.DrainTakes | supervisor/src/repo2ree_supervisor/manager.py:250-261 | In every run the drain of a teardown takes the process of another assigned record if and only if that process answers for the bench the torn-down record names, and then both records name that bench. |
| BenchRuns.AStaleTeardownStopsABench | supervisor/src/repo2ree_supervisor/manager.py:250-261 | A run in which the teardown of an allocation released before stops the bench under an assigned record, and is refused only after that. |
| Benches.OneLiveAllocation | supervisor/src/repo2ree_supervisor/allocation_store.py:42-111 | In every run each record that is not released is the one its REE's placement names, and an assigned one was waiting and then ready. |
| Benches.ReservesAnIdleBench | supervisor/src/repo2ree_supervisor/workbench_link.py:327-344 | A reservation can pick exactly a bench that answers through an external process and that only released, failed or lost records name. |
| Benches.OnlyTheLivingAnswer | workbench/src/repo2ree_workbench/service.py:19-31 | A request is handled only by a live process, once for each time it was sent, and accepted if and only if the process holds it already or holds nothing on an empty root. |
| Benches.ControlMayStop | supervisor/src/repo2ree_supervisor/manager.py:161-265 | In any state the control plane may stop and keep only its records, and an operation may end half-way. |
| Benches.BenchMayFail | supervisor/src/repo2ree_supervisor/manager.py:161-265 | In any state a bench may drop off, die, lose its root or lose a request. |
| OneOperation.ProvisionSucceeds | supervisor/src/repo2ree_supervisor/manager.py:161-213 | Among the steps, a provision that nothing disturbs ends assigned, placed and enrolled, with its bench holding the request and all else unchanged, as the manager's method says. |
| OneOperation.FailureIsCompensated | supervisor/src/repo2ree_supervisor/manager.py:206-213 | A failure anywhere between enrolling and being assigned ends with the record failed for that reason and the enrollment withdrawn. |
| OneOperation.TeardownSucceeds | supervisor/src/repo2ree_supervisor/manager.py:250-265 | A teardown that nothing disturbs ends with the bench's process stopped, the record released, and enrollment and placement gone. |
| Staging.StepKeepsShape | api/src/repo2ree_api/storage/upload_staging.py:129-172 | Every step keeps: a file is no longer than finished uploads or some writer explain, and a writer stays within its allowance. |
| Staging.StagedWithinPromise | api/src/repo2ree_api/storage/upload_staging.py:129-172 | The directory holds no more than finished bytes plus what uploads in flight were promised. |
| Staging.OpenIsBudgeted | api/src/repo2ree_api/storage/upload_staging.py:165-172 | Opening an upload promises no more than the budget and, for each upload already in flight, the smaller of cap and budget. |
| Staging.OtherStepsRelease | api/src/repo2ree_api/storage/upload_staging.py:129-162 | No other step promises anything: chunks, flushes, finishes, failed resets and sweeps only release. |
| Staging.StagingIsBounded | api/src/repo2ree_api/storage/upload_staging.py:129-172 | In every run with at most M uploads in flight the directory never holds more than the budget and M-1 times the smaller of cap and budget. |
| Staging.TheBoundIsMet | api/src/repo2ree_api/storage/upload_staging.py:129-172 | For all limits with a positive cap and every M, some run with at most M uploads in flight leaves exactly that much in the directory. |
| Staging.OvershootIsPossible | api/src/repo2ree_api/storage/upload_staging.py:165-172 | With at most M uploads in flight the budget can be exceeded if and only if M is at least two and cap and budget are positive. |
| Staging.AloneAsSaid | api/src/repo2ree_api/storage/upload_staging.py:129-162 | Among the steps, an upload that no other step disturbs ends as the method says, with the allowance the method computes. |
| Staging.MintAndDiscard | api/src/repo2ree_api/storage/upload_staging.py:78-111 | Minting adds an empty file and changes no other; discarding takes exactly that file and its bytes away. |
| Staging.UploadStaging.NewToken | api/src/repo2ree_api/storage/upload_staging.py:78-111 | Drops the expired files, adds an empty marker under the new token with its declared size, and leaves every other file as it is. |
| Staging.UploadStaging.DiscardExpired | api/src/repo2ree_api/storage/upload_staging.py:191-202 | Drops exactly the files last written longer ago than the time to live. |
| Staging.UploadStaging.StagingAllowance | api/src/repo2ree_api/storage/upload_staging.py:165-172 | Sums the other files, in whatever order they are listed: what it gives keeps cap and budget, and one byte more would break one of them. |
| Staging.UploadStaging.WriteChunks | api/src/repo2ree_api/storage/upload_staging.py:141-150 | Writes chunk after chunk up to the first that does not fit, and says whether the cap or the budget refused it. |
| Staging.UploadStaging.StageUploadStream | api/src/repo2ree_api/storage/upload_staging.py:129-162 | The whole stream is stored if and only if it fits, arrives whole and has its declared size; it is reported as refused, broken or of the wrong size exactly when it is, and then the empty marker stays; other files are untouched. |
| Staging.FitsTheRoom | api/src/repo2ree_api/storage/upload_staging.py:165-172 | A file within its allowance keeps a directory that was within budget within budget. |
| Pagination.CursorRoundTrip | api/src/repo2ree_api/pagination.py:34-48 | A cursor handed out always parses, never to a key above its own, and to that very key if and only if the sort value has no separator. |
| Pagination.MalformedHasNoSeparator | api/src/repo2ree_api/pagination.py:34-44 | A cursor is refused if and only if it has no separator. |
| Pagination.AfterKeeps | api/src/repo2ree_api/pagination.py:45-46 | The page after a boundary is drawn from exactly the items strictly below it, still in order. |
| Pagination.PageIsExact | api/src/repo2ree_api/pagination.py:34-48 | For every collection, cursor and limit: a cursor is refused if and only if it has no separator; else the page is the highest items ahead of it, in order and as many as the limit allows, there are more if and only if some were left out, and then a page that is not empty has a next cursor, made of its last item. |
| Text.BelowIsFirstDifference | api/src/repo2ree_api/pagination.py:45-46 | Strings are compared at the first place where they differ, and one that ends there comes first. |
| Pagination.WalkDescends | api/src/repo2ree_api/pagination.py:16-48 | Over a collection that changes between pages the listing is strictly descending, so nothing repeats, whatever characters the keys hold. |
| Pagination.NextPageStarts | api/src/repo2ree_api/pagination.py:36-48 | After a page the next one starts right behind its last item if and only if every item below that one is also below the key its cursor is read as. |
| Pagination.WalkIsComplete | api/src/repo2ree_api/pagination.py:16-48 | A finished walk lists a key that was present throughout if and only if no page of it ended above the key at an item whose cursor is read as a key not above it. |
| Pagination.ListingUnderChurn | api/src/repo2ree_api/control/runs.py:50-72 | A walk is strictly descending and lists only items present at some page; when it ended it lists, of the items present throughout, exactly those no page skipped over, and without a separator in sort values none is. |
| Pagination.ListingWithoutChurn | api/src/repo2ree_api/control/runs.py:50-72 | Over an unchanging collection the walk always ends within one request more than there are items, and lists exactly the items no page skipped over. |
| Pagination.ListedInFullWhateverThePages | api/src/repo2ree_api/pagination.py:16-48 | A collection is listed in full in pages of any sizes if and only if an item below another one is always below what the other's cursor is read as. |
| Pagination.SeparatorFreeIsSafe | api/src/repo2ree_api/pagination.py:34-48 | Sort values without a separator are enough for that. |
| Pagination.SeparatorSkipsItems | api/src/repo2ree_api/control/rees.py:160-161 | With a separator in a sort value, which REE names may hold, an item is passed over: a concrete listing. |
| SelfTime.SelfNs | scripts/diagrams/trace_journal.py:114-136 | For children in any order and with any overlaps, the span's length minus the number of nanoseconds from its start on that some child covers, never negative. |
| SelfTime.Sweep | scripts/diagrams/trace_journal.py:130-135 | One pass in start order counts each covered nanosecond once. |
| SelfTime.SelfTimeIsOwnTime | scripts/diagrams/trace_journal.py:114-136 | Self time never exceeds the uncovered time of the span, and equals it if and only if nothing is covered past its end or there is none to lose. |
| SelfTime.ExactWhenChildrenEndInside | scripts/diagrams/trace_journal.py:114-136 | When children end inside the span, self time is exactly its uncovered time. |
| SpanForest.SurvivorIsNearest | scripts/diagrams/trace_journal.py:253-258 | The adopted parent is a kept ancestor with no kept ancestor nearer, or what lies outside the set. |
| SpanForest.SurvivorIsAParent | scripts/diagrams/trace_journal.py:253-258 | What a span adopts is the parent of itself or of an ancestor that goes, so also what lies beyond the set when the last of those had its parent there. |
| SpanForest.AncestrySurvives | scripts/diagrams/trace_journal.py:224-263 | A kept span is an ancestor of a kept span after pruning if and only if it was before. |
| SpanForest.ListingIsPreorder | scripts/diagrams/trace_journal.py:266-303 | The listing holds every span once with its number of ancestors as depth, and each subtree in one piece that starts with its root and holds exactly its descendants. |
| SpanForest.ListingKeepsOrder | scripts/diagrams/trace_journal.py:266-303 | Roots, and the children of one span, are listed in the order of their lists. |
| SpanForest.Trace.Prune | scripts/diagrams/trace_journal.py:224-263 | Drops exactly the spans whose name a pattern matches, whole after an equals sign and else in part, or that have none of the parts to keep; keeps the others in order, and re-parents each to its nearest survivor. |
| SpanForest.Trace.BuildForest | scripts/diagrams/trace_journal.py:204-221 | Every span is once in the list of its parent when that is in the set, else once among the roots, and no span in a list started before one ahead of it. |
| SpanForest.Trace.Flatten | scripts/diagrams/trace_journal.py:266-303 | Walking the forest appends exactly the specified listing, depths included. |
| EvidenceGraph.Reach | scripts/diagrams/evidence_graph.py:274-283 | On every graph the worklist ends with exactly the nodes one or more links away. |
| EvidenceGraph.BlastRadius | scripts/diagrams/evidence_graph.py:261-285 | Every step is given exactly the steps that rest on it through receipts, directly or not. |
| EvidenceGraph.LongestFromParents | scripts/diagrams/evidence_graph.py:288-311 | One more than the deepest parent is the longest path to a node. |
| EvidenceGraph.LinksGoDeeper | scripts/diagrams/evidence_graph.py:288-311 | Longest paths go strictly deeper along every link. |
| EvidenceGraph.Tiers.Rank | scripts/diagrams/evidence_graph.py:304-309 | Ends on every graph; on one without cycles it returns the longest path and leaves only right depths in the memo. |
| EvidenceGraph.Tiers.Assign | scripts/diagrams/evidence_graph.py:288-311 | Ranks every step, in whatever order, with its longest path when there is no cycle. |
| EvidenceGraph.ParentsOf | scripts/diagrams/evidence_graph.py:296-300 | Collects exactly the receipts each step rests on, with an entry for every step. |
| ArchGraph.ShrinkingIsSafe | scripts/diagrams/arch_graph.py:164-169 | A round drops no member of any closed set, and changes nothing if and only if the set is closed. |
| ArchGraph.FindLeaves | scripts/diagrams/arch_graph.py:147-169 | Ends on every graph with the largest set of unranked modules under roots that declare a spine that import only one another. |
| ArchGraph.LeavesReachOnlyCandidates | scripts/diagrams/arch_graph.py:147-169 | A module is a leaf if and only if everything it reaches by imports, itself included, is a candidate. |
| DigestTree.FramingIsInjective | core/src/repo2ree_core/digests.py:110-126 | Distinct lists of paths and digests feed the hasher distinct bytes. |
| DigestTree.NulInAPathCollides | core/src/repo2ree_core/digests.py:110-126 | Were a NUL allowed in a path, two different lists would feed the same bytes. |
| DigestTree.TreesAreTold | core/src/repo2ree_core/digests.py:110-126 | With a content digest that never collides, trees that feed the same bytes hold the same files. |
| DigestTree.FilesInOrder | core/src/repo2ree_core/digests.py:116-124 | The files told apart are all files of the walk and nothing else, in its order. |
| DigestTree.DigestTree | core/src/repo2ree_core/digests.py:110-126 | The hasher is fed path and digest of each file, each with a NUL after it, in order; nothing for an absent or empty tree. |
| Listing.ArrangedAscends | core/src/repo2ree_core/bundle/seal.py:86-86 | Entries with distinct paths come out of the sort strictly ascending. |
| Listing.AscendingIsUnique | core/src/repo2ree_core/persistence/files.py:160-169 | Two ascending listings of the same entries are one listing. |
| Bundle.GatheredIsDistinct | core/src/repo2ree_core/bundle/seal.py:64-86 | No two gathered entries share a path, so inventories are always canonical. |
| Bundle.PackedIs | core/src/repo2ree_core/bundle/seal.py:121-150 | Taking the document out of an archive leaves exactly the inventoried entries, in order. |
| Bundle.SubtreeBack | core/src/repo2ree_core/bundle/restore.py:96-100 | Under each prefix an archive holds exactly the tree filed there, with the lifted runtime among the artifacts. |
| Bundle.LiftedInPlace | core/src/repo2ree_core/bundle/seal.py:79-83 | Lifting the runtime and having it among the artifacts give the same entries. |
| Bundle.UnpacksUnlessBlocked | core/src/repo2ree_core/bundle/seal.py:79-83 | An archive can be laid out on disk if and only if no artifact lies in a directory of the lifted runtime's name. |
| Bundle.ABlockedRuntime | core/src/repo2ree_core/bundle/seal.py:79-83 | Such an artifact can be there: a concrete draft whose archive cannot be unpacked. |
| Bundle.PackedIsAccepted | core/src/repo2ree_core/bundle/restore.py:48-84 | An archive whose document carries its inventory is accepted and rebuilds overlay, artifacts, results and snapshot as included. |
| Bundle.SealRoundTrip | core/src/repo2ree_core/bundle/seal.py:121-150 | Whatever sealing made of a store can be laid out on disk if and only if no artifact is in the runtime's way; any store accepts it and gets back the overlay, the artifacts and the runtime, and results and snapshot as included; and it is exported again as the same archive. |
| Bundle.DraftRoundTrip | core/src/repo2ree_core/bundle/seal.py:153-172 | Whatever exporting a draft made is accepted and gives back all its trees, and exporting the loaded draft gives the same archive, the runtime lifted once. |
| Bundle.InventoryFixesFiles | core/src/repo2ree_core/bundle/seal.py:89-95 | With a digest that never collides an inventory fixes the files it was made from. |
| Bundle.TamperedIsRefused | core/src/repo2ree_core/bundle/restore.py:48-65 | Two accepted bundles with one document hold the same files: a changed, added or missing file is refused. |
| Bundle.SealDigestFixesFiles | core/src/repo2ree_core/domain/ree/transitions.py:101-115 | Two accepted sealed bundles whose seals record one digest hold the same files. |
| Bundle.ReeStore.CollectEntries | core/src/repo2ree_core/bundle/seal.py:64-86 | In order, exactly: the four scripts, every overlay file and every artifact under their prefixes, the snapshot when asked for, the built runtime when asked for and no artifact has its name, and every result when asked for. |
| Bundle.GatheredIsCollected | core/src/repo2ree_core/bundle/seal.py:64-86 | What the specification gathers for an archive is exactly what is to be collected, tree by tree. |
| Bundle.NameIsLast | core/src/repo2ree_core/bundle/seal.py:79-83 | The name the runtime gets is its whole path, or what stands behind the last slash. |
| Bundle.ReeStore.SealRee | core/src/repo2ree_core/bundle/seal.py:121-150 | Refused when stale or sealed already and then unchanged; otherwise document and archive are stored together: the archive holds what was collected and the document, and that carries its inventory and the seal. |
| Bundle.ReeStore.BuildReeArchive | core/src/repo2ree_core/bundle/seal.py:153-172 | A sealed REE gives its stored archive; a draft is gathered anew, everything in it and no seal; nothing is stored. |
| Bundle.ReeStore.RestoreReeBundle | core/src/repo2ree_core/bundle/restore.py:48-84 | Accepts a bundle if and only if its document is there, its seal is of what it says, and every other file is listed with its digest and size; touches nothing before, and ends in the rebuilt store. |
| Bundle.ReeStore.ActualInventory | core/src/repo2ree_core/bundle/restore.py:38-45 | Lists path, digest and size of every file but the document. |

## Left out

- Sockets, HTTP routes, subprocesses, threads and asyncio: what they do is a choice of the next step.
- Tracing, metrics and logging, except as places where a worker step may fault.
- JSON beyond the one line format of log entries; its encoding here is concrete, with quotes, backslashes and newlines escaped, and its other escapes and a carriage return as a line break are not modelled.
- Hash functions, zip and base64: a digest that never collides where a lemma says so, an archive that is its entries, and the identity.
- A copy-in whose source file changes while it is read, and a transfer whose open reply is lost before the connection drops.
- Partial failure inside one write: a state file is replaced whole, and an append fails part-way only when the process dies.
- The waiting loop of `observe`, its heartbeats and timeouts; what it reads in one turn is part of `LogCursor`.
- Sorting runs for `list_runs`, and the ordering of the REE index: `Pagination` takes collections sorted by key.
- LogCursor.ReadsExactlyOnce: excludes a crash exactly between an object and its newline, where the property is false (`LogCursor.CutAtNewlineLosesAnEntry`).
- Store writes that fail inside the manager: an operation may be abandoned at any step instead, which leaves its record where it was.
- Benches.DrainTakes: a drain that reaches its bench ends the process at once; executors it lets finish first are not modelled.
- Allocation.WorkbenchManager.Provision: takes the outcomes of its remote calls as parameters; messages lost or late are in `Benches`.
- Durations are counted in whole nanoseconds: the division to milliseconds in floating point is not modelled.
- SpanForest.AncestrySurvives: for spans with distinct ids and without a parent cycle, where the upward walk of the source ends; on a cycle of dropped spans it does not.
- Spans are known by id, not by object identity, so building the forest twice from the same span objects, which would list children twice, is not modelled; anchors are left out.
- Prefix matching of module names to roots in `find_leaves`: two functions given from outside.
- File modes, empty directories and symbolic links in bundles; the generated reproducer scripts are opaque bytes at their four paths.
- Deciding whether evidence is stale before a seal: a given truth value.
- Location resolution, providers, enrollment tokens, token syntax and upload ownership, and the deposit adapters.
- Rendering of diagrams, scales, zones, notes and reports.
