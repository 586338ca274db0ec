# Contrail, verified

A Dafny model of the bounded, stateful bookkeeping in Contrail, and proofs about it. Contrail records what a process does
and has to stay inside fixed limits while it records. The questions answered here are whether its figures agree with their
simple definitions, and whether its protocols keep their promises however the participants are interleaved or killed.

`dafny verify dfyconfig.toml` checks the whole project.

## What is modelled

| file | what it models | what is proved about it |
|---|---|---|
| `Profiler`, `ProfilerForest`, `ProfilerCalls`, `ProfilerBounds`, `ProfilerReport` | the profiler's call/return machine with its per-thread stacks and capped tables, and its report | it agrees with a recursive definition on call trees and with plain figures of the list of calls, for all interleavings and with all caps live; no call is lost; the loader accepts its report |
| `CausalTree` | the tree renderer with an explicit stack, exit markers and a cap | it refines a recursive traversal; what each marker means; how many lines there are; truncation exactly past the cap |
| `Graphs`, `ImportCycle`, `ParentHierarchy` | the import-cycle search and the parent-hierarchy check | both answer correctly in both directions, for every graph |
| `CaptureJob`, `CaptureJobProtocol`, `JobFields` | the job record, its parser, its updates, and the protocol of launcher, worker and observers around one lock | an inductive invariant over all interleavings, crashes included, and what follows from it; what each write puts into each field |
| `OutputDrain`, `Follower` | head and sliding tail of a drained stream with its checkpoints; the worker's ways to its finish; a follower polling both streams | the retained bytes and figures for every chunking; when a finish follows the drains' ends; when what a follower prints is final |
| `Recovery` | post-exit checkpoint, assembly, completion and publication, with crashes and recoveries anywhere | the graph gets in once or is declared invalid; which checkpoints can be recovered |
| `Ranking`, `Merge`, `Selection` | rank sums with overflow and identity checks, top-k selection with a bounded heap, the two-pass merge | exact rejection conditions, the functions and edges kept are the greatest by their summed figures, conservation of calls |
| `ProcessObserver`, `ProcessHistory` | observations of process ids over polls, under two caps | observations are the first maximal runs, and everything in them is determined by the polls |
| `HttpRecords` | the HTTP record hooks on many threads, the record validator, and its ranking | every record is accepted, durations are set once, records plus drops are the reservations, responses reach their requests |
| `OutputPump` | the output pump with its capture limit, relay and post-exit drain | what is read, captured and relayed, truncation, open-pipe flag and bound for every schedule |
| `ColumnNames` | unique column names | termination, distinctness, first free suffix, no column lost |
| `Sums`, `Sets`, `Results`, `Integers` | sums over finite maps, sizes of sets, option and result types, the integer limit | helpers |

Where the source changes state, a class does so here and each method is tied to a specification function on values
(`Profiler.Step`, `CausalTree.Show`, `ProcessObserver.Polled`, `Merge.MergedOf` and so on); the theorems are about those
functions. Where several processes or threads act, a `Step` function performs one action of one participant, and `Run` folds
it over any list of actions; an action that is not possible changes nothing, so every list is a run.

## Where the code falls short of what it promises

Each of these is stated as an exact condition or shown on a concrete run.

- A capture job's terminal label is not always final: after `complete` is written, an error while pruning old jobs, or an
  interrupt, makes the worker finish a second time under the other label
  (`src/runtime_tools/capture_worker.py:638-656`). `CaptureJobProtocol.CompleteTurnsFailed` is such a run;
  `CaptureJobProtocol.LabelChangesIff` says in which states the label can still change: those of a finished record whose live
  worker has yet to return, or is in a handler, or is about to write a finish, of the other label. Once the worker has let go
  of its lock the record is final, whatever its label.
- A job may finish before its output is retained. The worker marks its spool finished before it joins the drains
  (`src/runtime_tools/capture_worker.py:480-485`); when an interrupt ends the join, the handler's call returns at once and the
  record is written while the drains still write: `Follower.ShownTooSoon` is such a run, in which a follower shows less than is
  retained in the end. Drains that do not stop may also be passed over by the handler of another error
  (`src/runtime_tools/capture_worker.py:649-652`, `Follower.PassedOver`), or by a reader that declares the job lost between the
  release of the worker's lock and the end of its process (`Follower.LostTooSoon`). `Follower.EndsEarlyIff` says from which
  states this can happen, `Follower.EndsAfterDrains` that otherwise the drains come first, and `Follower.ShownIsFinalIff` when
  what a follower shows is final.
- A pending checkpoint can be left without its profile session: when the recorder is interrupted between writing the
  checkpoint and noting that it did (`src/runtime_tools/capture/_record.py:528-529`) and cannot remove the temporary file.
  `Recovery.SessionCanBeLost` is such a run and `Recovery.SessionLostIff` says which runs are; `Recovery.RecoverableIff` says
  that a checkpoint that is pending while the session it names is gone, and no other, can never be published.
- Exceptions of native functions that selection drops are not counted as dropped, unlike their calls
  (`src/runtime_tools/deep_profile/_aggregation.py:264-274`); `Selection.ExceptionLost` is such an input,
  whose selection is the right one, and `Merge.ExceptionsConservedIff` the exact condition.
- A Python file named `<native>` can make the loader reject the whole report (`ProfilerReport.NativeFilenameRejected`);
  `ProfilerReport.ReportAccepted` says exactly when.
- An exception class whose name is empty makes the validator reject its HTTP record (`HttpRecords.UnnamedErrorReached`,
  `HttpRecords.AcceptedIff`).

## Model

| member | source | states |
|---|---|---|
| `Profiler.DeepProfiler.ProfileCall` | src/runtime_tools/_deep_profile_bootstrap.py:328-363 | a call event pushes a frame for a tracked, dropped or ignored function, and changes nothing else but the tracked sets |
| `Profiler.DeepProfiler.ProfileReturn` | src/runtime_tools/_deep_profile_bootstrap.py:377-393 | a return event pops one frame, credits its time to the caller, and counts it by what the frame stands for |
| `Profiler.DeepProfiler.FinishCall` | src/runtime_tools/_deep_profile_bootstrap.py:389-417 | a tracked call that ends goes into the function table and, below its caller, into the edge table |
| `Profiler.DeepProfiler.RecordCall` | src/runtime_tools/_deep_profile_bootstrap.py:394-400 | five updates in place, one figure after the other, come to the figures of the ended call added to those of its function, and to nothing else |
| `Profiler.DeepProfiler.RecordEdge` | src/runtime_tools/_deep_profile_bootstrap.py:406-417 | an edge takes up one more call, or the call is dropped when the edge is new and its table full |
| `Profiler.DeepProfiler.Trace` | src/runtime_tools/_deep_profile_bootstrap.py:430-452 | an exception event counts for a tracked function or is dropped at the cap, control flow apart |
| `ProfilerForest.InterleavingAccounting` | src/runtime_tools/_deep_profile_bootstrap.py:328-417 | for any interleaving of any events, each figure is the sum over threads of what the thread contributes by itself |
| `ProfilerForest.ClockFitsCalls` | src/runtime_tools/_deep_profile_bootstrap.py:379-398 | with a nondecreasing clock the clamp on self time never fires in a forest of well-nested calls |
| `ProfilerForest.PerformForest` | src/runtime_tools/_deep_profile_bootstrap.py:362-388 | the stack machine ends exactly the calls of the forest, restores the stack, and credits the caller with the forest's time |
| `ProfilerForest.SumOfCalls` | src/runtime_tools/_deep_profile_bootstrap.py:389-417 | summed in the order in which calls end, a forest's figures are those computed recursively on its tree |
| `ProfilerForest.ForestAccounting` | src/runtime_tools/_deep_profile_bootstrap.py:328-452 | with all caps live and for every interleaving of threads, each table entry and drop counter is the recursive tally of the call trees plus the traced exceptions |
| `ProfilerForest.FinalAccounting` | src/runtime_tools/_deep_profile_bootstrap.py:328-452 | so for any run of call trees: what has a row in the final tables has the figures of all its calls, as if admitted from the beginning |
| `ProfilerForest.SelfTimesTelescope` | src/runtime_tools/_deep_profile_bootstrap.py:380-398 | self times of all frames of a forest, ignored and dropped ones included, add up to its root frames' elapsed time |
| `ProfilerForest.ThreadTime` | src/runtime_tools/_deep_profile_bootstrap.py:379-398 | so they do in every interleaving, thread by thread, as the stack machine credits them |
| `ProfilerForest.RoomForAll` | src/runtime_tools/_deep_profile_bootstrap.py:348-355 | when the caps leave room for every function that is called outside the observer or raises there, no function is refused |
| `ProfilerForest.AdmittedAreFirst` | src/runtime_tools/_deep_profile_bootstrap.py:344-355 | for any events, the functions that have room are the first different ones that asked for it outside the observer, up to the cap |
| `ProfilerForest.BelowCaps` | src/runtime_tools/_deep_profile_bootstrap.py:344-400 | with room for all functions that ask for it outside the observer, their figures are those defined on the call trees without any cap, and no call and no exception is dropped |
| `ProfilerForest.EdgesBelowCaps` | src/runtime_tools/_deep_profile_bootstrap.py:401-417 | with room for all edges made as well, each edge's calls and time are those defined on the call trees without any cap, and none is dropped |
| `ProfilerCalls.RowTells` | src/runtime_tools/_deep_profile_bootstrap.py:394-400 | in every interleaving a function's row counts the calls that stand for it, their summed time and own time, the longest of them, and how many raised, plus the exceptions traced in it |
| `ProfilerCalls.EdgesTell` | src/runtime_tools/_deep_profile_bootstrap.py:406-417 | an edge's row counts the calls along it and their summed time; the drop counters count the calls and edge calls that found no room |
| `ProfilerCalls.DroppedTraces` | src/runtime_tools/_deep_profile_bootstrap.py:436-443 | for any events, dropped exceptions are those traced outside the observer in functions that found no room, control flow apart |
| `ProfilerBounds.RunFits` | src/runtime_tools/_deep_profile_bootstrap.py:344-417 | for any event sequence, tables keep to their caps, entries past the depth cap are dropped ones, and edges join tracked functions |
| `ProfilerBounds.CallerIsNotObserver` | src/runtime_tools/_deep_profile_bootstrap.py:344-346 | the frame below a tracked one is never the ignored observer |
| `ProfilerBounds.RunAccounts` | src/runtime_tools/_deep_profile_bootstrap.py:342-400 | for any event sequence, calls made are calls recorded, dropped, returned from the observer, or still open |
| `ProfilerReport.RunAgrees` | src/runtime_tools/_deep_profile_bootstrap.py:394-452 | for any event sequence, self and longest time keep within total, non-control-flow within all exceptions, native exceptions within calls |
| `ProfilerReport.IncomingEdges` | src/runtime_tools/_deep_profile_bootstrap.py:394-417 | for any event sequence, the edges into a function have no more calls and time than the function |
| `ProfilerReport.DeepFunctions` | src/runtime_tools/deep_profile/_aggregation.py:125-141 | function records are accepted exactly when each is valid, goes with the report's exception filter and has an id of its own, and are then found under their ids |
| `ProfilerReport.StoredNameIsText` | src/runtime_tools/_profile_bootstrap_support.py:60-62 | whatever a function is called, what is stored of its name, at most 1024 characters, is not empty and never exceeds the loader's 4096 bytes of UTF-8 |
| `ProfilerReport.LoadReport` | src/runtime_tools/deep_profile/_loader.py:211-216 | a report's function and edge records are accepted exactly when the functions are, and each edge's numbers are in range and both its ends known |
| `ProfilerReport.ReportAccepted` | src/runtime_tools/_deep_profile_bootstrap.py:524-547 | whatever the event sequence, the function and edge records of its report pass the loader's checks together if no Python file is named `<native>`, and otherwise exactly if such functions have figures fit for native ones and no native namesake |
| `ProfilerReport.ReportTells` | src/runtime_tools/_deep_profile_bootstrap.py:524-547 | the functions reported are those of the tables, each with its figures, and no others |
| `ProfilerReport.EdgesTold` | src/runtime_tools/_deep_profile_bootstrap.py:548-560 | the edges reported are those of the tables that join reported functions, each with its figures |
| `ProfilerReport.EdgeResolves` | src/runtime_tools/deep_profile/_aggregation.py:156-170 | a reported edge resolves to the two functions it was recorded between |
| `ProfilerReport.EdgeReported` | src/runtime_tools/_deep_profile_bootstrap.py:548-560 | an edge is left out of the report only while its caller has no figures yet |
| `ProfilerReport.NativeFilenameRejected` | src/runtime_tools/deep_profile/_aggregation.py:55-57 | a Python function in a file named `<native>` that raises is rejected |
| `CausalTree.BuildChildren` | src/runtime_tools/inspect.py:132-137 | children and events with a parent are those of the resolved hierarchy edges, in stored order, as many, and events themselves |
| `CausalTree.RenderingCount` | src/runtime_tools/inspect.py:158-207 | the lines are one per tree started and one per hierarchy edge, and every event is visited |
| `CausalTree.RenderingExplained` | src/runtime_tools/inspect.py:172-197 | "(cycle)" marks exactly events on the path above, "(already shown)" the other repetitions, and every event is shown once unmarked |
| `CausalTree.RenderingInOrder` | src/runtime_tools/inspect.py:158-207 | the trees are those of the roots, in order, and then of events still missing; directly below each event shown without a marker stand its children, all of them and in order |
| `CausalTree.CyclesShown` | src/runtime_tools/inspect.py:172-179 | some line is marked as a cycle exactly when the hierarchy has one |
| `CausalTree.WalkShows` | src/runtime_tools/inspect.py:159-197 | walking an explicit stack with exit markers is the recursive traversal |
| `CausalTree.TreeRenderer.AppendEvent` | src/runtime_tools/inspect.py:167-197 | a popped event gets its line or hits the cap, and the rest of the walk still leads to the same full tree |
| `CausalTree.TreeRenderer.AppendTree` | src/runtime_tools/inspect.py:158-197 | one tree is what the recursive traversal shows, or cut exactly at the cap when that is longer |
| `CausalTree.TreeRenderer.Render` | src/runtime_tools/inspect.py:199-207 | the lines are those of the full rendering up to the cap, and the tree is marked truncated exactly when there are more |
| `ImportCycle.CycleFinder.Visit` | tools/check_architecture.py:153-168 | what is returned is a closed walk of imports; otherwise the module and all it imports are complete |
| `ImportCycle.CycleFinder.Find` | tools/check_architecture.py:148-174 | a closed walk of edges is returned or the graph is acyclic, and nothing is returned exactly for acyclic graphs |
| `ParentHierarchy.ValidateParentHierarchy` | src/runtime_tools/annotations.py:294-312 | edges are accepted exactly when each child has one parent and no event is its own ancestor |
| `ParentHierarchy.FollowParents` | src/runtime_tools/annotations.py:303-312 | following parents terminates with the shared memo, and finds a cycle exactly when there is one |
| `CaptureJob.UpdatedAccepted` | src/runtime_tools/capture_jobs/_service.py:243-330 | every update of a worker leads from an accepted record to an accepted record, or is refused |
| `CaptureJob.MarkedAccepted` | src/runtime_tools/capture_jobs/_service.py:277-328 | the output figures a checkpoint writes pass the parser |
| `CaptureJob.DeclaredAccepted` | src/runtime_tools/capture_jobs/_service.py:512-525 | a record declared lost passes the parser |
| `CaptureJobProtocol.StepKeeps` | src/runtime_tools/capture_jobs/_service.py:112-168 | every action of every participant keeps the invariant: an accepted record, one lock holder, no stale copy, a worker's progress that fits the state |
| `CaptureJobProtocol.RunKeeps` | src/runtime_tools/capture_jobs/_models.py:178-260 | every record written in any run passes the parser |
| `CaptureJobProtocol.StepMoves` | src/runtime_tools/capture_jobs/_service.py:380-399 | the state moves from starting to running to an end only, but for a worker's last finish |
| `CaptureJobProtocol.WrittenFromLatest` | src/runtime_tools/capture_jobs/_repository.py:156-167 | every write is made from the record it replaces, so no update is lost |
| `JobFields.CreatedFields` | src/runtime_tools/capture_jobs/_service.py:62-105 | a new record is starting, without worker, status or output |
| `JobFields.FinishFields` | src/runtime_tools/capture_jobs/_service.py:379-399 | a finish in range writes its status, the label and the time, and nothing else; another writes nothing |
| `JobFields.StdoutFields` | src/runtime_tools/capture_jobs/_service.py:277-315 | a checkpoint of the first stream is written exactly if it is within the limits and takes nothing back, and changes that stream only |
| `JobFields.StderrFields` | src/runtime_tools/capture_jobs/_service.py:316-328 | and so is one of the second |
| `JobFields.DisconnectFields` | src/runtime_tools/capture_jobs/_service.py:402-416 | a disconnection writes its flag and the time |
| `JobFields.IncompleteFields` | src/runtime_tools/capture_jobs/_service.py:419-439 | incomplete output of a detached job is marked as truncated by an unknown amount, sizes kept |
| `JobFields.ArtifactsFields` | src/runtime_tools/capture_jobs/_service.py:452-478 | artifacts are written in order if there are not too many and none is too long, or nothing is |
| `JobFields.StartFields` | src/runtime_tools/capture_jobs/_service.py:144-166 | a starting job gets state, worker and time; another is not started |
| `JobFields.FailFields` | src/runtime_tools/capture_jobs/_service.py:119-128 | a launcher that gives up fails a job with status 2 unless it is over |
| `JobFields.SeenFields` | src/runtime_tools/capture_jobs/_service.py:493-511 | an observer is told, and goes on from, the record with the sizes that the output files have |
| `JobFields.ToldAsSeen` | src/runtime_tools/capture_jobs/_service.py:501-503 | while somebody holds the lock an observer is told what it saw |
| `JobFields.LostFields` | src/runtime_tools/capture_jobs/_service.py:512-527 | a job declared lost keeps all that was seen, without a status, and with unknown amounts missing if it is detached |
| `JobFields.DeadIsDeclared` | src/runtime_tools/capture_jobs/_service.py:493-527 | a job that nobody works on, running or out of its grace period, is found lost by the next observer |
| `JobFields.ExitStatusTold` | src/runtime_tools/capture_jobs/_service.py:391-396 | in every run the exit status is that of the last finish written, of a failed start, or none after a loss |
| `JobFields.OthersStay` | src/runtime_tools/capture_jobs/_service.py:112-478 | each other field is changed by its own kind of write only |
| `JobFields.WorkerSetsAbout` | src/runtime_tools/capture_worker.py:603-671 | which updates a worker may set about, and when |
| `JobFields.DyingReleases` | src/runtime_tools/capture_jobs/_service.py:130-137 | whoever dies or ends gives its lock back, and nobody else's |
| `CaptureJobProtocol.LostOnlyWhenDead` | src/runtime_tools/capture_jobs/_service.py:500-526 | a job is declared lost only when no worker holds its lock, and a starting one only after its grace period |
| `CaptureJobProtocol.ClosedRecordIsFinal` | src/runtime_tools/capture_jobs/_service.py:112-168 | a terminal record whose worker has let go never changes again |
| `CaptureJobProtocol.LostIsForever` | src/runtime_tools/capture_jobs/_service.py:150-152 | a job recorded lost is never started afterwards |
| `CaptureJobProtocol.ReportIsRecorded` | src/runtime_tools/capture_jobs/_service.py:493-529 | the state an observer is told is the recorded one, or one that was not terminal |
| `CaptureJobProtocol.FinishedNeverLost` | src/runtime_tools/capture_jobs/_service.py:493-529 | a finished job stays finished and is never reported lost |
| `CaptureJobProtocol.TerminalForever` | src/runtime_tools/capture_jobs/_service.py:120-122 | a terminal record stays terminal in every run |
| `CaptureJobProtocol.LabelChangesIff` | src/runtime_tools/capture_worker.py:603-671 | from a terminal record some run leads to another label exactly when its worker is live and not yet returned, in the handler, or about to write a finish, of the other label |
| `CaptureJobProtocol.LabelChangesOnce` | src/runtime_tools/capture_worker.py:638-656 | where a run has changed a terminal label, nothing changes it again |
| `CaptureJobProtocol.CompleteTurnsFailed` | src/runtime_tools/capture_worker.py:638-656 | a run in which complete turns into failed |
| `CaptureJobProtocol.RunTimes` | src/runtime_tools/capture_jobs/_models.py:192-195 | the start time stays and the update time never goes back |
| `CaptureJobProtocol.RunHeeds` | src/runtime_tools/capture_jobs/_service.py:306-328 | in no run is a lost client, a truncation, or a count of omitted bytes taken back |
| `CaptureJobProtocol.EveryRun` | src/runtime_tools/capture_jobs/_service.py:62-168 | all of this for any run from the job's creation, cut in two at any point |
| `OutputDrain.LastOfMore` | src/runtime_tools/capture_worker.py:71-90 | sliding the tail chunk by chunk is taking the end of the whole |
| `OutputDrain.RetainedOutputTail.Append` | src/runtime_tools/capture_worker.py:71-90 | the tail is the last bytes of all that was appended, up to its limit |
| `OutputDrain.RetainedOutputTail.Trim` | src/runtime_tools/capture_worker.py:82-90 | dropping the excess chunk by chunk leaves exactly the last bytes |
| `OutputDrain.RetainedOutputTail.Snapshot` | src/runtime_tools/capture_worker.py:92-93 | the snapshot is the contents |
| `OutputDrain.Figures` | src/runtime_tools/capture_worker.py:452-461 | head, tail and omitted add up to the total as far as the omitted count reaches, and truncation is what is missing |
| `OutputDrain.CheckpointAccepted` | src/runtime_tools/capture_jobs/_service.py:265-305 | a checkpoint after more was read is never refused as decreasing or as not truncated |
| `OutputDrain.HeadGrows` | src/runtime_tools/capture_worker.py:400-409 | splitting each chunk between head and tail is splitting the whole stream |
| `OutputDrain.StreamDrain.Take` | src/runtime_tools/capture_worker.py:400-409 | head file and tail follow the stream by one chunk |
| `OutputDrain.StreamDrain.WriteAll` | src/runtime_tools/capture_worker.py:465-474 | short writes append all of the content in order |
| `OutputDrain.StreamDrain.Checkpoint` | src/runtime_tools/capture_worker.py:440-462 | a checkpoint writes the current tail and figures, and is never refused |
| `OutputDrain.StreamDrain.CheckpointWhenDue` | src/runtime_tools/capture_worker.py:410-424 | neither does a periodic one fail or lose anything |
| `OutputDrain.StreamDrain.Drain` | src/runtime_tools/capture_worker.py:354-437 | for any chunking and any schedule of checkpoints: head, tail and figures in the end are those of the whole stream |
| `Follower.MovesKeep` | src/runtime_tools/capture_worker.py:603-671 | every move of the main thread, a drain or an observer keeps what relates the spool's mark, the join and the record's end |
| `Follower.EndsAfterDrains` | src/runtime_tools/capture_worker.py:477-498 | a record turns terminal only after both drains ended, in every run that gives up no join while a drain runs |
| `Follower.EndsEarlyIff` | src/runtime_tools/capture_worker.py:477-498 | from any state a job gets into, without a further join given up, a record can turn terminal before a drain's end exactly if the spool counts as finished, a drain runs and the main thread is not joining |
| `Follower.HeadsGrow` | src/runtime_tools/capture_worker.py:400-409 | heads only grow, whatever the main thread does |
| `Follower.HeadStaysIff` | src/runtime_tools/capture_worker.py:400-409 | a head is the same at two moments exactly when a running drain appended nothing between them |
| `Follower.DrainedIsFinal` | src/runtime_tools/capture_worker.py:426-437 | once a drain has ended its files never change again |
| `Follower.ReadSegment` | src/runtime_tools/capture_jobs/_output.py:171-216 | reading in parts from a growing file gives what was there when it was opened, from the offset on |
| `Follower.ReadOutput` | src/runtime_tools/capture_jobs/_service.py:333-377 | no poll fails, and it brings the new part of each head as opened and, of a terminal job, the tails as read |
| `Follower.Follow` | src/runtime_tools/cli.py:486-504 | for any schedule of writes, exceptions and polls: what is printed is a prefix of the head until a terminal record is seen, and then head and tail as that poll found them; the final ones if no join was given up |
| `Follower.ShownWhenCalm` | src/runtime_tools/capture_worker.py:635-639 | if no join was given up, what the poll that saw the end shows is what there is in the end |
| `Follower.ShownIsFinalIff` | src/runtime_tools/cli.py:499-503 | what a poll shows of a stream is final in every continuation exactly when the stream's drain had ended when its tail was read and had appended nothing since its head was opened |
| `Follower.ShownTooSoon` | src/runtime_tools/capture_worker.py:640-646 | a run with an interrupted join, in which a follower of a terminal job shows less than the final head |
| `Follower.PassedOver` | src/runtime_tools/capture_worker.py:649-656 | a run in which the handler of an error passes over drains that do not stop |
| `Follower.LostTooSoon` | src/runtime_tools/capture_jobs/_service.py:512-526 | a run in which a job is declared lost while a drain still writes |
| `Follower.InterruptsTell` | src/runtime_tools/capture_worker.py:640-656 | where an interrupt or an error leads to on the way out |
| `Follower.WritesShape` | src/runtime_tools/capture_worker.py:354-437 | however the two drains' writes are mixed, each stream's files are what its own writes make of them |
| `Follower.FinallyRetained` | src/runtime_tools/capture_worker.py:635-639 | if no join was given up and a stream's drain came to its end, a follower has printed the first and last bytes of the stream, all of it if it fits |
| `Follower.RetainedIsWhole` | src/runtime_tools/capture_worker.py:400-409 | a stream within the limit is retained whole, a longer one without its middle |
| `Recovery.StepKeeps` | src/runtime_tools/capture/_recovery.py:26-75 | every step of recorder and recovery, and every crash, keeps the invariant on metadata, graph and session |
| `Recovery.AssembleKeeps` | src/runtime_tools/capture/_recovery.py:37-67 | assembly adds the graph once with its evidence, or none with the invalid note |
| `Recovery.RecoverKeeps` | src/runtime_tools/capture/_recovery.py:136-182 | a recovery takes up the work where the metadata says it stands |
| `Recovery.EveryRun` | src/runtime_tools/capture/_record.py:520-583 | in any run, what is published is complete, accounts for the profile once and has no session left; a pending checkpoint points to its session, process and entity, and has the session unless it was given up; other metadata is untouched |
| `Recovery.AssemblyTells` | src/runtime_tools/capture/_recovery.py:37-67 | in every run, the graph is in exactly once with its evidence if the last load succeeded, and else not at all with that load's error |
| `Recovery.WorkerNoted` | src/runtime_tools/capture/_record.py:548-553 | the note on the worker's client is written by the recorder after completion, and by nobody else |
| `Recovery.InterruptedTells` | src/runtime_tools/capture/_record.py:561-582 | an interrupted recorder gives up its session and removes what it wrote, if it can; later than that it leaves all as it is |
| `Recovery.RefusedTells` | src/runtime_tools/capture/_record.py:554-561 | a runpack whose name is taken is not published |
| `Recovery.WorkEnds` | src/runtime_tools/capture/_recovery.py:154-192 | whoever is not killed or refused publishes in a bounded number of steps |
| `Recovery.RecordingPublishes` | src/runtime_tools/capture/_record.py:520-556 | a recorder that is not disturbed publishes a complete runpack not marked as recovered, with the graph and its evidence if the session could be loaded and else with the error, and with the note on the worker's client |
| `Recovery.RecoveryPublishes` | src/runtime_tools/capture/_recovery.py:127-192 | from any state a run can leave behind, one recovery to its end publishes a complete runpack that is marked as recovered; a session still to be loaded gets its graph in exactly if that succeeds; what was assembled before stays |
| `Recovery.AbandonedIsStuck` | src/runtime_tools/capture/_record.py:561-582 | a checkpoint whose session was given up is never published |
| `Recovery.RecoverableIff` | src/runtime_tools/capture/_recovery.py:120-153 | a checkpoint left behind can still be published exactly unless it is pending and the session it names is gone |
| `Recovery.SessionCanBeLost` | src/runtime_tools/capture/_record.py:528-529 | a run that leaves such a checkpoint behind |
| `Recovery.SessionLostIff` | src/runtime_tools/capture/_record.py:561-582 | a run leaves such a checkpoint exactly if the recorder is interrupted in it between writing the checkpoint and taking it over, and cannot remove it |
| `Ranking.SelectTop` | src/runtime_tools/deep_profile/_ranking.py:192-208 | one pass in any order with a bounded heap keeps exactly the greatest candidates |
| `Ranking.LessIff` | src/runtime_tools/deep_profile/_ranking.py:203-207 | ranks are compared as numbers at the first place in which they differ |
| `Ranking.TopIsUnique` | src/runtime_tools/deep_profile/_ranking.py:192-208 | there is one such selection |
| `Ranking.AggregateRanker.Add` | src/runtime_tools/deep_profile/_ranking.py:146-180 | scores are added, or refused exactly for another identity or for a sum out of range, leaving the table alone |
| `Ranking.AggregateRanker.AddAll` | src/runtime_tools/deep_profile/_aggregation.py:193-205 | a list of contributions is accepted exactly when identities agree and all sums are in range, and scores are then the sums |
| `Ranking.AggregateRanker.SelectedKeys` | src/runtime_tools/deep_profile/_ranking.py:182-208 | the keys are those of the greatest entries by primary score, secondary score and key |
| `Merge.MergedFigures` | src/runtime_tools/deep_profile/_aggregation.py:256-280 | functions kept are those selected that occur; their figures, in all and per process, are sums and maxima of their parts |
| `Merge.MergedAdds` | src/runtime_tools/deep_profile/_ranking.py:252-324 | each kept figure, in all and per process, is the sum over the rows of the function; its longest time bounds that of every row and is that of one |
| `Merge.Conserves` | src/runtime_tools/deep_profile/_aggregation.py:256-280 | kept, dropped and uncounted figures are the input totals |
| `Merge.CallsConserved` | src/runtime_tools/deep_profile/_aggregation.py:258-263 | kept plus dropped calls are all calls |
| `Merge.ExceptionsConservedIff` | src/runtime_tools/deep_profile/_aggregation.py:264-274 | kept plus dropped exceptions are all exceptions exactly when no native function that raised was left out |
| `Merge.EdgesAreSums` | src/runtime_tools/deep_profile/_loader.py:262-294 | a kept edge joins distinct selected functions and has the sums of what was reported for it |
| `Merge.EdgeSumsAdd` | src/runtime_tools/deep_profile/_loader.py:280-294 | calls and time of an edge are the sums of what was reported for it |
| `Merge.TruncatedIff` | src/runtime_tools/deep_profile/_loader.py:272-279 | the merge counts as truncated by edges exactly when one between distinct selected functions was not selected |
| `Merge.EdgesJoinFunctions` | src/runtime_tools/deep_profile/_loader.py:262-294 | both ends of a kept edge are kept functions |
| `Merge.EdgeCallsConserved` | src/runtime_tools/deep_profile/_loader.py:267-294 | kept plus dropped edge calls are all calls between distinct kept functions |
| `Merge.RanksAreSums` | src/runtime_tools/deep_profile/_aggregation.py:194-205 | unless digests collide, which is refused, a function is ranked by its summed self and total times |
| `Merge.BoundedTotal` | src/runtime_tools/deep_profile/_common.py:247-251 | adding terms up one by one is refused exactly when their total is out of range, and gives the total otherwise |
| `Merge.AnyOrderAddsUp` | src/runtime_tools/deep_profile/_common.py:247-251 | neither the refusal nor the sum depends on the order of the terms |
| `Merge.AddFigures` | src/runtime_tools/deep_profile/_ranking.py:295-310 | figures are added exactly when all sums are in range |
| `Merge.Merger.AddRows` | src/runtime_tools/deep_profile/_aggregation.py:256-280 | merging goes through exactly when all final sums are in range, and gives the merge of all rows |
| `Merge.AnyOrderMerges` | src/runtime_tools/deep_profile/_aggregation.py:256-280 | the merge depends on what rows there are and not on their order |
| `Merge.AnyOrderRepresentable` | src/runtime_tools/deep_profile/_aggregation.py:256-280 | nor does it depend on the order whether rows can be merged |
| `Merge.DroppedAddsUp` | src/runtime_tools/deep_profile/_aggregation.py:258-263 | adding up the calls of unselected rows one by one is refused exactly when what counts as dropped is out of range, and gives it otherwise |
| `Merge.Merger.DropRow` | src/runtime_tools/deep_profile/_aggregation.py:258-275 | a row not selected counts as dropped, exceptions of Python functions only |
| `Merge.Merger.KeepRow` | src/runtime_tools/deep_profile/_ranking.py:285-324 | a selected row goes into its function's figures, in all and for its process |
| `Merge.Merger.AddCalls` | src/runtime_tools/deep_profile/_loader.py:258-294 | merging edges goes through exactly when all final sums are in range, and gives the merge of all edges |
| `Merge.Merger.AddCall` | src/runtime_tools/deep_profile/_loader.py:263-294 | one edge is skipped, dropped or added |
| `Selection.KeepsGreatestFunctions` | src/runtime_tools/deep_profile/_aggregation.py:188-206 | the functions kept are as many as may be of all that occur; each has more self time than every one left out, or as much and more total time, or as much of both and the greater digest, summed over all reports |
| `Selection.KeepsGreatestEdges` | src/runtime_tools/deep_profile/_aggregation.py:281-299 | the edges kept are as many as may be of those between distinct kept functions; each has more total time than every one left out, or as much and more calls, or as much of both and the greater digests |
| `Selection.ChosenOnce` | src/runtime_tools/deep_profile/_ranking.py:182-208 | what is selected of functions and edges is determined by the reports and the limits |
| `Selection.MergeProfiles` | src/runtime_tools/deep_profile/_loader.py:222-294 | the two passes together: what is merged are the greatest functions and edges, with their summed figures; refused is exactly what has conflicting digests, a rank out of range, or a sum out of range for what is selected |
| `Selection.ExceptionLost` | src/runtime_tools/deep_profile/_aggregation.py:264-274 | a Python function and a native one that raised, of which only the first is selected: the exception is counted nowhere |
| `ProcessObserver.ProcessTreeObserver.RecordPoll` | src/runtime_tools/process_observer.py:269-337 | a poll admits, links and stores as the specification does |
| `ProcessObserver.ProcessTreeObserver.Accept` | src/runtime_tools/process_observer.py:279-307 | each process continues its observation, starts a new generation, or is dropped at the limit |
| `ProcessObserver.ProcessTreeObserver.LinkParents` | src/runtime_tools/process_observer.py:309-318 | new observations get the root, or what their parent pid is observed as, for a parent |
| `ProcessObserver.ProcessTreeObserver.StoreSamples` | src/runtime_tools/process_observer.py:321-337 | samples are stored and counted up to the limit |
| `ProcessObserver.ObservationsAreFirstRuns` | src/runtime_tools/process_observer.py:269-337 | for all polls: observations are the first maximal runs in order, dropped pids those of the others; stored samples are the first ones and counts add up to them; parents are the root or observed; truncated exactly past a limit |
| `ProcessObserver.PollsCounted` | src/runtime_tools/process_observer.py:274 | each poll is counted once |
| `ProcessObserver.RunsDiffer` | src/runtime_tools/process_observer.py:287-289 | no two observations share pid and generation |
| `ProcessObserver.AllAccepted` | src/runtime_tools/process_observer.py:279-307 | a poll accepts exactly the processes whose runs are observed |
| `ProcessHistory.AllBorn` | src/runtime_tools/process_observer.py:282-307 | a poll adds one observation for each run that starts and finds room, made from its sample, and leaves the others alone |
| `ProcessHistory.LinksParents` | src/runtime_tools/process_observer.py:309-318 | linking gives each new observation its parent, in whatever order, and changes nothing else |
| `ProcessHistory.PollGoesOn` | src/runtime_tools/process_observer.py:269-337 | from poll to poll old observations keep all but count and last time, and new ones are as their poll says |
| `ProcessHistory.ObservationsAre` | src/runtime_tools/process_observer.py:269-337 | for all polls each observation is determined: name and parent pid by its run's first sample, its parent by the runs of that poll, count and last time by its stored samples |
| `HttpRecords.HttpMethod` | src/runtime_tools/_semantic_capture_bootstrap/_boundaries.py:49-64 | a method that is a bounded upper-case word is recorded unchanged, any other as a placeholder that no method can be |
| `HttpRecords.HttpPort` | src/runtime_tools/_semantic_capture_bootstrap/_boundaries.py:84-89 | a valid port is recorded unchanged, no port as 443 or 80, any other as none |
| `HttpRecords.StepKeeps` | src/runtime_tools/_semantic_capture_bootstrap/_network_hooks.py:312-437 | every region of every hook, nested or not, on any thread keeps records sound, numbered and counted, and nobody mentions a record that is not there |
| `HttpRecords.EveryRecordAccepted` | src/runtime_tools/deep_profile/_http.py:37-120 | in every interleaving every record passes the validator unless an exception class has no name, and records plus drops are the reservations while the counter is unsaturated |
| `HttpRecords.AcceptedIff` | src/runtime_tools/deep_profile/_http.py:97-118 | a reachable record is accepted exactly when its error type, if any, is not empty |
| `HttpRecords.StepBecomes` | src/runtime_tools/_semantic_capture_bootstrap/_boundaries.py:173-189 | a step sets a duration once only, and overwrites a finished outcome only from closed to response or error |
| `HttpRecords.RunBecomes` | src/runtime_tools/_semantic_capture_bootstrap/_boundaries.py:173-189 | and so does any run |
| `HttpRecords.DurationsTold` | src/runtime_tools/_semantic_capture_bootstrap/_boundaries.py:173-189 | in every run a record lasted from the clock reading of the step that made it to that of the step that first finished it, or not less than nothing |
| `HttpRecords.ReservedTells` | src/runtime_tools/_semantic_capture_bootstrap/_boundaries.py:92-127 | a record is made of what was asked for, when and in which process, while there is room |
| `HttpRecords.AnswerTells` | src/runtime_tools/_semantic_capture_bootstrap/_network_hooks.py:312-437 | how a wrapped call went decides what its record is to say |
| `HttpRecords.EndingTells` | src/runtime_tools/_semantic_capture_bootstrap/_boundaries.py:162-190 | what a finishing hook makes of an unfinished or closed record, and that it leaves others alone |
| `HttpRecords.ClosingTells` | src/runtime_tools/_semantic_capture_bootstrap/_boundaries.py:129-140 | a new request closes the unfinished record of the one before on its connection |
| `HttpRecords.ReleasingTells` | src/runtime_tools/_semantic_capture_bootstrap/_boundaries.py:157-159 | a finished hook lets go of its connection and no other |
| `HttpRecords.GivesUpTells` | src/runtime_tools/_semantic_capture_bootstrap/_network_hooks.py:321-338 | a hook that fails leaves records and connections alone; one that reserves lets the request go on without a record |
| `HttpRecords.UnnamedErrorRejected` | src/runtime_tools/deep_profile/_http.py:97-102 | a record finished by an exception class without a name is rejected |
| `HttpRecords.UnnamedErrorReached` | src/runtime_tools/_semantic_capture_bootstrap/_network_hooks.py:312-338 | a run from the start that leaves such a record |
| `HttpRecords.RunElsewhere` | src/runtime_tools/_semantic_capture_bootstrap/_boundaries.py:129-159 | whatever threads do on other connections, they never touch a request's record, its binding or the calls on its connection |
| `HttpRecords.ResponseReachesRequest` | src/runtime_tools/_semantic_capture_bootstrap/_network_hooks.py:312-420 | from any state and whatever happens on other connections: the record that `putrequest` reserves, and no other, says how the request ended, by the status of the response or the name of the exception of the call that raised, through any `endheaders` and even when the connection is closed within `getresponse`; it lasted from the reading that made it to the one that closed or ended it; and it stays so |
| `HttpRecords.ResponseCanCome` | src/runtime_tools/_semantic_capture_bootstrap/_network_hooks.py:312-437 | wherever a record is left, some such run, with a close nested in `getresponse`, brings any status there is |
| `HttpRecords.Ranks` | src/runtime_tools/deep_profile/_http.py:333-345 | no two records have the same rank |
| `HttpRecords.SelectRecords` | src/runtime_tools/deep_profile/_http.py:324-382 | the records kept are as many as may be; each goes before every one left out, failed or unfinished requests first, then by duration, start, process, id and position; the others are counted as dropped |
| `OutputPump.Pump.Relay` | src/runtime_tools/capture/_process.py:85-96 | a chunk is written as the sink takes it, in parts, and the sink is given up when it takes nothing or too much, or cannot be flushed |
| `OutputPump.GivenUpWhen` | src/runtime_tools/capture/_process.py:85-96 | a sink stays open exactly if it took everything and could be flushed; it is given up at the write that took nothing or too much |
| `OutputPump.WillingGetsAll` | src/runtime_tools/capture/_process.py:85-96 | a sink that takes what it is offered, in whatever parts, is never given up and gets everything |
| `OutputPump.Pump.Consume` | src/runtime_tools/capture/_process.py:77-96 | digest, count, capture and relay follow by one chunk |
| `OutputPump.Pump.Drain` | src/runtime_tools/capture/_process.py:99-119 | a turn after the exit reads what the pipe brings, and one byte more when the limit is reached; it ends the loop unless it brought bytes within the limit, and leaves the pipe open exactly when its end was not read |
| `OutputPump.Pump.Poll` | src/runtime_tools/capture/_process.py:120-133 | a turn before the exit reads what the pipe brings, and ends the loop only with the end of the pipe |
| `OutputPump.CourseBounded` | src/runtime_tools/capture/_process.py:99-119 | for any schedule, the bytes read after the exit are bounded by the limit and one read |
| `OutputPump.Pump.Run` | src/runtime_tools/capture/_process.py:55-141 | for any schedule: what is read are the reads of all turns up to the first one that stops; the capture is its first bytes, truncated exactly past the limit; the pipe is open exactly when its end was not read; what is relayed is a prefix, and all of it unless the sink failed |
| `ColumnNames.DecimalRoundTrip` | src/runtime_tools/query.py:90 | decimal printing can be read back |
| `ColumnNames.TriedCount` | src/runtime_tools/query.py:89-91 | different suffixes give different names |
| `ColumnNames.FirstFree` | src/runtime_tools/query.py:86-91 | the search for a free name ends, and finds the base or the first free suffix |
| `ColumnNames.Names` | src/runtime_tools/query.py:82-94 | names are distinct, as many as columns, each its base or the base with the first free suffix |
| `ColumnNames.RowKeepsColumns` | src/runtime_tools/query.py:181-184 | a row made into an object loses no column |

## Assumptions

- Files are byte sequences, replaced or appended to atomically; `flock` is an exclusive token that a dying process gives back;
  the graph and its metadata are written in one transaction.
- Clocks do not run backwards where the model says so; wall-clock readings, durations and counters stay clear of 2^63.
- `CaptureJobProtocol`: no daemon thread of a capture worker marks its record after the worker has closed its lock. `Follower`
  does not assume this.
- One controller at a time works on a checkpoint. Entity ids do not collide; digests of functions have 256 bits and may
  collide, which is refused.
- Paths hold no NUL; text is a sequence of Unicode scalar values.

## Left out

- `CausalTree.BuildChildren`: children and roots are then sorted by start time and name; the theorems hold for children and
  roots in any order, so sorting is not modelled. Neither are labels, indentation beyond depth, nor the truncation notice.
- `CausalTree.TreeRenderer.AppendTree`: the reduction of the stored graph to the semantic one
  (`src/runtime_tools/inspect.py:125-126`) happens before it and is not modelled.
- `ProfilerReport.ReportAccepted`: the order of rows, JSON encoding and the report's own counters are not modelled.
- `Profiler.DeepProfiler.ProfileCall`: WSGI and ASGI boundaries, hook-setter counters and swallowed callback errors are not
  modelled; they depend on CPython frames and bytecode.
- `CaptureJobProtocol.EveryRun`: identity and operation of a job never change and are not in the record; directories, pruning,
  the cancellation channel and the error path of drains that do not stop are not modelled.
- `Follower.Follow`: pausing between polls is not modelled; of a drain, `Follower` knows its writes and its end, and
  `OutputDrain` what they are.
- `OutputDrain.StreamDrain.Drain`: I/O errors end a drain early and are not modelled; wall clock and monotonic clock are one.
- `Selection.MergeProfiles`: documents are flattened to rows and edges in reading order, parsed as `ProfilerReport` does; the
  drop counters of the documents themselves are added to those of the selection, which is not modelled. Sample profiles use
  the same scheme with fewer figures.
- `Ranking.AggregateRanker.Add`: the SQLite table is a map, its size limit is not modelled.
- `ProcessObserver.ProcessTreeObserver.RecordPoll`: reading the process table and CPU times are not modelled.
- `HttpRecords.StepKeeps`: callers, active tokens, network suppression, forks and the optional adapters are not modelled; the
  adapters end records by the same two regions.
- `HttpRecords.SelectRecords`: the records kept are then sorted by start, process and id, which is not modelled.
- `OutputPump.Pump.Run`: the hash stands for the bytes digested.
- `ColumnNames.Names`: SQL and rendering are not modelled.
- Deduplication of edges when annotations are loaded, and the annotation file format.
- Provider imports, monkey-patching of other libraries, the demo, benchmarks and rendering to terminals.
