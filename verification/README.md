# Remote Runner, verified

Remote Runner queues jobs for a pool of SSH machines, dispatches them in batches under
machine leases, records each run durably, watches it, archives its output, and cleans up
after it. This project models the parts of that work where several processes, crashes and
lost answers meet, and proves what they promise.

## The model

| files | part of the system |
|---|---|
| Scheduling, Placement, BatchPlanner, PlannerTheorems, PlanSoundness, LaterSubmissions | ranking machines, admitting jobs, planning a batch over two lanes from one capacity snapshot, and what later submissions do to a plan |
| SingleDispatch | the older dispatch of one job, and why it picks the head of the plan |
| DispatchProtocol, DispatchInvariant, DispatchSteps, DispatchPreservation | any number of dispatchers that interleave, stall, crash and recover, as a transition system; its invariant and the proof that every step keeps it |
| DispatchOnce, DispatchSafety, DispatchSlots, DispatchTiming | what follows: launch at most once, capacity, lanes, and the exact timing condition of every configuration |
| LeaseBoard, BoardSteps | the dispatcher's own loops over lease files and queue records, with other dispatchers interfering between their operations; and why those operations are steps of the protocol |
| ExecutionRecords, RecordTheorems, RunWriters, RunConclusions | the run registry, event log and archive intents, written file by file with a crash point after every write; the writers of the records, and when they can still end a run |
| Monitoring, TextLines, BatchProbe | reading remote status, reconciling it, and the batched probe with its base64 framing |
| OutputPrune | which archived outputs are deleted, and which trees survive |
| DevSessions | compensated creation of development sessions |

Code that changes files or fields in place is a class. For the records, the development server
and the monitor its methods are proved equal to a specification function, at every crash point where
crashes matter, and the theorems are about those functions. The methods of LeaseBoard are proved
against contracts of their own; the protocol describes the same leases and rows as seen by many
dispatchers at once, and BoardSteps proves each lease and row operation to be the protocol's step.
Code that only computes is functions. The interleaving of processes is a transition
system, because no loop of the program runs it.

## Assumptions of the protocol

- There is one lease record per machine, shared by all dispatchers; acquire, renew and release
  run under one lock (src/remote_runner/_internal/controller/registry.py:2333-2553). Acquiring a
  drained machine is a step not taken.
- A read of a record and the acquire that rests on it are less than `lag` apart. Nothing in the
  code bounds this; the theorem about timing says that the bound decides safety.
- Records are never purged, so a lease of another run is never cleared as abandoned.
- A rejected bootstrap and a successful stop are settled on the remote side: the run does
  not appear later. A launched run appears at most once, on the machine of its lease.
- Each file replacement, append or removal is one atomic step.

## Assumptions of the probes

- A status file's first line ends in a line end. Without one, both remote scripts print the next output
  line on the line of the record.
- Metadata is text without line ends of its own, and the log bytes decode on their own: the marker line before
  them ends in a plain newline, which no encoding the program meets splits.

## Findings

- Capacity is not safe for every timing. A recovering dispatcher reads that a run has no execution
  record, stalls for a lease time, and then fences the lease although the first dispatcher has
  meanwhile registered the run and passed its last ownership check. Another run that fits the machine can then be
  launched there as well. A configuration is safe exactly when every run that shares a machine with another has a
  lease that outlasts the stall (`DispatchTiming.CapacityIsSafeExactlyWhenSharedLeasesOutlastLag`); a run that shares
  no machine is safe whatever its lease.
- A crash between the archive intent and the state file leaves an intent that only an update with the same end can
  repeat: the next revision, the same status, the same time. A remote status record carries its finish time to every
  reader, so the monitor can still conclude such a run. A stop of a run that was never started, and a failed
  dispatch, stamp the current clock: unless the clock repeats itself their retry is refused at once, and the run never ends
  (`RunConclusions.NeverStartedStopLocksOut`). Where a repeated end would still be possible, one further update of the run,
  such as a failed stop, rules it out. The exact condition is `RunConclusions.ConcludableByWritersExactly`, and
  over all updates `RecordTheorems.ConcludableExactly`.
- The overlap check of output pruning compares path text. A retained run without an output root may have
  parent components in its path, and is then not protected (`OutputPrune.CheckProtectsExactly`).
- The batched probe is meant to parse to what the single-run probe parses to. The observation and the status record
  agree whenever the single-run probe gets an answer at all. The log texts agree exactly when the log bytes decode strictly
  and hold no carriage return: the single-run probe decodes strictly in text mode, the batch with replacement
  characters (`BatchProbe.LogTextsAgreeExactly`, with inputs in `LogTextsCanDiffer`). A status line that ends in
  the tail marker would also cut the single-run output short, but not the batch (`BatchProbe.SingleRoundTripExactly`).
- With jobs of both lanes a later submission can change what an earlier job gets
  (`LaterSubmissions.TwoLanesCanBeDisturbed`). It does so exactly when a later job gets an earlier turn at some step of
  the earlier plan (`LaterSubmissions.PrefixStabilityExactly`); within one lane it never does.
- A cancellation marker stops a late create however late it comes, but a recording for another session prunes it once it has
  expired. A create after a verified cleanup goes through exactly in that case (`DevSessions.LateCreateExactly`).

## Model

| member | source | states |
|---|---|---|
| Scheduling.RankCandidates | src/remote_runner/_internal/scheduling.py:63-83 | ranking refuses exactly an empty list or an invalid candidate; otherwise the result is a sorted permutation of the candidates |
| Scheduling.RankingIgnoresInputOrder | src/remote_runner/_internal/scheduling.py:63-83 | with distinct names the ranking of two permutations of one candidate list is the same |
| Scheduling.FirstIsBest | src/remote_runner/_internal/scheduling.py:63-87 | no candidate has more headroom than the selected one; ties go to more cores, then higher priority, then the earlier name |
| Placement.RankForWorkload | src/remote_runner/_internal/controller/dispatcher.py:736-751 | the ranked list is empty exactly when no candidate has room, and holds only candidates with room |
| Placement.RankedLikeTheirCapacities | src/remote_runner/_internal/controller/dispatcher.py:736-751 | with distinct capacity names the ranked machines are exactly the machines with room, in the order of their ranked capacities |
| Placement.WholeMachineNeedsIdleMachine | src/remote_runner/_internal/controller/dispatcher.py:661-685 | a job without requested cores has room only on a machine with no active run |
| Placement.AdmissionIsExact | src/remote_runner/_internal/controller/dispatcher.py:670-685 | a job has room on a machine exactly when allocations are known and the machine with the run on it stays within its cores and its lane slots |
| Placement.ProbeServer | src/remote_runner/_internal/controller/dispatcher.py:548-573 | once the machine is reached and identified, its probe fails exactly when active allocations exceed the configured cores; a positive number of available cores means every allocation is known |
| Placement.CandidatesAreUsable | src/remote_runner/_internal/controller/dispatcher.py:885-944 | a job has a candidate exactly when one of its open, reachable machines with room is unprotected, and every candidate is such a machine with the capacity the shared probe saw |
| Placement.SafeNamesMeanUnprotectedMachines | src/remote_runner/_internal/controller/dispatcher.py:947-987 | limiting by the safe server names of the dictionary and limiting by unprotected machine select the same candidates |
| Placement.SelectionIsAntitone | src/remote_runner/_internal/controller/dispatcher.py:885-944 | reserving or protecting more machines never makes an unplaceable job placeable |
| BatchPlanner.PlanBackfillFromLane | src/remote_runner/_internal/controller/dispatcher.py:947-987 | the loop over a lane finds the first job behind the head that can run on machines no earlier job of the lane could use, or nothing |
| BatchPlanner.ChooseHead | src/remote_runner/_internal/controller/dispatcher.py:1007-1029 | the head loop takes the first lane head that can be placed and lists the blocked heads before it |
| BatchPlanner.ChooseBackfill | src/remote_runner/_internal/controller/dispatcher.py:1030-1039 | the backfill loop takes the first lane that has a backfill |
| BatchPlanner.ChooseDispatch | src/remote_runner/_internal/controller/dispatcher.py:1003-1048 | one pass of the outer loop chooses what the one-step choice says, and names the first blocked head when it chooses nothing |
| BatchPlanner.PlanDispatchBatch | src/remote_runner/_internal/controller/dispatcher.py:990-1054 | the nested loops end and compute the plan and the terminal outcome of the recursive planner |
| PlannerTheorems.LaneOrderIsPreserved | src/remote_runner/_internal/controller/dispatcher.py:990-1054 | in each lane the dispatches come out in queue order, dispatched and remaining jobs together are the lane, and the remaining ones are what is left of it in queue order: a job passed over is never planned later in the batch |
| PlannerTheorems.NobodyIsOvertaken | src/remote_runner/_internal/controller/dispatcher.py:947-987 | if a job is planned while an earlier job of its lane is not, neither its machine nor any alternative is an undrained eligible machine of the earlier job |
| PlannerTheorems.ChooseIsFirst | src/remote_runner/_internal/controller/dispatcher.py:1003-1039 | a choice is the first row of its lane that can be placed behind the machines of the rows before it |
| PlanSoundness.PlanIsSound | src/remote_runner/_internal/controller/dispatcher.py:885-944 | planned machines are distinct and undrained, and applying the whole plan to the snapshot keeps every machine within its cores and the used lane within its slots, adds nothing to the other lane, and puts a whole-machine job on an idle machine only |
| PlanSoundness.PlanIsMaximal | src/remote_runner/_internal/controller/dispatcher.py:1003-1054 | when planning stops, every machine a remaining job could still use is an eligible machine of an earlier remaining job of its lane |
| PlanSoundness.IdleMeansEverythingPlanned | src/remote_runner/_internal/controller/dispatcher.py:1040-1054 | planning reports idle exactly when every queued job is planned |
| PlanSoundness.PlannedRunsAreDistinct | src/remote_runner/_internal/controller/dispatcher.py:990-1054 | no run is planned twice |
| LaterSubmissions.PrefixStability | src/remote_runner/_internal/controller/dispatcher.py:947-1054 | on a queue of one lane the plan of any prefix is a prefix of the plan of the whole queue |
| LaterSubmissions.PrefixStabilityExactly | src/remote_runner/_internal/controller/dispatcher.py:1007-1039 | on any queue the plan of a prefix is a prefix of the plan of the whole queue if and only if, at every step of the former, no later job is tried before its choice and finds a machine: as standard head before a test head, as test head before standard backfill, as any standard job before test backfill |
| LaterSubmissions.TwoLanesCanBeDisturbed | src/remote_runner/_internal/controller/dispatcher.py:1007-1039 | a queue of both lanes where a later submission does change what an earlier job gets |
| SingleDispatch.UniqueServers | src/remote_runner/_internal/controller/dispatcher.py:634-650 | the shared snapshot probes one descriptor for every machine identity listed by an undrained eligible server, and no other |
| SingleDispatch.ProbeCapacitySnapshot | src/remote_runner/_internal/controller/dispatcher.py:627-658 | the snapshot holds exactly the reachable listed machines |
| SingleDispatch.SelectServerForJob | src/remote_runner/_internal/controller/dispatcher.py:754-832 | the selection loop takes the first ranked machine whose lease is free and whose second probe still has room |
| SingleDispatch.SelectBackfillFromLane | src/remote_runner/_internal/controller/dispatcher.py:835-882 | the live backfill loop takes the first job behind the head that gets a machine outside the shield of the jobs before it |
| SingleDispatch.DispatchOnceSelect | src/remote_runner/_internal/controller/dispatcher.py:1438-1484 | heads before backfill, standard before test |
| SingleDispatch.DispatchOnceRefinesThePlan | src/remote_runner/_internal/controller/dispatcher.py:1432-1494 | with stable probes, free leases and agreeing descriptors the single dispatch selects the job and machine of the first dispatch of the plan, or nothing when the plan is empty |
| DispatchPreservation.StepKeeps | src/remote_runner/_internal/controller/dispatcher.py:1183-1305 | every step of every dispatcher, of recovery, of the remote side and of an operator keeps the invariant of the protocol, when the lease of every run that shares a machine outlasts the lag |
| DispatchPreservation.FencesNoWindow | src/remote_runner/_internal/controller/registry.py:2333-2422 | a fence of an expired lease that outlasts the lag never meets an open launch window of its run: the window opened after the record read the fence rests on |
| DispatchPreservation.FenceStep | src/remote_runner/_internal/controller/dispatcher.py:1227-1230 | the ownership check after registration opens a launch window only with a live lease, a standing dispatch and the probed room still free |
| DispatchSafety.CapacityIsNeverExceeded | src/remote_runner/_internal/controller/dispatcher.py:670-685 | when the lease of every run that shares a machine outlasts the lag, in every reachable state the cores of the live runs on a machine stay within its configured cores |
| DispatchSafety.OneLaunchPerMachine | src/remote_runner/_internal/controller/dispatcher.py:1217-1230 | under the same condition no two runs have an open launch window on one machine, and a run with an open window holds its machine's lease if that lease outlasts the lag |
| DispatchSafety.LandingKeepsItsLane | src/remote_runner/_internal/controller/dispatcher.py:1519-1577 | a run that appears on its machine keeps its lane within the slots its admitting probe saw, and the machine within its cores |
| DispatchSlots.LanesStayWithinSlots | src/remote_runner/_internal/controller/dispatcher.py:670-685 | while no operator changes slot counts, every lane of every machine stays within its slots in every run of the system |
| DispatchSafety.AtMostOneLaunch | src/remote_runner/_internal/execution_registry.py:864-891 | for any timing, the bootstrap of a run is attempted at most once and only after its registration |
| DispatchSafety.DispatchedMeansRegistered | src/remote_runner/_internal/controller/dispatcher.py:1308-1324 | for any timing, a dispatched queue record has an execution record |
| DispatchSafety.RequeueIsFenced | src/remote_runner/_internal/controller/dispatcher.py:1325-1356 | for any timing, a dispatching row is queued again only by recovery, and only when the lease it was dispatched under is gone |
| DispatchReads.RowsAreAsRead | src/remote_runner/_internal/controller/registry.py:2012-2071 | for any timing, a row that a dispatcher read as queued still is at the revision it read, or has moved on to a later one |
| DispatchOnce.SendKeeps | src/remote_runner/_internal/launch.py:110-120 | a bootstrap is sent only by the registrar of the run, so no other dispatcher can still send it |
| DispatchTiming.CapacityIsSafeExactlyWhenSharedLeasesOutlastLag | src/remote_runner/_internal/controller/dispatcher.py:1331-1351 | in every configuration no run of the system overcommits a machine if and only if every run that shares a machine with another has a lease at least as long as an acquire may lag behind the record read it rests on |
| DispatchTiming.Overcommits | src/remote_runner/_internal/controller/dispatcher.py:1308-1356 | for any two runs that fit a machine, the lease of one shorter than the lag: from an initial state with fitting work of another project, the interleaving that overcommits the machine, in which recovery fences a lease on the word of a stale read while the first dispatcher stands between its ownership check and its bootstrap |
| DispatchTiming.UndisturbedDispatchCompletes | src/remote_runner/_internal/controller/dispatcher.py:1183-1241 | a dispatcher left alone brings a queued run that the machine's probe would admit all the way: row dispatched, run on the machine with its allocation, record running, lease given back |
| LeaseBoard.Board.Acquire | src/remote_runner/_internal/controller/registry.py:2333-2422 | acquire gives a fresh token exactly when the machine is undrained and its lease is absent, or expired and of the same run or of a run whose records are gone |
| LeaseBoard.Board.Renew | src/remote_runner/_internal/controller/registry.py:2467-2508 | renew extends a lease exactly when token and run are current, expired or not |
| LeaseBoard.Board.Release | src/remote_runner/_internal/controller/registry.py:2511-2553 | release removes the lease of this run and token and no other |
| LeaseBoard.Board.Transition | src/remote_runner/_internal/controller/registry.py:2012-2045 | a queue transition is a compare-and-swap on the revision along the table of legal moves; a missing row, a conflict and an illegal move are told apart and change nothing |
| LeaseBoard.Board.Recover | src/remote_runner/_internal/controller/registry.py:2048-2071 | only a dispatching row can be queued again, by compare-and-swap on its revision |
| LeaseBoard.Board.Reserve | src/remote_runner/_internal/controller/dispatcher.py:1519-1577 | with others interfering between its operations, a reservation returns holding exactly one lease, on a machine of its candidates with room outside the machines planned for other jobs, or leaves no lease behind |
| LeaseBoard.ReserveAll | src/remote_runner/_internal/controller/dispatcher.py:1597-1613 | all reservations together hold nothing but their own leases, and none sits on a machine planned for another job |
| LeaseBoard.MarkAll | src/remote_runner/_internal/controller/dispatcher.py:1615-1668 | marked rows are in dispatch at the revision of the marking unless somebody moved them on; a job whose row is lost gives its lease back, and an unforeseen error gives back every lease whose row is not marked yet |
| LeaseBoard.Heartbeat.AssertOwned | src/remote_runner/_internal/controller/dispatcher.py:325-343 | once a lease was found lost every later check fails and leaves the lease table alone |
| LeaseBoard.Attempt | src/remote_runner/_internal/controller/dispatcher.py:1202-1241 | an attempt without failure has registered the run and left its row dispatched |
| LeaseBoard.CommitRow | src/remote_runner/_internal/controller/dispatcher.py:1156-1180 | committing a marked row is lost exactly when it is at another revision and another status; otherwise the row takes the status now or has it already, and the move is never illegal |
| LeaseBoard.Launch | src/remote_runner/_internal/controller/dispatcher.py:1183-1305 | a launch keeps its lease exactly when its outcome is unknown and the run was not seen on its machine; started rows are dispatched, definite failures failed unless recording the failure raises or the row is lost |
| LeaseBoard.DispatchBatch | src/remote_runner/_internal/controller/dispatcher.py:1580-1679 | a lease file under a token handed out during the call is left only for a registered run whose launch has an unknown outcome and was not seen, whether the batch returns or a launch breaks it off; when marking breaks off, only for planned jobs whose rows were marked dispatching |
| LeaseBoard.ClearLease | src/remote_runner/_internal/controller/dispatcher.py:1325-1351 | recovery removes only the one expired lease of the run, and reports a live, unfenceable or doubled lease |
| LeaseBoard.ReconcileDispatching | src/remote_runner/_internal/controller/dispatcher.py:1308-1356 | the recovery loop ends; when it returns nothing no row is dispatching; registered rows became dispatched, others queued with no lease left, and every removed lease had expired |
| LeaseBoard.ReconcileOwnedLeases | src/remote_runner/_internal/controller/dispatcher.py:1359-1429 | exactly the leases whose launch is settled, or whose run is gone and that have expired, are released |
| BoardSteps.AcquireIsAStep | src/remote_runner/_internal/controller/registry.py:2333-2422 | acquiring a lease is the protocol's step on the shared records, and fails exactly when that step cannot be taken |
| BoardSteps.FencingIsAStep | src/remote_runner/_internal/controller/dispatcher.py:1331-1351 | so is the acquire by which recovery fences a lease |
| BoardSteps.OwnedCheckIsAStep | src/remote_runner/_internal/controller/dispatcher.py:325-343 | the first ownership check is the protocol's step and decides between going on and failing |
| BoardSteps.FenceCheckIsAStep | src/remote_runner/_internal/controller/dispatcher.py:1227-1230 | the ownership check after registration is the protocol's step and decides between launching and an unknown outcome |
| BoardSteps.HeartbeatIsAStep | src/remote_runner/_internal/controller/dispatcher.py:285-343 | a heartbeat is the protocol's step while the lease is held, and none afterwards |
| BoardSteps.GiveBackIsAStep | src/remote_runner/_internal/controller/dispatcher.py:1295-1305 | giving the lease back is the protocol's last step of a launch |
| BoardSteps.RepairReleaseIsAStep | src/remote_runner/_internal/controller/dispatcher.py:1345-1351 | recovery's release of the fenced lease, and the release of a settled one, are steps of the protocol |
| BoardSteps.MarkIsAStep | src/remote_runner/_internal/controller/dispatcher.py:1615-1628 | marking a row succeeds exactly when the protocol's dispatcher gets its row |
| BoardSteps.CommitIsAStep | src/remote_runner/_internal/controller/dispatcher.py:1156-1180 | committing a launched row is the protocol's step and is lost exactly when that step leaves the outcome unknown |
| BoardSteps.RequeueIsAStep | src/remote_runner/_internal/controller/registry.py:2048-2071 | queueing a row again is the protocol's step and takes effect exactly on a dispatching row at the revision that was seen |
| ExecutionRecords.Registry.RegisterCurrentRun | src/remote_runner/_internal/execution_registry.py:864-891 | registration in place equals its specification, at every crash point |
| ExecutionRecords.Registry.UpdateCurrentState | src/remote_runner/_internal/execution_registry.py:742-789 | an update in place equals its specification, at every crash point: checks, then intent, then state, then event |
| ExecutionRecords.Registry.CompactRunEvents | src/remote_runner/_internal/execution_registry.py:694-735 | the compaction loop keeps exactly the lines that name none of the runs, or nothing changes because a malformed line mentions one |
| ExecutionRecords.Registry.EnqueueTerminalOutput | src/remote_runner/_internal/output_sync.py:332-361 | an intent is written only when neither a completed nor a pending record exists, and a different pending one is a conflict |
| ExecutionRecords.Registry.CompleteIntent | src/remote_runner/_internal/output_sync.py:797-819 | completion in place equals its specification, at every crash point |
| ExecutionRecords.Registry.ProcessPendingOnce | src/remote_runner/_internal/output_sync.py:822-894 | the worker's loop is the fold of processing one intent |
| RecordTheorems.StatesOnlyMoveForward | src/remote_runner/_internal/execution_registry.py:738-789 | over any operations with crashes anywhere the status only moves forward, terminal status is absorbing, and the revision counts the updates that reached the state file |
| RecordTheorems.UpdatesAreExact | src/remote_runner/_internal/execution_registry.py:742-789 | an update writes exactly its changes, the next revision and one event, or is refused without a trace, and leaves every other run alone |
| RecordTheorems.EventsReplay | src/remote_runner/_internal/execution_registry.py:742-789 | without crashes a run's events are gapless and replay to its current revision and status, whatever other runs do, crash or lose to compaction |
| RecordTheorems.CompactionKeepsOthers | src/remote_runner/_internal/execution_registry.py:694-735 | compacting away some runs' lines does not change what is read back for any other run |
| RecordTheorems.EventsStayOrdered | src/remote_runner/_internal/execution_registry.py:742-789 | with crashes a run's update events are strictly increasing and never ahead of its state |
| RecordTheorems.ArchivalIsCrashSafe | src/remote_runner/_internal/output_sync.py:332-361 | at every crash point a run that ended with an output path has a pending or completed archive record |
| RecordTheorems.MismatchesAreUnreachable | src/remote_runner/_internal/output_sync.py:850-872 | the comparisons of intent and execution record never object, a run is waiting exactly while it has not ended, retries come only from the target, and the target is invoked only for ended runs |
| RecordTheorems.CompletedForGood | src/remote_runner/_internal/output_sync.py:797-819 | a completed archive record is never left |
| RecordTheorems.SyncStatusIsTruthful | src/remote_runner/_internal/output_sync.py:920-958 | an ended run with an output is never reported as not enqueued, and completed is reported only for ended runs and for good |
| RecordTheorems.ConcludableExactly | src/remote_runner/_internal/execution_registry.py:770-778 | where only some ends can still be reported, a run can be concluded if and only if one of them can be at all and, when an intent is on file, it carries the next revision and its own status and time are among those ends |
| RecordTheorems.LockedOutForGood | src/remote_runner/_internal/output_sync.py:352-359 | a run with an intent that no later update can repeat stays unfinished for ever |
| RecordTheorems.OtherEndsNeverConclude | src/remote_runner/_internal/output_sync.py:352-359 | over any operations with crashes anywhere, a run whose every reported end differs from its intent in status or time never ends |
| RecordTheorems.CrashThenUpdateLocksOut | src/remote_runner/_internal/execution_registry.py:770-789 | a stop cut off between intent and state, followed by an update that does not end the run, locks the run out |
| RecordTheorems.WithoutCrashesNoUpdateConflicts | src/remote_runner/_internal/output_sync.py:352-359 | without crashes no update is refused for a conflicting intent |
| RunWriters.Launch | src/remote_runner/_internal/launch.py:100-149 | launch refuses every run that is not registered, and otherwise makes the one update its verdict asks for |
| RunWriters.LaunchIsRecorded | src/remote_runner/_internal/launch.py:46-84 | the outcome of a launch is always recorded: running exactly when the remote side confirmed the session, registered with the reason otherwise |
| RunWriters.Stop | src/remote_runner/_internal/stopping.py:368-400 | stop leaves an ended run alone, and otherwise makes the one update its report asks for |
| RunWriters.StopEndsTheRunExactly | src/remote_runner/_internal/stopping.py:345-400 | a confirmed stop ends the run exactly when no other archive intent is on file for it |
| RunConclusions.ReportedEndsAreStamped | src/remote_runner/_internal/stopping.py:345-365 | every end that a stop, a failed dispatch or the monitor reports bears the finish time of the remote record that was read, or else the current clock |
| RunConclusions.ConcludableByWritersExactly | src/remote_runner/_internal/execution_registry.py:770-778 | a run with an intent on file can be ended by the writings that can still come if and only if the intent carries the next revision and one of them reports exactly its status and time |
| RunConclusions.NeverStartedStopLocksOut | src/remote_runner/_internal/controller/dispatcher.py:1118-1142 | after a stop of a never-started run was cut off between intent and state, the next stop is refused although the intent carries the next revision, and nothing without a remote record ever ends the run unless the clock shows the old time |
| Monitoring.AcceptedRecords | src/remote_runner/_internal/monitoring.py:136-199 | an accepted status record names this run and its exit code fits its state |
| Monitoring.ObservationsMean | src/remote_runner/_internal/monitoring.py:408-462 | which evidence each observation stands for, in both directions |
| Monitoring.TerminalWritesAreJustified | src/remote_runner/_internal/monitoring.py:680-757 | a terminal state the monitor writes comes from a valid record of the same run with a dead process group, and carries its exit code and times |
| Monitoring.MonitoredEndIsJustified | src/remote_runner/_internal/monitoring.py:680-757 | over any sequence of raw probe outputs a run ends only if one of them held a valid record of the same run with a fitting exit code and a dead process group, and the stored end stays what that one showed |
| Monitoring.RepeatedProbesSettleExactly | src/remote_runner/_internal/monitoring.py:700-757 | applying a probe twice equals applying it once, except exactly for a probe that declares a registered run running although it found neither session nor process group alive |
| Monitoring.ProbesSettle | src/remote_runner/_internal/monitoring.py:408-487 | that exception never arises from a real probe |
| Monitoring.MonitorUpdatesAreLegal | src/remote_runner/_internal/monitoring.py:738-757 | the monitor never asks for an illegal transition |
| Monitoring.ReconcileCurrent | src/remote_runner/_internal/monitoring.py:680-762 | the monitor's pass in place makes the one update the evidence asks for, or none |
| TextLines.DecodeEncode | src/remote_runner/_internal/monitoring.py:541-581 | base64 as in section 4 of RFC 4648: decoding an encoding gives the bytes back |
| BatchProbe.SplitBatchOutput | src/remote_runner/_internal/monitoring.py:584-639 | the one-pass splitter equals its specification on any text |
| BatchProbe.TailsForgeNoMarker | src/remote_runner/_internal/monitoring.py:541-549 | however base64 wraps its output, no line of any log tail is a marker of any run |
| BatchProbe.BatchRoundTrip | src/remote_runner/_internal/monitoring.py:584-639 | splitting what the script prints for distinct runs gives each run its own metadata lines and exactly its tail bytes |
| BatchProbe.SingleRoundTripExactly | src/remote_runner/_internal/monitoring.py:202-207 | the single-run probe reads back its metadata and log text, whatever the log says, if and only if no metadata line ends in the tail marker |
| BatchProbe.BatchAgreesWithSingle | src/remote_runner/_internal/monitoring.py:642-677 | for every run of a batch both probes of the same remote facts, log bytes included, come to the same observation, liveness and status record, whenever the single-run output decodes and no metadata line ends in the tail marker |
| BatchProbe.LogTextsAgreeExactly | src/remote_runner/_internal/monitoring.py:607-637 | the log texts of both probes are the same if and only if the log bytes decode strictly and hold no carriage return |
| BatchProbe.LogTextsCanDiffer | src/remote_runner/_internal/remote_shell.py:46-54 | a carriage return is folded and an undecodable byte fails the probe in the single-run form, unlike in the batch |
| OutputPrune.OutputsStayBelowTheirRoot | src/remote_runner/_internal/output_paths.py:45-56 | a resolved output path leads strictly below where its root leads |
| OutputPrune.CandidatesAreArchived | src/remote_runner/_internal/controller/output_prune.py:27-85 | a candidate is exactly an ended run whose archive was verified and whose archive record still describes its server, path, status and revision |
| OutputPrune.Classify | src/remote_runner/_internal/controller/output_prune.py:158-183 | every completed record asked about is a candidate, already pruned, or blocked; in both directions |
| OutputPrune.PlanPrune | src/remote_runner/_internal/controller/output_prune.py:139-196 | eligible are exactly the candidates that overlap no retained run of the same source |
| OutputPrune.ApplyPrune | src/remote_runner/_internal/controller/output_prune.py:208-263 | only eligible candidates that pass both checks again under the lease are deleted; every other one is reported as failed |
| OutputPrune.DeletionsAreDisjoint | src/remote_runner/_internal/controller/output_prune.py:117-136 | the paths one pass deletes are pairwise disjoint on every shared source |
| OutputPrune.PassSparesOthers | src/remote_runner/_internal/controller/output_prune.py:208-263 | in a file system one whole pass of deletions leaves the output tree of every retained run of the same sources unchanged, if its path has no parent component |
| OutputPrune.PassRemovesExactly | src/remote_runner/_internal/controller/output_prune.py:208-263 | what a pass removes lies below the paths it was sent for, what it leaves is unchanged, and nothing is left below the path of a confirmed deletion |
| OutputPrune.CheckProtectsExactly | src/remote_runner/_internal/controller/output_prune.py:21-24 | the overlap check protects a path from every candidate if and only if the path has no parent component |
| DevSessions.DevServer.PruneCancellations | src/remote_runner/_internal/dev_execution.py:955-967 | the loop removes exactly the expired markers and counts the rest |
| DevSessions.DevServer.RecordCancellation | src/remote_runner/_internal/dev_execution.py:970-1000 | recording prunes first, keeps a marker of the same token, and refuses a foreign token or a full directory |
| DevSessions.DevServer.CleanupStale | src/remote_runner/_internal/dev_execution.py:1090-1135 | the sweep removes exactly the whole, old sessions without a live or odd process |
| DevSessions.DevServer.ActionCreate | src/remote_runner/_internal/dev_execution.py:1195-1283 | create in place equals its specification: refused by a marker, swept, then materialized, undone or left half-made |
| DevSessions.DevServer.ActionCleanup | src/remote_runner/_internal/dev_execution.py:1286-1375 | cleanup and cancel in place equal their specification |
| DevSessions.VerifiedCleanupLeavesNothing | src/remote_runner/_internal/dev_execution.py:1690-1713 | in whatever order and however late the server serves the one create and the client's cleanup, a verified cleanup leaves no session directory, unless a recording prunes the expired marker before the create |
| DevSessions.NeverMaterializes | src/remote_runner/_internal/dev_execution.py:1003-1015 | an absent session with a marker is never materialized, however late a create comes, unless a recording prunes the expired marker before it |
| DevSessions.SessionsAreLostOnlyToOwnerOrAge | src/remote_runner/_internal/dev_execution.py:1195-1375 | over any actions a session directory is lost or changed only by a cleanup with its own token that found no live workload or cancelled it, or by the sweep of old idle sessions |
| DevSessions.MarkersOnlyExpire | src/remote_runner/_internal/dev_execution.py:955-1000 | over any actions a cancellation marker disappears or changes only when a recording comes after its lifetime |
| DevSessions.LateCreateExactly | src/remote_runner/_internal/dev_execution.py:955-1015 | after a verified cleanup and any actions of anybody, a late create that would otherwise succeed leaves a directory if and only if a recording dropped the expired marker and none after it left a new one |
| DevSessions.MarkerGoneExactly | src/remote_runner/_internal/dev_execution.py:955-1000 | over any actions a marker is gone if and only if a recording dropped it after its lifetime and none after that left a new one |
| DevSessions.LateCreateAfterPruning | src/remote_runner/_internal/dev_execution.py:955-967 | beyond the lifetime of the marker a pruned marker lets a late create through |

## Left out

- SingleDispatch.DispatchOnceRefinesThePlan: covers the selection; marking and launching the selected job are the protocol's steps.
- LaterSubmissions.TwoLanesCanBeDisturbed: a concrete queue; the exact condition for every queue is PrefixStabilityExactly.
- DispatchTiming.CapacityIsSafeExactlyWhenSharedLeasesOutlastLag: jobs, their eligible servers, cores and lease times are constant, and work of other projects only shrinks after the start.
- Placement.ProbeServer: a machine that cannot be identified, a missing or different fingerprint and a malformed probe answer fail before this point; they are machines outside the snapshot here.
- LeaseBoard.ReserveAll: the thread pool runs reservations one after another here; interference by other dispatchers stands for the rest. An earlier reservation may have lost its lease to others by the time the last one is made.
- LeaseBoard.Board.Reserve: a probe that fails with anything but a runtime error propagates in the code and leaves the lease behind; only runtime errors are modelled. Leasing a machine and probing it under the lease are one operation, so a probe that outlasts its lease is not modelled.
- BoardSteps.MarkIsAStep: what the board does between its operations, registration and the remote side are steps of the protocol alone.
- RunConclusions.ConcludableByWritersExactly: closing a run of a decommissioned server is refused for runs with a configured archive, and is no writer here.
- LeaseBoard.ReconcileDispatching: stated without interference, since others could add dispatching rows for ever; recovery among others is part of the protocol.
- RecordTheorems.ArchivalIsCrashSafe: sync stays configured throughout, and records are not purged.
- Monitoring.TerminalWritesAreJustified: JSON decoding is a parameter, and start and finish times that are not text are read as absent.
- BatchProbe.BatchAgreesWithSingle: status records are single lines; strict and replacing decoding are parameters, of which only their agreement on decodable bytes is used.
- OutputPrune.PassSparesOthers: nobody else writes during the pass; symbolic links, and one machine under unrelated server and SSH names, are outside the path comparison and outside the model.
- DevSessions.VerifiedCleanupLeavesNothing: malformed entries in the cancellation directory and reuse of a session id by a second client are not modelled.
- Negative or non-finite loads, machine aliases and fingerprints, and maintenance leases.
- SSH, tmux, git, rsync, YAML, hashing and field validation: results of calls appear as parameters of the shape the callers check.
- Purging, retirement, decommissioning, legacy records and their migration.
- Wait and back-off messages, progress and failure classification, the dashboard, the command line, and the choice of source files for development sessions.
