# A verified model of the MediaPipe framework's scheduler and streams

This project models the dataflow runtime under `mediapipe/framework` in Dafny and proves what its
documentation promises: that what a calculator sees does not depend on timing,
that no wakeup is lost, that work is neither lost nor done twice, and that the static analysis of a
graph means what it says.

## How it is built

A lock region of the source is one function on a value (`Streams.AddPackets`,
`CalculatorNodes.EndScheduling`, `SchedulerQueues.Collect`, ...), and one method of a class with the
source's fields that is proved to do exactly that. The functions then serve as the steps of state
machines in which threads interleave freely. Counters say what a thread between two lock regions still
owes: a readiness check, a callback, a task to submit. A run is a sequence of states and steps, and
the main results speak about every state of every run.

| part | modules |
|---|---|
| timestamps and single streams | `Timestamps`, `Streams`, `InputStreams`, `StreamRuns` |
| input synchronisation | `SyncSets`, `Merging`, `ScheduleIndependence`, `ConsumerProgress` |
| output streams | `OutputStreams`, `OutputStreamObjects`, `OutputRuns`, `OutputHistories`, `ParallelOutputs`, `ParallelOutputObjects` |
| node scheduling | `CalculatorNodes`, `CalculatorNodeObjects`, `NodeScheduling`, `SourceScheduling`, `ThrottledSources` |
| opening nodes | `NodeOpening`, `NodeOpeningObjects` |
| queues and scheduler | `SchedulerItems`, `SchedulerQueues`, `SchedulerQueueObjects`, `QueueRuns`, `Schedulers`, `SchedulerObjects`, `SchedulerRuns`, `EarlyTerminations` |
| throttling | `Throttling`, `ThrottlingObjects`, `GraphThrottling` |
| packet generators | `Generators`, `GeneratorClashes`, `GeneratorGraphs` |
| whole graphs | `GraphDeterminism` |
| static analysis | `PacketTypes`, `PacketTypeObjects`, `GraphConfigs`, `GraphConfigObjects` |
| common notions | `Options`, `FiniteSets` |

`dafny verify dfyconfig.toml` checks everything.

## Where the code and its documentation part

- `mediapipe/framework/timestamp.cc:135-142`: the predecessor of PostStream is Unstarted, although all
  range values lie below it. `Timestamps.PreviousSettlesUnlessPostStream` shows that this is the only
  bound for which the predecessor does not say what is settled; `SyncSet::GetReadiness` treats it apart.
- `mediapipe/framework/scheduler_queue.h:85-94` promises that a "became idle" report never precedes its
  "became active". `QueueRuns.RunningQueueReportsInOrder` proves this while a queue stays running;
  `QueueRuns.PauseCanReorderReports` gives a run with a pause in which it fails; and
  `QueueRuns.ReportsStayInOrderIffGuarded` says exactly which steps are guarded so that it goes on to hold.
- `mediapipe/framework/scheduler_queue.h:92-94` says that once the difference of the reports is zero the
  queue is idle, and `mediapipe/framework/scheduler.cc:119-140` terminates a run on that ground. Two
  runs show that it need not be. Without any pause an item may have been added whose adder has not reported
  yet (`QueueRuns.ZeroCanComeTooEarly`, `EarlyTerminations.TerminationCanComeTooEarly`). And after a pause
  the early "became idle" of one queue may cancel the "became active" of another one, so that a task of a
  queue about which nobody owes a report is still running (`EarlyTerminations.PauseCanHideTask`).
  `SchedulerRuns.ZeroCountMeansIdleIff` and `SchedulerRuns.TerminatedMeansIdleIff` say for every run that
  all queues are idle exactly if nobody owes a report "became active". In runs whose every step is guarded
  each queue can be judged by itself (`SchedulerRuns.TerminatedMeansIdle`), and
  `SchedulerRuns.QuietRunIsGuarded` gives a condition under which runs are.
- `mediapipe/framework/output_stream_handler.h:157-187` lists eight transitions of the propagation state. The
  code makes a ninth, from pending back to the bound: `ParallelOutputs.NinthTransition`, and exactly when:
  `ParallelOutputs.TransitionIsDocumentedIff`.
- `mediapipe/framework/packet_generator_graph.cc:235-243` checks whether a packet gets defined twice. No
  execution that `Initialize` or `RunGraphSetup` starts meets this error, because
  `mediapipe/framework/validated_graph_config.h:454-465` has refused such packets before:
  `GeneratorGraphs.AcceptableNeverClashes`. `GeneratorClashes` says what executions would do otherwise.
- `mediapipe/framework/input_stream_manager.h:78-79` promises a notification whenever adding packets makes
  the queue non-empty. After an unacceptable packet (`mediapipe/framework/input_stream_manager.cc:110-180`)
  the earlier packets of the batch stay, but neither the notification nor the fullness callback follows.
  `StreamRuns.NotificationIsLostIff` and `StreamRuns.FullReportIsLostIff` say exactly when (never for a
  single packet); `StreamRuns.RefusedBatchIsSilent` gives a batch, and
  `NodeScheduling.RefusedBatchLosesWakeup` what it does to its reader. The state machines of scheduling
  and throttling take every update but these.

## Where to start

Streams give `StreamRuns.EveryRun`; input synchronisation gives
`ScheduleIndependence.DeliveryIsPrefixOfMerge` against the merge-join of `Merging`, which is itself
characterised by `Merging.JoinIsUnique`; together with the outputs of the calculators
this gives `GraphDeterminism.GraphIsDeterministic`; calculators that run in parallel have
`ParallelOutputs.SentInOrder` and `ParallelOutputs.NothingIsStranded`; scheduling gives `NodeScheduling.NoLostWakeup` and
`NodeScheduling.OnlyInputIsMissing`; the scheduler gives `SchedulerRuns.TerminatedMeansIdleIff`; throttling
gives `GraphThrottling.ThrottlingFollowsDependence` and `Throttling.UnthrottlingIsComplete`; generators give
`Generators.ExecutionIsLeastSolution` and `GeneratorClashes.TwoPhasesSucceedAsOne`.

## Model

| member | source | states |
|---|---|---|
| Timestamps.Plus | mediapipe/framework/timestamp.cc:45-61 | adding any 64-bit offset to any range timestamp clamps the exact sum to the range; the verifier shows that no intermediate value leaves 64 bits |
| Timestamps.NextAllowedInStream | mediapipe/framework/timestamp.cc:124-133 | the successor is strictly later for every timestamp a packet may carry, and after PreStream nothing is allowed any more |
| Timestamps.PreviousAllowedInStream | mediapipe/framework/timestamp.cc:135-142 | the predecessor of a bound is strictly earlier, and its successor is the bound again on the range |
| Timestamps.NextIsLeastFollower | mediapipe/framework/timestamp.cc:124-133 | for every t, "p is later than t iff p is at least the successor" holds for all range values p exactly if t is not PreStream |
| Timestamps.PreviousSettlesUnlessPostStream | mediapipe/framework/timestamp.cc:135-142 | for every bound b, "p is below b iff p is at most the predecessor" holds for all range values p exactly if b is not PostStream |
| Timestamps.NextAndPreviousAreInverse | mediapipe/framework/timestamp.cc:124-142 | exactly for which timestamps the two undo each other, in both orders |
| Timestamps.PlusUndoneIffUnclamped | mediapipe/framework/timestamp.cc:45-61 | an offset is undone by its negation exactly if the exact sum was not clamped |
| InputStreams.InputStreamManager.constructor | mediapipe/framework/input_stream_manager.cc:49-58 | a new stream is empty and open and has no maximum size |
| InputStreams.InputStreamManager.PrepareForRun | mediapipe/framework/input_stream_manager.cc:49-58 | everything but the maximum size starts anew |
| InputStreams.InputStreamManager.AddPackets | mediapipe/framework/input_stream_manager.cc:94-181 | the loop takes packets up to the first unacceptable one; what it leaves, whether it notifies and whether it reports fullness equals the function Streams.AddPackets |
| InputStreams.InputStreamManager.SetNextTimestampBound | mediapipe/framework/input_stream_manager.cc:183-217 | a bound never moves back; it notifies exactly if it moves while the queue is empty |
| InputStreams.InputStreamManager.Close | mediapipe/framework/input_stream_manager.cc:221-229 | closing sets the bound to Done and leaves the queue alone |
| InputStreams.InputStreamManager.TakeLeading | mediapipe/framework/input_stream_manager.cc:269-280 | the loop removes exactly the leading packets up to the timestamp and keeps the last of them |
| InputStreams.InputStreamManager.PopPacketAtTimestamp | mediapipe/framework/input_stream_manager.cc:244-299 | packet, count of dropped packets, end of stream, new queue and bound, and the owed callback |
| InputStreams.InputStreamManager.SetMaxQueueSize | mediapipe/framework/input_stream_manager.cc:349-372 | which callback a change of the maximum owes |
| StreamRuns.PopIsExact | mediapipe/framework/input_stream_manager.cc:244-299 | popping at T returns the packet at T if it is queued, leaves exactly the later packets in order, and counts exactly the earlier ones as dropped |
| StreamRuns.StepNeverGoesBack | mediapipe/framework/input_stream_manager.cc:94-299 | no operation moves the earliest possible next packet back |
| StreamRuns.EveryRun | mediapipe/framework/input_stream_manager.cc:94-299 | in every run of a stream the accepted packets strictly increase, a PreStream or PostStream packet is the only one, the queue is the unread end of them below the bound, and every packet is queued, returned or counted as dropped |
| StreamRuns.NotificationIsLostIff | mediapipe/framework/input_stream_manager.h:78-79 | the promised notification is missing exactly if a batch added to an empty open stream is refused after some of its packets were taken |
| StreamRuns.FullReportIsLostIff | mediapipe/framework/input_stream_manager.cc:110-181 | the fullness report is missing exactly if a batch is refused after the packets taken have filled a queue that was not full |
| StreamRuns.RefusedBatchIsSilent | mediapipe/framework/input_stream_manager.cc:110-180 | a two-packet batch that loses both |
| SyncSets.SyncSet.constructor | mediapipe/framework/input_stream_handler.cc:336-341 | a sync set starts with nothing processed |
| SyncSets.SyncSet.GetReadiness | mediapipe/framework/input_stream_handler.cc:343-388 | the loop over the streams computes the two minima; the answer, the reported timestamp and the last processed timestamp follow from them |
| SyncSets.SyncSet.FillInputSet | mediapipe/framework/input_stream_handler.cc:405-421 | every stream is popped once at the input timestamp, with nothing dropped |
| SyncSets.DecisionIsSettled | mediapipe/framework/input_stream_handler.cc:343-388 | a timestamp chosen for processing may be carried by packets, is not later than any packet seen, lies below every bound seen, and is later than the last one when bounds are processed |
| Merging.JoinIsUnique | mediapipe/framework/input_stream_handler.cc:343-421 | four plain facts about a sequence of input sets determine it: it is the merge-join of the histories |
| Merging.MergeIsJoin | mediapipe/framework/input_stream_handler.cc:343-421 | the reference merge of strictly increasing histories has those four properties |
| ScheduleIndependence.StepKeepsInv | mediapipe/framework/input_stream_handler.cc:147-225 | every step of producers and consumer keeps the invariant, and no producer is refused and no packet dropped |
| ScheduleIndependence.DeliveryIsPrefixOfMerge | mediapipe/framework/input_stream_handler.cc:343-421 | schedule independence: at every point of every interleaving the delivered sets are a prefix of the merge of the complete histories, and all of it once the node is told to close |
| ScheduleIndependence.CompleteRunsAgree | mediapipe/framework/input_stream_handler.cc:363-386 | two complete runs over the same histories, under any interleavings and either setting of processing bounds, deliver the same packets at the same times |
| ScheduleIndependence.FillingTimeIsSettled | mediapipe/framework/input_stream_handler.cc:405-421 | while a set is filled no stream can still receive a packet at or before its time, except the one it is about to give |
| ScheduleIndependence.FinishedProducersNeverStall | mediapipe/framework/input_stream_handler.cc:343-388 | once all producers are done, reading all streams never answers "not ready" |
| ConsumerProgress.ClosingComesNearer | mediapipe/framework/input_stream_handler.cc:147-225 | once all producers are done, in every continuation of every run each step of the consumer lowers a measure of the unread packets and of where it stands, and no step of a producer raises it |
| ConsumerProgress.ClosingIsReached | mediapipe/framework/input_stream_handler.cc:147-225 | so the node is told to close after at most two rounds more than there are unread packets, and until then the consumer has a step to take |
| CalculatorNodeObjects.CalculatorNode.CheckIfBecameReady | mediapipe/framework/calculator_node.cc:723-743 | the section under the status mutex: new state and whether the thread schedules |
| CalculatorNodeObjects.CalculatorNode.EndScheduling | mediapipe/framework/calculator_node.cc:756-777 | a slot is given back unless the node is closed; a scheduling thread is told to go round again |
| CalculatorNodeObjects.CalculatorNode.EnterLoop | mediapipe/framework/calculator_node.cc:653-662 | the loop is left at once if the node is closed; otherwise the allowance is the number of free slots |
| CalculatorNodeObjects.CalculatorNode.LeaveLoop | mediapipe/framework/calculator_node.cc:674-685 | the loop goes round again exactly if it was asked to and a slot is free |
| CalculatorNodeObjects.CalculatorNode.TryToBeginScheduling | mediapipe/framework/calculator_node.cc:779-786 | a slot is taken exactly if one is free |
| CalculatorNodeObjects.CalculatorNode.ActivateNode | mediapipe/framework/calculator_node.cc:540-544 | an opened source becomes active |
| NodeScheduling.SilentUpdateShowsNothing | mediapipe/framework/input_stream_manager.cc:94-217 | an update that does not notify changes what a reader can see exactly if it is a batch refused after it made the queue non-empty; no successful update is one |
| NodeScheduling.RefusedBatchLosesWakeup | mediapipe/framework/input_stream_manager.h:78-79 | such a batch makes an idle node ready, with a slot free and no check owed by anybody |
| NodeScheduling.StepKeepsInv | mediapipe/framework/calculator_node.cc:653-786 | every critical section of producers, executor and scheduling threads keeps the invariant and passes the checks of the code |
| NodeScheduling.NoLostWakeup | mediapipe/framework/calculator_node.cc:723-786 | in every reachable state, an open idle node whose streams are ready has all slots in use or is owed a check; one ready to close is being closed or some thread will see to it |
| NodeScheduling.OnlyInputIsMissing | mediapipe/framework/calculator_node.cc:653-786 | an open node for which no thread has anything left to do is not ready |
| NodeScheduling.SchedulingIsExclusive | mediapipe/framework/calculator_node.cc:653-786 | at most one thread is in the loop; slots in use and unspent allowance never exceed the maximum; a prepared invocation is never refused |
| NodeScheduling.NothingAfterClosing | mediapipe/framework/input_stream_handler.cc:201-222 | once the closing invocation is committed, for any maximum in flight, nothing else is ever committed or started, and its slot is never given back |
| SourceScheduling.StepKeepsInv | mediapipe/framework/calculator_node.cc:653-786 | the same for a source node with one slot, whose loop proposes an invocation each round |
| SourceScheduling.OneAtATime | mediapipe/framework/scheduler_queue.cc:110-124 | whatever threads propose a source, one invocation is queued, running or ending at a time |
| SourceScheduling.UnthrottledSourceGoesOn | mediapipe/framework/scheduler.cc:334-358 | for any throttling: an active source that is not throttled is queued or running, or some thread will yet propose it |
| ThrottledSources.StepKeepsInv | mediapipe/framework/calculator_graph.cc:1114-1192 | a source together with the table of full streams: the source is throttled exactly if the table says so, and a callback that empties its set proposes it |
| ThrottledSources.SourceGoesOn | mediapipe/framework/calculator_graph.cc:1114-1192 | an active source is queued or running or will yet be proposed, unless a stream that it feeds is full or is owed the callback that it is not |
| SourceScheduling.NothingAfterClosing | mediapipe/framework/calculator_node.cc:756-777 | a closed source keeps its slot for the rest of the run, so that no later proposal is ever queued or started |
| SchedulerItems.RunsAfterIsPriority | mediapipe/framework/scheduler_queue.cc:61-87 | the comparison is exactly the documented priority, stated as one lexicographic key |
| SchedulerItems.RunsAfterIsStrictWeakOrder | mediapipe/framework/scheduler_queue.cc:61-87 | it is a strict weak order, and two items tie exactly if their keys are equal |
| SchedulerItems.TopExists | mediapipe/framework/scheduler_queue.cc:188-205 | a queue that is not empty has an item to hand out |
| SchedulerItems.SourcesRunLast | mediapipe/framework/scheduler_queue.h:61-67 | what the item handed out says about all others that wait |
| SchedulerQueueObjects.SchedulerQueue.constructor | mediapipe/framework/scheduler_queue.h:157-166 | a queue starts empty and not running |
| SchedulerQueueObjects.SchedulerQueue.Reset | mediapipe/framework/scheduler_queue.cc:89-94 | the three counters start anew and the items stay |
| SchedulerQueueObjects.SchedulerQueue.SetRunning | mediapipe/framework/scheduler_queue.cc:104-108 | the running count moves by one |
| SchedulerQueueObjects.SchedulerQueue.GetTasksToSubmitToExecutor | mediapipe/framework/scheduler_queue.cc:164-169 | waiting tasks become pending ones |
| SchedulerQueueObjects.SchedulerQueue.AddItem | mediapipe/framework/scheduler_queue.cc:133-147 | the locked part of adding an item |
| SchedulerQueueObjects.SchedulerQueue.CollectWaitingTasks | mediapipe/framework/scheduler_queue.cc:171-181 | the locked part of submitting waiting tasks |
| SchedulerQueueObjects.SchedulerQueue.TakeNext | mediapipe/framework/scheduler_queue.cc:188-205 | a top item leaves the queue |
| SchedulerQueueObjects.SchedulerQueue.EndTask | mediapipe/framework/scheduler_queue.cc:222-227 | a pending task ends; whether the queue is idle now |
| SchedulerQueueObjects.SchedulerQueue.CleanupAfterRun | mediapipe/framework/scheduler_queue.cc:297-313 | the queue is emptied; whether it was idle |
| QueueRuns.TasksAreAccountedFor | mediapipe/framework/scheduler_queue.cc:133-232 | in every run with any pauses and resumes, queued items and running tasks equal tasks to add and pending tasks, and the net of reports equals the idle state corrected by what is owed |
| QueueRuns.NoTaskFindsTheQueueEmpty | mediapipe/framework/scheduler_queue.cc:188-313 | no step of any run fails a check: a task never finds the queue empty and the equality check of the cleanup holds |
| QueueRuns.RunningQueueReportsInOrder | mediapipe/framework/scheduler_queue.cc:133-232 | while a queue stays running, the net of "became active" and "became idle" is never negative, and zero with nothing owed means idle |
| QueueRuns.ReportsStayInOrderIffGuarded | mediapipe/framework/scheduler_queue.h:85-94 | across pauses the documented order of reports is kept by all guarded continuations of a step exactly if the step itself is guarded: whoever collects waiting tasks finds no thread whose waiting item is not yet reported, and nobody owes a report at cleanup |
| QueueRuns.PauseCanReorderReports | mediapipe/framework/scheduler_queue.cc:133-186 | a run with a pause in which "became idle" comes before its "became active" |
| QueueRuns.NetTellsIdle | mediapipe/framework/scheduler_queue.h:92-94 | under the same guard, a difference of zero means that no "became idle" is owed and that the queue is idle exactly if no "became active" is |
| QueueRuns.ZeroCanComeTooEarly | mediapipe/framework/scheduler_queue.h:92-94 | a run without pauses in which the difference reaches zero while the queue holds an item |
| SchedulerObjects.Scheduler.constructor | mediapipe/framework/scheduler.cc:38-45 | a scheduler starts idle and not started |
| SchedulerObjects.Scheduler.Reset | mediapipe/framework/scheduler.cc:61-75 | a run is prepared: the flags and the throttled count, and the counters of every queue |
| SchedulerObjects.Scheduler.SetQueuesRunning | mediapipe/framework/scheduler.cc:105-109 | the loop moves every queue's running count once |
| SchedulerObjects.Scheduler.SubmitWaitingTasksOnQueues | mediapipe/framework/scheduler.cc:111-115 | the loop collects the waiting tasks of every queue once |
| SchedulerObjects.Scheduler.Start | mediapipe/framework/scheduler.cc:196-206 | the run is started, every queue switched accordingly and the idle handler entered |
| SchedulerObjects.Scheduler.Pause | mediapipe/framework/scheduler.cc:473-480 | only a running run is paused |
| SchedulerObjects.Scheduler.Resume | mediapipe/framework/scheduler.cc:482-493 | only a paused run is resumed, its queues switched and the idle handler entered |
| SchedulerObjects.Scheduler.Cancel | mediapipe/framework/scheduler.cc:497-511 | only a running or paused run is cancelled: its error is recorded, its queues run until they are exhausted, and the idle handler is entered |
| SchedulerObjects.Scheduler.ClosedAllGraphInputStreams | mediapipe/framework/scheduler.cc:323-328 | the graph inputs are closed and the idle handler entered |
| SchedulerObjects.Scheduler.Quit | mediapipe/framework/scheduler.cc:183-194 | the run is terminated and the queues stopped |
| SchedulerObjects.Scheduler.QueueIdleStateChanged | mediapipe/framework/scheduler.cc:456-471 | the count of active queues moves, and the idle handler is entered when it is zero |
| SchedulerObjects.Scheduler.EnterHandleIdle | mediapipe/framework/scheduler.cc:119-130 | only the first caller goes on |
| Schedulers.StepKeepsInv | mediapipe/framework/scheduler.cc:119-209 | every step of starting, pausing, resuming, cancelling, idle handling and source activation keeps the invariant |
| Schedulers.RunningCounts | mediapipe/framework/scheduler.cc:374-427 | each running count is one in a running or cancelling run and zero otherwise, less one during a source activation, and never above one |
| Schedulers.QuitsOnceWhenIdle | mediapipe/framework/scheduler.cc:119-194 | a run is terminated at most once, only with no queue active, and only after an error or when no packet source is left |
| Schedulers.CancelledRunGoesOn | mediapipe/framework/scheduler.cc:497-513 | a cancelled run is never left idle without the thread that ends it |
| SchedulerRuns.StepKeepsInv | mediapipe/framework/scheduler.cc:105-209 | scheduler and queues together, in every step: each queue's running count is the scheduler's, and the count of active queues is the sum of the net reports |
| SchedulerRuns.ZeroCountMeansIdleIff | mediapipe/framework/scheduler.cc:456-471 | in every run, when the count of active queues is zero, active queues and owed reports "became idle" are together as many as owed reports "became active"; all queues are idle and have said so exactly if nobody owes one |
| SchedulerRuns.TerminatedMeansIdleIff | mediapipe/framework/scheduler.cc:119-194 | the same at the step that terminates a run, in every run |
| SchedulerRuns.ZeroCountMeansIdle | mediapipe/framework/scheduler.cc:456-471 | in runs guarded at every step: when the count is zero, each queue by itself owes no "became idle" and is idle exactly if nobody owes its report "became active" |
| SchedulerRuns.TerminatedMeansIdle | mediapipe/framework/scheduler.cc:119-194 | in runs guarded at every step: the same for each queue when the run is terminated |
| SchedulerRuns.QuietRunIsGuarded | mediapipe/framework/scheduler.cc:105-109 | a run is guarded if no queue starts, resumes or is activated while the report of an item added to it is owed, and none is cleaned up while one is |
| SchedulerRuns.AddingWhileRunningIsGuarded | mediapipe/framework/scheduler_queue.cc:133-155 | in particular if items are added to running queues only and no queue is cleaned up |
| EarlyTerminations.TerminationCanComeTooEarly | mediapipe/framework/scheduler.cc:119-194 | one queue, no pause: a reachable state from which the run is terminated although its queue holds an item |
| EarlyTerminations.PauseCanHideTask | mediapipe/framework/scheduler.cc:473-493 | two queues and a pause: a reachable state from which the run is terminated although a task of one queue is running and nobody owes a report about that queue |
| Throttling.ReportsExactly | mediapipe/framework/input_stream_manager.cc:94-372 | the update of a stream owes a callback exactly if it changes whether the stream is full, except exactly for a batch that fills the queue and is then refused; no successful update is one |
| Throttling.ThrottlingIsExact | mediapipe/framework/calculator_graph.cc:1114-1187 | however callbacks are delayed and reordered, a stream stands in a node's set exactly if it was last seen full and the node feeds it; what was last seen differs from the truth only while a callback is owed; throttled graph inputs are counted right |
| Throttling.SettledThrottling | mediapipe/framework/calculator_graph.cc:1189-1192 | with no callback owed, a node is throttled exactly if the graph limits its queues and the node feeds a full stream |
| Throttling.UnthrottlingIsComplete | mediapipe/framework/calculator_graph.cc:1207-1245 | whatever callbacks are owed, breaking a deadlock leaves a source throttled exactly by graph outputs and by streams whose callback is on its way, and finds something to do exactly if a stream that is no graph output throttled a source |
| Throttling.RelievingIsTwoSteps | mediapipe/framework/calculator_graph.cc:1237-1238 | growing a stream by one packet is a change of its maximum and the callback it owes |
| Throttling.GrownStreamThrottlesNothing | mediapipe/framework/calculator_graph.cc:1228-1240 | with other threads acting between the reading of a stream's size and the raising of its maximum, the stream is not full from then on and throttles nothing once its callbacks have arrived, unless packets are added to it or it is resized |
| GraphThrottling.ConfigIsWellFormed | mediapipe/framework/calculator_graph.cc:1114-1130 | the lists of nodes that the analysis gives are proper ones: every node exists and stands in a list once |
| GraphThrottling.UpstreamIsSupply | mediapipe/framework/calculator_graph.cc:1114-1130 | the nodes a full stream throttles are exactly the graph input that it is, or the sources and graph inputs that its producer depends on |
| GraphThrottling.ThrottlingFollowsDependence | mediapipe/framework/calculator_graph.cc:1114-1192 | in every run of an analysed graph a stream throttles exactly the nodes that supply it when it was last seen full; with no callback owed, a node is throttled exactly if it supplies a full stream and the graph limits its queues |
| ThrottlingObjects.Throttle.constructor | mediapipe/framework/calculator_graph.cc:732-743 | a run starts with nothing throttled |
| ThrottlingObjects.Throttle.MarkNode | mediapipe/framework/calculator_graph.cc:1141-1176 | one round of the loop over the upstream nodes |
| ThrottlingObjects.Throttle.UpdateThrottledNodes | mediapipe/framework/calculator_graph.cc:1114-1187 | the whole callback, and exactly which active calculators it proposes |
| ThrottlingObjects.Throttle.IsNodeThrottled | mediapipe/framework/calculator_graph.cc:1189-1192 | a node is throttled if the graph limits its queues and a stream stands in the node's set |
| ThrottlingObjects.Throttle.FullStreams | mediapipe/framework/calculator_graph.cc:1214-1227 | the streams other than graph outputs that throttle something |
| ThrottlingObjects.Throttle.Relieve | mediapipe/framework/calculator_graph.cc:1237-1238 | one stream may grow by one packet, and the callback follows if it was full |
| ThrottlingObjects.Throttle.UnthrottleSources | mediapipe/framework/calculator_graph.cc:1207-1245 | every stream that throttles a source and is no graph output grows, each once and whatever callbacks are owed, or they are only reported |
| Generators.LeastSolutionIsUnique | mediapipe/framework/packet_generator_graph.cc:399-419 | there is one least set of packets closed under running generators |
| Generators.StepKeepsInv | mediapipe/framework/packet_generator_graph.cc:207-302 | every step of scanning, generating and publishing keeps the invariant |
| Generators.ExecutionIsLeastSolution | mediapipe/framework/packet_generator_graph.cc:207-419 | every task order ends with the least closed set of packets and with exactly the runnable generators run, each once |
| Generators.NothingDefinedTwice | mediapipe/framework/packet_generator_graph.cc:229-240 | no execution defines a side packet twice |
| Generators.SecondPhaseIsPrepared | mediapipe/framework/packet_generator_graph.cc:359-397 | what initialisation leaves, with further packets, is a proper start for a run |
| Generators.TwoPhasesAreOne | mediapipe/framework/packet_generator_graph.cc:359-419 | initialising with some packets and setting up a run with the others gives the same packets and runs the same generators as one execution on all |
| GeneratorGraphs.AcceptableNeverClashes | mediapipe/framework/validated_graph_config.h:454-465 | packets that pass the check of the graph clash with no generator, so that the error inside an execution is never met |
| GeneratorGraphs.AcceptableIsPrepared | mediapipe/framework/packet_generator_graph.cc:359-397 | and both phases are proper starts for an execution on any executor |
| GeneratorGraphs.GivenTwiceIff | mediapipe/framework/packet_generator_graph.cc:374-384 | of packets that pass the check, one is found to be given twice exactly if both phases were given it |
| GeneratorClashes.CleanIsEnough | mediapipe/framework/packet_generator_graph.cc:229-243 | for executions without that check: if no generator that declares a given name becomes runnable, no packet is defined twice |
| GeneratorClashes.ClashIsCertain | mediapipe/framework/packet_generator_graph.cc:229-243 | if one has become runnable in some order of tasks, it does in every order |
| GeneratorClashes.TwoPhasesSucceedAsOne | mediapipe/framework/packet_generator_graph.cc:359-397 | executing on some packets and then on what came of them and the others succeeds exactly if one execution on all of them does, with the same packets |
| GeneratorGraphs.GeneratorScheduler.constructor | mediapipe/framework/packet_generator_graph.cc:182-205 | nothing waits and there is no error |
| GeneratorGraphs.GeneratorScheduler.ScheduleAllRunnableGenerators | mediapipe/framework/packet_generator_graph.cc:253-302 | after the scan no runnable generator is unscheduled |
| GeneratorGraphs.GeneratorScheduler.GenerateAndScheduleNext | mediapipe/framework/packet_generator_graph.cc:207-251 | nothing happens after an error; otherwise one generator is run and its packets added, and either a name was defined before, which is certain to happen in every order of tasks, or all generators are scanned again |
| GeneratorGraphs.GeneratorScheduler.TwiceIffClashing | mediapipe/framework/packet_generator_graph.cc:229-241 | a generator finds one of its names defined exactly if a given packet has it |
| GeneratorGraphs.GeneratorScheduler.RunApplicationThreadTasks | mediapipe/framework/packet_generator_graph.cc:337-353 | the deque is emptied, after an error too, and this ends |
| GeneratorGraphs.GeneratorScheduler.GetNonScheduledGenerators | mediapipe/framework/packet_generator_graph.cc:316-330 | the error if there is one, or exactly the generators not scheduled |
| GeneratorGraphs.PacketGeneratorGraph.CanAcceptSidePackets | mediapipe/framework/validated_graph_config.h:454-465 | the loop finds a given packet that some node declares, if there is one |
| GeneratorGraphs.PacketGeneratorGraph.ExecuteGenerators | mediapipe/framework/packet_generator_graph.cc:399-419 | on the application thread: fails exactly if a generator that declares a given name is certain to become runnable; otherwise the least closed set, and exactly the generators that cannot run |
| GeneratorGraphs.PacketGeneratorGraph.Initialize | mediapipe/framework/packet_generator_graph.cc:359-369 | fails exactly if a packet is given that some node declares; otherwise the base packets are the least closed set, and exactly the generators that cannot run are left |
| GeneratorGraphs.PacketGeneratorGraph.RunGraphSetup | mediapipe/framework/packet_generator_graph.cc:371-397 | fails exactly if a packet is given twice or declared by some node, or if a required one is missing or one has a wrong type; otherwise the least closed set of base and given packets |
| PacketTypes.GetSameAs | mediapipe/framework/packet_type.cc:89-111 | following links ends, at a type that is no link |
| PacketTypes.RankDoesNotMatter | mediapipe/framework/packet_type.cc:89-111 | the measure that shows this has no influence on the result |
| PacketTypes.SetSameAs | mediapipe/framework/packet_type.cc:62-72 | the links stay an acyclic forest |
| PacketTypes.Perform | mediapipe/framework/packet_type.cc:52-72 | any setter keeps the forest, whatever its arguments |
| PacketTypes.SetSameAsRedirects | mediapipe/framework/packet_type.cc:62-72 | exactly which chains end elsewhere after one call, and where |
| PacketTypes.OnePassResolves | mediapipe/framework/validated_graph_config.cc:913-929 | after one pass over the edges in any order, both ends of each share a root or neither root accepts just anything; types are merged only along links and edges; a known type keeps its root |
| PacketTypes.ConsistencyMeansCommonPackets | mediapipe/framework/packet_type.cc:194-265 | consistency is symmetric and, for types that accept some packet, means that some packet is accepted by both |
| PacketTypeObjects.PacketTypeArena.GetSameAs | mediapipe/framework/packet_type.cc:89-111 | the method finds the root |
| PacketTypeObjects.PacketTypeArena.SetAny | mediapipe/framework/packet_type.cc:52-55 | the type accepts anything |
| PacketTypeObjects.PacketTypeArena.SetNone | mediapipe/framework/packet_type.cc:57-60 | the type accepts nothing |
| PacketTypeObjects.PacketTypeArena.SetSameAs | mediapipe/framework/packet_type.cc:62-72 | the method redirects to the root of the other type, or makes the type accept anything |
| PacketTypeObjects.PacketTypeArena.ResolveAnyTypes | mediapipe/framework/validated_graph_config.cc:913-929 | the loop resolves all connected edges in order |
| OutputStreamObjects.OutputStreamShard.Reset | mediapipe/framework/output_stream_shard.cc:155-160 | a shard starts at the manager's bound with nothing set |
| OutputStreamObjects.OutputStreamShard.SetNextTimestampBound | mediapipe/framework/output_stream_shard.cc:34-44 | only legal bounds are taken |
| OutputStreamObjects.OutputStreamShard.Close | mediapipe/framework/output_stream_shard.cc:46-50 | closing sets the bound to Done |
| OutputStreamObjects.OutputStreamShard.AddPacket | mediapipe/framework/output_stream_shard.cc:97-132 | which packets are refused; an empty packet only moves the bound |
| OutputStreamObjects.OutputStreamManager.constructor | mediapipe/framework/output_stream_manager.cc:32-45 | a manager starts open at PreStream |
| OutputStreamObjects.OutputStreamManager.ComputeOutputTimestampBound | mediapipe/framework/output_stream_manager.cc:100-161 | the bound from offset, shard and packets |
| OutputStreamObjects.OutputStreamManager.PropagateUpdatesToMirrors | mediapipe/framework/output_stream_manager.cc:164-207 | the loop gives every mirror the packets and then the bound unless the last packet implies it |
| OutputStreamObjects.OutputStreamManager.Close | mediapipe/framework/output_stream_manager.cc:47-59 | a stream is closed once, and its mirrors get the bound Done |
| OutputStreamObjects.OutputStreamManager.PropagateTo | mediapipe/framework/output_stream_manager.cc:184-203 | one mirror gets the packets and then the bound |
| OutputStreamObjects.OutputStreamManager.ResetShard | mediapipe/framework/output_stream_manager.cc:209-218 | the shard gets the manager's bound and closed state |
| OutputStreamObjects.OutputStreamHandler.PropagateOutput | mediapipe/framework/output_stream_handler.cc:150-167 | one stream after a returned call: bound, packets, and closing |
| OutputStreamObjects.OutputStreamHandler.PropagateAt | mediapipe/framework/output_stream_handler.cc:150-167 | one round of the loop leaves the other streams alone |
| OutputStreamObjects.OutputStreamHandler.PropagateOutputPackets | mediapipe/framework/output_stream_handler.cc:150-167 | the loop does this to every stream once |
| OutputStreamObjects.OutputStreamHandler.RaiseOutput | mediapipe/framework/output_stream_handler.cc:123-137 | an input bound raises an open stream with an offset, if it raises it at all |
| OutputStreamObjects.OutputStreamHandler.TryPropagateTimestampBound | mediapipe/framework/output_stream_handler.cc:123-137 | the loop does this to every stream once |
| OutputStreamObjects.OutputStreamHandler.CloseOutput | mediapipe/framework/output_stream_handler.cc:139-148 | closing a node sends what its last call wrote, if there are shards, then closes the stream |
| OutputStreamObjects.OutputStreamHandler.CloseAt | mediapipe/framework/output_stream_handler.cc:139-148 | one round of the loop leaves the other streams alone |
| OutputStreamObjects.OutputStreamHandler.Close | mediapipe/framework/output_stream_handler.cc:139-148 | the loop does this to every stream once, with shards or without |
| OutputRuns.CallKeepsMirrorsInStep | mediapipe/framework/output_stream_handler.cc:150-167 | for the objects: a returned call leaves the greater bound and every open mirror in step with it |
| OutputRuns.BoundAfterCall | mediapipe/framework/output_stream_manager.cc:100-161 | after every call of a sequential calculator the bound is the greater of what the shard and the input timestamp establish |
| OutputRuns.MirrorsAgree | mediapipe/framework/output_stream_manager.cc:164-207 | between propagations every open mirror holds the manager's bound and has accepted all packets sent in order, and no mirror ever refuses anything |
| OutputRuns.BoundNeverFalls | mediapipe/framework/output_stream_handler.cc:123-167 | the bound of a stream never falls |
| OutputRuns.StepKeepsInv | mediapipe/framework/output_stream_handler.cc:123-167 | calls, propagation mirror by mirror, offset bounds, closing and concurrent readers keep the invariant |
| OutputStreams.InputBoundNeverOutruns | mediapipe/framework/output_stream_manager.cc:120-145 | the bound derived from an offset is never beyond where the packet for any later input goes; exactly when it is the highest such bound |
| OutputStreams.WritingOutrunsIffClamped | mediapipe/framework/output_stream_manager.cc:120-160 | once the packet for an input is written, that for the next input may still be written exactly if the first was not clamped to an end of the range |
| OutputRuns.OffsetNeverOutrunsCalculator | mediapipe/framework/output_stream_handler.cc:123-167 | in every run of a calculator that writes at input time plus offset, no bound that is derived or propagated is beyond the packet still to be written |
| ParallelOutputs.StepKeepsInv | mediapipe/framework/stream_handler/in_order_output_stream_handler.cc:25-131 | every step of preparing, finishing and propagating parallel invocations keeps the invariant and passes the checks of the code |
| ParallelOutputs.SentInOrder | mediapipe/framework/stream_handler/in_order_output_stream_handler.h:29-31 | in whatever order parallel invocations finish, their outputs are sent in the order of their input timestamps, each once and only when it has finished, by one thread at a time |
| ParallelOutputs.NothingIsStranded | mediapipe/framework/output_stream_handler.h:157-187 | whenever no thread is in the loop, the first invocation whose outputs are not sent has not finished; and if there is none, readers can tell the bound of the inputs |
| ParallelOutputs.BoundNeverOutruns | mediapipe/framework/stream_handler/in_order_output_stream_handler.cc:92-131 | a bound that is announced is not beyond any invocation whose outputs are still to be sent |
| ParallelOutputs.TransitionIsDocumentedIff | mediapipe/framework/output_stream_handler.h:157-187 | the propagation state makes the eight documented transitions, and a ninth one exactly when the thread has sent a bound, is pending and finds no active invocation |
| ParallelOutputs.NinthTransition | mediapipe/framework/stream_handler/in_order_output_stream_handler.cc:112-116 | a run that makes the ninth |
| ParallelOutputObjects.InOrderOutputStreamHandler.constructor | mediapipe/framework/output_stream_handler.h:195 | nothing is being propagated |
| ParallelOutputObjects.InOrderOutputStreamHandler.PrepareForRun | mediapipe/framework/output_stream_handler.cc:48-51 | the guarded state starts anew |
| ParallelOutputObjects.InOrderOutputStreamHandler.PostProcess | mediapipe/framework/output_stream_handler.cc:102-112 | a finished invocation is noted; whether the thread enters the loop or the state becomes pending |
| ParallelOutputObjects.InOrderOutputStreamHandler.UpdateTaskTimestampBound | mediapipe/framework/output_stream_handler.cc:77-91 | the same for a bound that has risen |
| ParallelOutputObjects.InOrderOutputStreamHandler.Enter | mediapipe/framework/stream_handler/in_order_output_stream_handler.cc:25-43 | the first choice of the loop |
| ParallelOutputObjects.InOrderOutputStreamHandler.IsFrontDone | mediapipe/framework/stream_handler/in_order_output_stream_handler.cc:35-40 | whether the first active invocation is the first finished one |
| ParallelOutputObjects.InOrderOutputStreamHandler.EraseFirst | mediapipe/framework/stream_handler/in_order_output_stream_handler.cc:61 | the first finished timestamp is taken off |
| ParallelOutputObjects.InOrderOutputStreamHandler.FinishPackets | mediapipe/framework/stream_handler/in_order_output_stream_handler.cc:66-89 | the choice after outputs were sent |
| ParallelOutputObjects.InOrderOutputStreamHandler.FinishBound | mediapipe/framework/stream_handler/in_order_output_stream_handler.cc:99-108 | whether anything happened while a bound was sent |
| ParallelOutputObjects.InOrderOutputStreamHandler.Recheck | mediapipe/framework/stream_handler/in_order_output_stream_handler.cc:112-130 | the choice after a bound was sent and something happened |
| OutputHistories.SentIsEmitted | mediapipe/framework/output_stream_handler.cc:150-167 | nothing that a calculator writes is lost, doubled or reordered: what was sent and what the running call has in its shard is what it has written |
| OutputHistories.SentIsLegal | mediapipe/framework/output_stream_manager.cc:164-207 | in every run all packets sent are legal for one stream: strictly increasing, and one at PreStream or PostStream is the only one |
| GraphDeterminism.GraphIsDeterministic | mediapipe/framework/calculator_node.cc:278-294 | in every complete execution of an analysed graph of deterministic sequential calculators, under every interleaving, each stream's history is the one that a reference meaning computes from the graph inputs and the sources |
| GraphDeterminism.ExecutionsAgree | mediapipe/framework/calculator_node.cc:278-294 | two complete executions on the same inputs agree on every stream |
| GraphDeterminism.CallsArePrefix | mediapipe/framework/input_stream_handler.cc:343-421 | at every moment of an execution a node has been called with a prefix of the merge-join of these histories |
| GraphDeterminism.StreamsArePrefix | mediapipe/framework/output_stream_manager.cc:164-207 | and what the readers of a stream have been sent is a prefix of its history |
| GraphConfigs.InputsAreLinked | mediapipe/framework/validated_graph_config.cc:661-738 | after a successful initialisation each input is linked to the one producer of its name, and each that is not a back edge to a graph input or a strictly earlier calculator |
| GraphConfigs.InitializeSucceedsIff | mediapipe/framework/validated_graph_config.cc:362-385 | with a correct sorter, initialisation succeeds exactly if no stream is defined twice, every stream read is produced, and edges that are not back edges have no cycle |
| GraphConfigs.AncestorSourcesAreExact | mediapipe/framework/validated_graph_config.cc:1090-1132 | the source dependence of a node is exactly the sources and graph inputs that reach it by edges going from lower to higher nodes |
| GraphConfigObjects.ValidatedGraphConfig.AddOutputStream | mediapipe/framework/validated_graph_config.cc:643-659 | an output edge is added; fails exactly if its name is defined twice |
| GraphConfigObjects.ValidatedGraphConfig.AddOutputStreams | mediapipe/framework/validated_graph_config.cc:630-641 | several are added in order |
| GraphConfigObjects.ValidatedGraphConfig.AddInputStreamsForNode | mediapipe/framework/validated_graph_config.cc:661-738 | input edges with their links; what is missing asks for sorting, or fails |
| GraphConfigObjects.ValidatedGraphConfig.AddNode | mediapipe/framework/validated_graph_config.cc:617-623 | the inputs of a node come before its outputs |
| GraphConfigObjects.ValidatedGraphConfig.InitializeStreamInfo | mediapipe/framework/validated_graph_config.cc:598-628 | all edges of the graph; when it fails and when it needs sorting |
| GraphConfigObjects.ValidatedGraphConfig.FillUpstreamFieldForBackEdges | mediapipe/framework/validated_graph_config.cc:872-888 | back edges are linked; fails exactly if one has no producer |
| GraphConfigObjects.ValidatedGraphConfig.InputSources | mediapipe/framework/validated_graph_config.cc:1099-1127 | what the inputs of one node bring |
| GraphConfigObjects.ValidatedGraphConfig.ComputeSourceDependence | mediapipe/framework/validated_graph_config.cc:1090-1132 | the loops compute the source dependence |
| GraphConfigObjects.ValidatedGraphConfig.Initialize | mediapipe/framework/validated_graph_config.cc:361-385 | the passes together, with the sorter in between |
| NodeOpening.OpenedOnceWhenReady | mediapipe/framework/calculator_node.cc:688-721 | in every run a node is scheduled for open at most once and never too early, and exactly once when all headers and missing side packets have arrived and nothing is owed |
| NodeOpening.StepKeepsInv | mediapipe/framework/input_stream_handler.cc:98-110 | every arrival and callback keeps the invariant and passes the checks of the code |
| NodeOpeningObjects.InputSidePacketHandler.constructor | mediapipe/framework/input_side_packet_handler.cc:24-43 | the missing count is the number of empty slots |
| NodeOpeningObjects.InputSidePacketHandler.Set | mediapipe/framework/input_side_packet_handler.cc:58-81 | when a packet is taken, and that exactly the one filling the last slot reports readiness |
| NodeOpeningObjects.FilledCount | mediapipe/framework/input_side_packet_handler.cc:58-81 | the count is zero exactly if every slot is filled |
| NodeOpeningObjects.NodeReadiness.constructor | mediapipe/framework/calculator_node.cc:430-441 | a node that waits for nothing is ready from the start |
| NodeOpeningObjects.NodeReadiness.InputStreamHeadersReady | mediapipe/framework/calculator_node.cc:693-706 | headers are ready; whether the node may be opened |
| NodeOpeningObjects.NodeReadiness.InputSidePacketsReady | mediapipe/framework/calculator_node.cc:708-721 | side packets are ready; whether the node may be opened |

## Left out

- GraphConfigs.InitializeSucceedsIff: does not model side packets and generators, which the same passes check and the same sort orders; it is exact for graphs whose calculators exchange streams only.
- GraphConfigObjects.ValidatedGraphConfig.Initialize: likewise without the passes for side packets, and without the resolution of types between linking and source dependence, which `PacketTypes` models by itself.
- GraphConfigObjects.ValidatedGraphConfig.AddInputStreamsForNode: does not keep the lists of consumers of each output, which follow from the links.
- NodeScheduling.NoLostWakeup: and all that is proved about the runs of nodes and of throttling says nothing after a batch that loses its notification or report.
- ScheduleIndependence.DeliveryIsPrefixOfMerge: says nothing about runs in which a stream refuses a packet; none of its producers sends one.
- Node failures and type errors, which end a run; except where the scheduler's own handling of a recorded error is the subject.
- Packet contents are opaque values, and the type check of a stream is an arbitrary predicate on packets.
- The default input stream handler is one sync set over all streams of a node (`mediapipe/framework/stream_handler/default_input_stream_handler.cc:36-66`) and is modelled as that. Other input handlers, late preparation and streams with timestamps disabled are left out.
- Batches: input sets are scheduled one by one, with a batch size of 1.
- ParallelOutputs.SentInOrder: takes the sending of one invocation's outputs, and of one bound, as one step; how packets and bounds reach the mirrors is modelled for sequential calculators in `OutputRuns`. That preparation is ordered in time is what `ScheduleIndependence` shows of its one sync set. Whether the loop ends is left out.
- In `NodeScheduling`, a parallel invocation's context counts as active from its commitment until some point before its scheduling ends; `ParallelOutputs` follows contexts until they are recycled.
- A committed invocation counts as queued from the moment it gets its slot; the separate push into the queue only delays its start.
- Loops that release and retake a mutex (`SchedulingLoop`, `HandleIdle`, `RunNextTask`) are modelled as steps of a thread between critical sections, with one method for each section, because other threads act in between.
- Whether the idle handler's loop ends: it can spin while a source of a lower layer is not opened and graph inputs are open.
- Executors, thread pools, the application thread's task list and condition variables: a thread may take any step it owes at any time, and nothing says that it does.
- `std::priority_queue`, the topological sorter and hash sets are given by what they promise: a top item, a topological order or a cycle, some order of iteration.
- Packet types live in one arena and refer to each other by position instead of by address; narrowing "one of" types along edges is left out.
- The queue of an output stream's observers and pollers, graph services, profiling, status handlers and GPU support.
- GeneratorGraphs.PacketGeneratorGraph.ExecuteGenerators: generators that fail on their own, whose inputs or outputs have a wrong type, or that are not deterministic are left out. `Generators` models executions, on any executor, in which no generator declares a given name; those in which one does are modelled on the application thread only, and the graph's check excludes them.
- GeneratorGraphs.PacketGeneratorGraph.RunGraphSetup: the types that consumers ask of side packets are one arbitrary predicate, and which ones are required is a given set.
- GraphDeterminism.GraphIsDeterministic: says nothing about graphs with back edges or about executions that an error cuts short; sources enter with what they write, and that an execution completes is an assumption.
- Sources with more than one slot: `SourceScheduling` models sources that run one invocation at a time.
