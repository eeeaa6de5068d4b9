# Verification of the BDD execution coordinator and its timeline

A Dafny model of the stateful parts of `bdd_exec_ros2`, and proofs about them. `dafny verify dfyconfig.toml` checks
everything.

| Files | Component | Main results |
|---|---|---|
| `StatusMessages`, `History`, `HistoryLaws`, `Identity`, `RecordOrder`, `ActiveSets`, `Reporting` | the store's append-only, deduplicated history | what the messages say is recorded, each observation exactly once and nothing else, told from the fields alone; the dictionary-based store equals "first occurrence in the concatenation of all messages"; no assertion is lost; which assertions are active and which are discarded, exactly, from the messages alone |
| `Fanout`, `QueueLaws`, `TimelineStore` | client queues of capacity 32 and the browser's fold over messages; the store as a class | every client converges to the store in every interleaving, whatever overflow throws away; what a queue holds after a publication, in closed form |
| `TimelineView`, `ScenarioViews`, `Rendering`, `ViewLaws`, `Display` | the browser's scenarios, their intervals, lanes and markers | in every run a drained client's lanes hold a record of the store exactly once if its stamp is inside the scenario's interval, and else not at all; flags and what is drawn, exactly, from the messages; intervals, titles, verdicts and lane messages, read off the records |
| `ClockSync` | the setup wait on the simulation clock, with stale timer callbacks | each wait ends once, in one of the ways meant for it; stale timers are harmless |
| `PosePolling` | periodic polls with cancellation | one poll at a time; silence after cancel |
| `Lifecycle`, `StepEffects`, `EndEvents` | contexts, registrations, polling handles, goals, clock resets, in any number and any order | every retired context is settled exactly once and leaves nothing behind; exactly when the timer and the reset handlers retire a context; exactly how many end events it causes; resets touch only what they captured |
| `Coordinator`, `Progress`, `StartConditions`, `SetupFates`, `ResetLaws`, `LifeProjection`, `BddCoordNode` | the scheduler in simulation setup mode, cut at every await and between lock regions; the node as a class | mutual exclusion, first-in first-out conservation, no lost wake-up, exactly when a scenario starts, and when after clock progress; what a reset captures is retired by its handler; termination of the setup loop; it never stops short and its moves are bounded by its work; its runs are lifecycle runs |
| `SimScene` | batch and one-at-a-time spawning, pose lookup through an inverted index | both spawn paths agree exactly on consistent replies; the index equals direct lookup |
| `RmsWindow` | the sliding-window RMS force evaluator | the deque equals a filter over the whole history, and what it is for stamps in any order; the verdict exactly, over the force components |

The objects that the program updates in place are classes (`TimelineStore`, `ClientQueue`, `SimulationClockSync`,
`PosePollingHandle`, `BddCoordNode`, `RmsEvaluator`). Each of their methods is proved to take the abstract state to
what a specification function or step relation says, and the laws are proved of those. A protocol is a datatype of
steps with an enabling condition and an effect; a run is a sequence of states related by enabled steps, so a statement
about every run covers every interleaving of callbacks, tasks, timers and lock regions.

Results about the code that a reader may not expect:

- A discard is recorded once and never withdrawn, so an assertion can be active in the store and flagged as discarded.
  `Reporting.HistoryExactly` says exactly when, from the fluent entries of the messages alone: a record is active if and
  only if the latest entry of some (context, URI) pair reports it, and discarded if and only if some entry of a pair
  reported it and a later entry of the same pair did not. So an assertion that is omitted and reported again stays
  discarded, whatever comes in between (`Reporting.ReappearingStaysDiscarded`; `Display.ActiveYetDiscarded` has three
  concrete messages). So is one that two pairs share, when only one of them omits it; it is never missing at the other
  (`Display.SharedYetDiscarded` has two messages). For one message from any state of the store, see
  `Reporting.ReportedExactly`. What is not flagged is always active (`Display.FlagsExactly`).
- Not everything that is recorded is drawn. The browser leaves out the records stamped outside their scenario's interval,
  which runs from its first start record, or else its first record, to its last end record, or else the latest of the
  start, the last record and the latest status. `Display.HiddenExactly`: a stored record that is not a discard is in no
  lane if and only if its stamp is outside. `Display.RecordedAndHidden` is a run with an active assertion that no lane
  holds, because the scenario's end was stamped before it; `Display.AssertionsDrawn` says exactly when an assertion is
  drawn and whether with the ring of a discard.
- The repository's README says that clock progress is awaited after scene setup. Destroying the node closes the clock
  monitoring and releases a wait under way like a completed one. In every run a scenario is started after a forward jump
  since its scene was ready if and only if the monitoring was not closed during its own wait, before a jump and before the
  timeout (`StartConditions.ProgressUnlessClosed`); `StartConditions.StartsWithoutProgress` is a run from the initial
  state in which no jump is ever delivered and the scenario's context becomes active. What follows in the source, on the
  destroyed node, is the start event and the goal; that these do not raise is assumed, as for every start.
- The two spawn paths agree if and only if the batch reply answers each entry and its aggregate agrees with the
  entities (`SimScene.BatchRefinesSequential`).
- After `cancel` a poll can still deliver one callback: the one whose check has already passed
  (`PosePolling.QuietAfterCancel` counts it, `PosePolling.CallbackAfterCancel` is such a run).
- A context can cause two end events: the timer sends one when the pending end is due, and a rejection that finds the
  context live sends one without noting it. `EndEvents.EndEventsExactly`: in every run it causes at most one if and only
  if not both have happened; `EndEvents.TwoEndEvents` is a run with two.

Assumptions: context identifiers are fresh; the observation manager is an optional start time that is never unset, an
optional end time, the end times of its policies and an optional deadline of a pending end; no observation gives a context a start, an end or a pending end before its start event is out; a goal
gets at most one response; iteration over a Python set yields its elements in any order; the asyncio callbacks of the
timeline store do not interleave; creating a context and starting a scenario do not raise; the observation manager does not raise when a reset handler gives it the end event; context identifiers are not empty; a cancelled `rclpy` future
resumes its waiter without an exception.

## Model

| member | source | states |
|---|---|---|
| History.AddKeeps | bdd_exec_ros2/executables/web_visualizer.py:277-290 | recording keeps the sequence numbers 1..n, the key index, the active sets and the discard references sound; what was recorded stays; exactly the observation's key becomes known |
| History.AssertionBodiesAre | bdd_exec_ros2/executables/web_visualizer.py:172-199 | the recorded assertions of a fluent are exactly its timed trinaries inside the fluent's start/end window |
| History.StepKeeps | bdd_exec_ros2/executables/web_visualizer.py:172-220 | one fluent, or one group of plain observations, keeps the store's invariant and only extends history and index, in whatever order the discards come |
| History.StepCovers | bdd_exec_ros2/executables/web_visualizer.py:211-220 | across a fluent every stored assertion stays active or discarded: what leaves an active set gets a discard |
| HistoryLaws.IngestKeeps | bdd_exec_ros2/executables/web_visualizer.py:138-233 | one message keeps all invariants and the old history is a prefix of the new |
| HistoryLaws.ReachableInv | bdd_exec_ros2/executables/web_visualizer.py:106-119 | every history that any sequence of messages can produce satisfies the invariants |
| HistoryLaws.Conservation | bdd_exec_ros2/executables/web_visualizer.py:211-220 | every assertion ever stored is active or discarded; each discard names a strictly earlier assertion of its own context; no target is discarded twice |
| HistoryLaws.Deduplication | bdd_exec_ros2/executables/web_visualizer.py:277-290 | for every sequence of messages the records other than discards are the first occurrences, by key, in the concatenated observations; a key is known exactly when it was observed; what a key identifies is `Identity.SameKey` |
| Identity.SameKey | bdd_exec_ros2/executables/web_visualizer.py:143-260 | two observations have one key if and only if they are the same start or end of a context, the same event at the same time, the same trinary of the same clause, or discards of one record |
| Identity.RecordedExactly | bdd_exec_ros2/executables/web_visualizer.py:138-290 | after any sequence of messages an observation is recorded if and only if some message says it, and then exactly once; both sides read the fields of messages and records |
| Identity.RecordedWasSaid | bdd_exec_ros2/executables/web_visualizer.py:138-290 | every record but a discard holds, in all its fields, what some message says |
| Identity.EventRecorded | bdd_exec_ros2/executables/web_visualizer.py:152-160 | each listed event has exactly one record with its context, URI and stamp: two stamps of one URI are two records |
| Identity.BoundsRecorded | bdd_exec_ros2/executables/web_visualizer.py:143-233 | a start and an end that are set have exactly one record for each context and stamp |
| Identity.FluentRecorded | bdd_exec_ros2/executables/web_visualizer.py:172-209 | each stamped result of a fluent and each stamped assertion inside its bounds has exactly one record, under the fluent's URI or else its title |
| Identity.BehaviourRecorded | bdd_exec_ros2/executables/web_visualizer.py:163-170 | the same for the behaviour's result |
| RecordOrder.ScenarioInOrder | bdd_exec_ros2/executables/web_visualizer.py:141-233 | a scenario's start, events, behaviour, fluents with their discards, and end are appended in this order, and the discards carry the message's stamp |
| RecordOrder.MessageInOrder | bdd_exec_ros2/executables/web_visualizer.py:141-233 | a message appends scenario by scenario, and for each only what its status says and its discards |
| RecordOrder.RunsInOrder | bdd_exec_ros2/executables/web_visualizer.py:172-220 | the parts of a message, its fluents among them, append one after another |
| HistoryLaws.SeenIsABijection | bdd_exec_ros2/executables/web_visualizer.py:285-288 | records are numbered 1..n and the index pairs their keys with their ids one to one |
| ActiveSets.ListedActiveSets | bdd_exec_ros2/executables/web_visualizer.py:172-220 | after a message with distinct (context, fluent) pairs each listed active set is exactly the ids of the timed assertions inside the window |
| ActiveSets.UnlistedActiveSets | bdd_exec_ros2/executables/web_visualizer.py:211-220 | the other active sets are unchanged |
| ActiveSets.IngestTwice | bdd_exec_ros2/executables/web_visualizer.py:138-233 | ingesting the same message again adds no record and changes no active set |
| ActiveSets.DiscardsAfter | bdd_exec_ros2/executables/web_visualizer.py:211-219 | after a message a record is discarded if and only if it was before or it left the active set of a listed fluent |
| Reporting.ReportedExactly | bdd_exec_ros2/executables/web_visualizer.py:172-220 | after any message, listing a pair any number of times: a record is active if and only if its key stands at some pair, and discarded if and only if it was before or some entry omits it where it was standing; the right-hand sides speak of the store before and the message |
| Reporting.HistoryExactly | bdd_exec_ros2/executables/web_visualizer.py:172-220 | after any sequence of messages: active if and only if the latest entry of some pair reports the key, discarded if and only if an entry of a pair reported it and a later entry of that pair did not |
| Reporting.ReappearingStaysDiscarded | bdd_exec_ros2/executables/web_visualizer.py:211-220 | from any state and through any entries in between, an assertion that a pair reported and then omitted is discarded, also while it is active again, there or at another pair |
| Fanout.LoadHistory | bdd_exec_ros2/web/app.mjs:63-83 | the browser's record map filled from a history holds that history, in order |
| Fanout.WelcomeConverges | bdd_exec_ros2/executables/web_visualizer.py:121-133 | a new client's queue leads it to the store's records and snapshot |
| Fanout.PublishConverges | bdd_exec_ros2/executables/web_visualizer.py:298-305 | however full a queue was, after a publication it holds at most 32 messages and its client converges to the new history and snapshot |
| Fanout.NextKeepsGood | bdd_exec_ros2/executables/web_visualizer.py:121-305 | each ingest, join, leave and dequeue keeps the store's invariant and every client's convergence |
| Fanout.ClientsConverge | bdd_exec_ros2/executables/web_visualizer.py:298-305 | in every interleaving, folding the browser's `receive` over what a client consumed and what is still queued gives exactly the store's records, in order and without duplicates, and its snapshot |
| Fanout.RunReaches | bdd_exec_ros2/executables/web_visualizer.py:138-237 | the store's history in any run is one that its messages alone produce, so the laws of the history hold there |
| QueueLaws.IngestPublishes | bdd_exec_ros2/executables/web_visualizer.py:235-305 | a client gets the bare snapshot and each new record behind what it had, if these are at most 32 in all; else the full history followed by exactly the last (total - 1) mod 32 of them |
| QueueLaws.JoinWelcomes | bdd_exec_ros2/executables/web_visualizer.py:121-133 | a new client has the greeting and then the snapshot with the whole history to read, and no other queue changes |
| QueueLaws.HistoryComesFirst | bdd_exec_ros2/executables/web_visualizer.py:121-305 | in every run no client gets a record or a bare snapshot before a snapshot with history; at most the greeting comes earlier |
| QueueLaws.SetRecordExactly | bdd_exec_ros2/web/app.mjs:63-65 | setting a record replaces the one with its identifier in its place, or else comes last |
| TimelineStoreModel.TimelineStore.constructor | bdd_exec_ros2/executables/web_visualizer.py:109-119 | the empty store, in the initial state of the fan-out system |
| TimelineStoreModel.TimelineStore.AddClient | bdd_exec_ros2/executables/web_visualizer.py:121-133 | a fresh queue that holds the greeting and the full history; the system takes exactly the join step |
| TimelineStoreModel.TimelineStore.RemoveClient | bdd_exec_ros2/executables/web_visualizer.py:135-136 | the queue is gone, or nothing changes if it was not there |
| TimelineStoreModel.TimelineStore.Add | bdd_exec_ros2/executables/web_visualizer.py:277-290 | the fields change as the specification of recording says and the output list collects exactly the new records |
| TimelineStoreModel.TimelineStore.AddTrinary | bdd_exec_ros2/executables/web_visualizer.py:239-275 | nothing for an unset stamp; else recorded once, and the id under which the key is stored is returned |
| TimelineStoreModel.TimelineStore.IngestAssertion | bdd_exec_ros2/executables/web_visualizer.py:184-199 | a trinary before the start or after the end bound is skipped; any other is recorded and its id joins the current ones |
| TimelineStoreModel.TimelineStore.IngestAssertions | bdd_exec_ros2/executables/web_visualizer.py:182-199 | the loop records the assertions inside the window and returns exactly their ids |
| TimelineStoreModel.TimelineStore.IngestFluent | bdd_exec_ros2/executables/web_visualizer.py:172-220 | takes the history step of the fluent |
| TimelineStoreModel.TimelineStore.Discard | bdd_exec_ros2/executables/web_visualizer.py:211-219 | records one discard for each stale assertion, in some enumeration of the set |
| TimelineStoreModel.TimelineStore.IngestRecords | bdd_exec_ros2/executables/web_visualizer.py:140-233 | the nested loops take the history through the whole message; the new records are the appended ones |
| TimelineStoreModel.TimelineStore.PublishAll | bdd_exec_ros2/executables/web_visualizer.py:235-237 | every queue receives the bare snapshot and then each new record |
| TimelineStoreModel.TimelineStore.Publish | bdd_exec_ros2/executables/web_visualizer.py:298-305 | every queue gets the message, or is drained and gets the full history when it is full |
| TimelineStoreModel.TimelineStore.IngestStatus | bdd_exec_ros2/executables/web_visualizer.py:138-237 | the system takes exactly the ingest step, so all clients still converge |
| TimelineView.MaterializeExact | bdd_exec_ros2/web/timeline.mjs:5-18 | for distinct sequence numbers: every record that is not a discard, in sequence order, flagged exactly when it was already or a discard names it |
| TimelineView.MaterializeIdempotent | bdd_exec_ros2/web/timeline.mjs:5-18 | materializing twice is materializing once |
| TimelineView.BuildLanes | bdd_exec_ros2/web/timeline.mjs:109-157 | the loops build the scenario lane, the event lane and one lane for each clause, in order of first mention, with its first label, its records and its last reason |
| TimelineView.Clause | bdd_exec_ros2/web/timeline.mjs:127-139 | a clause's lane is found by its kind and URI, or else its label, and created empty under the given label when missing |
| TimelineView.DrawClause | bdd_exec_ros2/web/timeline.mjs:152-154 | a trinary goes to the lane of its clause, which is created when missing, and an assertion's reason becomes its message |
| TimelineView.EachRecordOnce | bdd_exec_ros2/web/timeline.mjs:109-157 | together the lanes hold every drawn record of the context exactly once |
| TimelineView.LanesPartition | bdd_exec_ros2/web/timeline.mjs:144-156 | the same for any distinct lanes that include every mentioned clause |
| TimelineView.LaneInOrder | bdd_exec_ros2/web/timeline.mjs:144-156 | a lane keeps sequence order and holds exactly the records of its slot |
| Display.FlagsExactly | bdd_exec_ros2/web/timeline.mjs:5-18 | in every run a drained client flags exactly the records that the store discarded, and every assertion it does not flag is active |
| Display.FlagsFromMessages | bdd_exec_ros2/web/timeline.mjs:5-18 | in every run, for every stored assertion: a drained client flags it as discarded if and only if a pair of the ingested messages reported and later omitted it, and it is active if and only if the latest entry of some pair reports it |
| Display.ActiveYetDiscarded | bdd_exec_ros2/executables/web_visualizer.py:211-220 | three concrete messages that reach an active and discarded assertion: it was missing and came back |
| Display.SharedYetDiscarded | bdd_exec_ros2/executables/web_visualizer.py:252-260 | two concrete messages that reach one, although no entry of its first pair omits it: a fluent without a URI shares its record |
| ScenarioViews.BuildScenarios | bdd_exec_ros2/web/timeline.mjs:28-65 | the loops list a scenario for each context in order of first mention, with its label, its records, its interval and its verdict; the stable sort leaves them in place |
| ScenarioViews.AddToGroup | bdd_exec_ros2/web/timeline.mjs:30-43 | a record joins its context's group, which is created when missing, and a start's or end's label becomes the group's; without a context it is passed over |
| ScenarioViews.SelectContext | bdd_exec_ros2/web/timeline.mjs:67-70 | the selection stays while its scenario is listed; else the first is taken, if any |
| ViewLaws.IntervalExactly | bdd_exec_ros2/web/timeline.mjs:49-57 | a scenario's interval opens at the first start, or else the first record, and closes at the last end, or else the latest of the opening, the last record and the latest status |
| ViewLaws.SpanExactly | bdd_exec_ros2/web/timeline.mjs:28-65 | each listed scenario has its context's records in order, that interval, its title, and whether it has ended and with which verdict |
| ViewLaws.SpansInOrder | bdd_exec_ros2/web/timeline.mjs:28-65 | each context with records is listed once, in the order of the first records |
| ViewLaws.SharesLane | bdd_exec_ros2/web/timeline.mjs:127-139 | two trinaries share a lane if and only if their kinds and their URIs, or else titles, are equal |
| ViewLaws.OrderExactly | bdd_exec_ros2/web/timeline.mjs:127-152 | lanes are in the order in which their clauses are first mentioned |
| ViewLaws.MentionsExactly | bdd_exec_ros2/web/timeline.mjs:141-152 | clauses are mentioned by the definitions in order, and then by the context's trinaries in order |
| ViewLaws.LaneTitle | bdd_exec_ros2/web/timeline.mjs:127-139 | a lane keeps the title of the first mention of its clause |
| ViewLaws.MessageExactly | bdd_exec_ros2/web/timeline.mjs:154-154 | a lane's message is the last reason that an assertion of its clause gives |
| ViewLaws.DefinedHaveLanes | bdd_exec_ros2/web/app.mjs:246-259 | the behaviour and every fluent that the latest status lists for the context have a lane, also without a record |
| Rendering.Render | bdd_exec_ros2/web/app.mjs:223-262 | the selected scenario and its lanes, built from its records inside its interval and the clauses that the latest status lists |
| Rendering.ContentsExactly | bdd_exec_ros2/web/app.mjs:299-343 | the lanes of materialized records hold each of the context's once; markers are for its events, its behaviour's trinaries and its assertions |
| Rendering.MaterializeAgain | bdd_exec_ros2/web/timeline.mjs:5-18 | the second materializing, of flagged records without discards, keeps their flags and order |
| Display.VisibleExactly | bdd_exec_ros2/web/app.mjs:240-245 | on any numbered history: a record reaches the lanes if and only if it is stored for the context, no discard, flagged as the store has it, and stamped inside the interval, which the store's records determine |
| Display.LanesOfDrained | bdd_exec_ros2/web/app.mjs:223-343 | in every run a drained client lists each context with records; its lanes hold a record exactly once if it is stored for the context, no discard, flagged as the store has it and stamped inside the interval, and else not at all, each lane in recording order; of these the events, the behaviour's trinaries and the assertions have a marker each |
| Display.AssertionsDrawn | bdd_exec_ros2/web/app.mjs:136-157 | in every run: an assertion is drawn if and only if it is stamped inside the interval, and with the ring of a discard if and only if a pair of the messages reported and later omitted it |
| Display.HiddenExactly | bdd_exec_ros2/web/app.mjs:240-245 | in every run: a stored record that is no discard is in no lane if and only if its stamp is outside the interval, and else in exactly one place |
| Display.RecordedAndHidden | bdd_exec_ros2/web/app.mjs:240-245 | a run whose store holds an active assertion that no lane of the drained client holds |
| Display.IngestPossible | bdd_exec_ros2/executables/web_visualizer.py:138-233 | the step relation of a message is never empty: every message can be ingested in every state |
| ClockSync.StepKeepsClock | bdd_exec_ros2/clock.py:37-95 | every operation and callback, stale or not, keeps: a current timer implies its current future; each created timer is current or destroyed exactly once; only the current wait is unfinished; a closed sync has no wait |
| ClockSync.ClockAlwaysOk | bdd_exec_ros2/clock.py:15-95 | the same in every run |
| ClockSync.FutureFinishesOnce | bdd_exec_ros2/clock.py:54-83 | a finished wait never changes; an unfinished one finishes exactly by a forward jump after its wait began, by its own current timer, or by being released |
| ClockSync.JumpReports | bdd_exec_ros2/clock.py:54-65 | while monitored, a jump back reports the time from which the clock jumped, and nothing else reports |
| ClockSync.OutcomeIsFinal | bdd_exec_ros2/clock.py:37-95 | over a whole run the outcome of a wait is final |
| ClockSync.StaleTimerIsHarmless | bdd_exec_ros2/clock.py:77-83 | a timer that is no longer current changes nothing when it fires |
| ClockSync.SimulationClockSync.PrepareWait | bdd_exec_ros2/clock.py:37-43 | refused when closed or when a wait is outstanding, else one new wait |
| ClockSync.SimulationClockSync.ClearWait | bdd_exec_ros2/clock.py:45-52 | destroys the current timer and cancels an unfinished wait |
| ClockSync.SimulationClockSync.OnJump | bdd_exec_ros2/clock.py:54-65 | a backward jump reports the time before it; a forward jump completes a wait that has begun |
| ClockSync.SimulationClockSync.WaitForProgress | bdd_exec_ros2/clock.py:67-89 | the refusals in the source's order, else a timer for the prepared wait |
| ClockSync.SimulationClockSync.OnTimeout | bdd_exec_ros2/clock.py:77-83 | times out the captured wait if it is unfinished |
| ClockSync.SimulationClockSync.Close | bdd_exec_ros2/clock.py:91-95 | unregisters and releases the wait |
| PosePolling.OnePollAtATime | bdd_exec_ros2/sim_interfaces.py:118-144 | in every run at most one poll is under way, the pending flag says exactly whether one is, and the timer is destroyed once by cancelling |
| PosePolling.QuietAfterCancel | bdd_exec_ros2/sim_interfaces.py:125-152 | after cancel no poll is scheduled; results and errors no longer change, but for the one callback whose check had passed |
| PosePolling.CallbackAfterCancel | bdd_exec_ros2/sim_interfaces.py:125-152 | a run in which the handle is cancelled between the check and the callback, which then delivers |
| PosePolling.PosePollingHandle.Start | bdd_exec_ros2/sim_interfaces.py:92-116 | the two refusals, else a handle whose first poll is scheduled at once |
| PosePolling.PosePollingHandle.Schedule | bdd_exec_ros2/sim_interfaces.py:118-123 | creates a task exactly when neither cancelled nor pending |
| PosePolling.PosePollingHandle.RunPoll | bdd_exec_ros2/sim_interfaces.py:125-144 | an uninterrupted poll delivers its result, or its error, exactly when not cancelled, and is then no longer pending |
| PosePolling.PosePollingHandle.CancelPolling | bdd_exec_ros2/sim_interfaces.py:146-152 | cancelling again has no effect |
| Lifecycle.StepKeepsLife | bdd_exec_ros2/executables/bdd_coordination_node.py:375-1081 | every step of launching, listening and cleaning up keeps the invariants on stages, registrations, polling handles, goals and reports |
| Lifecycle.LifeAlwaysOk | bdd_exec_ros2/executables/bdd_coordination_node.py:375-1081 | they hold in every reachable state, with any number of live contexts |
| Lifecycle.ResetAndResponse | bdd_exec_ros2/executables/bdd_coordination_node.py:390-426 | in any order of reset, handler, timer and goal response: an accepted goal of a context retired by a reset has exactly one cancel request and the context exactly one failure report; one retired by the timer has no report, and one cancel request exactly when its acceptance came too late |
| Lifecycle.LiveUntouched | bdd_exec_ros2/executables/bdd_coordination_node.py:390-426 | a live context has neither a cancelled goal nor a failure report |
| EndEvents.EndEventsExactly | bdd_exec_ros2/executables/bdd_coordination_node.py:933-943 | in every run a context has caused one end event if a rejection found it live, and one more if a timer callback found its pending end due; at most one if and only if not both happened |
| EndEvents.TwoEndEvents | bdd_exec_ros2/executables/bdd_coordination_node.py:1059-1073 | a run in which the timer announces the pending end and the rejection then sends a second end event |
| Lifecycle.EndEventsAccounted | bdd_exec_ros2/executables/bdd_coordination_node.py:933-943 | a rejection that finds the context live is recorded as a failed result, once, and the other end event is the timer's, marked on the context or its retirement |
| StepEffects.TimerExactly | bdd_exec_ros2/executables/bdd_coordination_node.py:923-969 | a timer callback retires a live context if and only if it is not from the future, has ended, and the present has reached all of its policies' ends, or its own without any; a due end event is sent and marked once, before the context can go |
| StepEffects.TimerKeepsRest | bdd_exec_ros2/executables/bdd_coordination_node.py:923-969 | of every other context it changes nothing but that mark and that count |
| StepEffects.ResetExactly | bdd_exec_ros2/executables/bdd_coordination_node.py:375-388 | a reset defers one handler with exactly the live contexts that have a start, or none if there is none |
| StepEffects.HandlerExactly | bdd_exec_ros2/executables/bdd_coordination_node.py:390-421 | a handler fails exactly the captured contexts that are live and have a start: retired, reported once, cancelled if their goal is held, registered nowhere; all others stay as they are |
| StepEffects.RegistrationsExactly | bdd_exec_ros2/executables/bdd_coordination_node.py:578-615 | registering adds the one registration to its own registry and keeps all others |
| StepEffects.PollingExactly | bdd_exec_ros2/executables/bdd_coordination_node.py:760-816 | starting to poll files a new handle under its context and provider and keeps all others |
| Lifecycle.NothingLeftBehind | bdd_exec_ros2/executables/bdd_coordination_node.py:469-483 | a context that is neither live nor being created has no registration in any registry, and a polling handle is cancelled exactly when it is no longer filed |
| Lifecycle.HandlerTouchesOnlyCaptured | bdd_exec_ros2/executables/bdd_coordination_node.py:390-421 | a handler changes nothing that concerns a context it did not capture |
| Lifecycle.LaterContextsUntouched | bdd_exec_ros2/executables/bdd_coordination_node.py:375-421 | a reset's handler leaves alone every context created after the reset, whenever it comes to run |
| Coordinator.StepKeeps | bdd_exec_ros2/executables/bdd_coordination_node.py:848-1005 | every step of requests, setup task, timer, handlers and clock keeps the scheduler's invariant |
| Coordinator.AlwaysOk | bdd_exec_ros2/executables/bdd_coordination_node.py:848-1005 | it holds in every reachable state of every interleaving |
| Coordinator.OneAtATime | bdd_exec_ros2/executables/bdd_coordination_node.py:855-873 | at most one context is active, none while one is being set up, and no second setup task is started |
| Coordinator.QueueConserved | bdd_exec_ros2/executables/bdd_coordination_node.py:870-903 | what was enqueued is, in order: what has an outcome, the one in setup, what is pending |
| Coordinator.OutcomesGrow | bdd_exec_ros2/executables/bdd_coordination_node.py:421-426 | outcomes are final, and only a reset handler that fails a context drops pending scenarios |
| Coordinator.NoLostWakeup | bdd_exec_ros2/executables/bdd_coordination_node.py:848-910 | with scenarios pending, none active and no setup, some caller is on its way to the scheduler, despite the timer's early return |
| Coordinator.QuietMeansDoneOrRunning | bdd_exec_ros2/executables/bdd_coordination_node.py:904-910 | when nothing is left to execute, nothing is pending or exactly one context is active |
| Coordinator.SetupFindsNoWait | bdd_exec_ros2/executables/bdd_coordination_node.py:882-900 | under simulated time every setup can prepare its wait while the sync is open, whatever way the one before ended |
| Coordinator.StartsAfterProgress | bdd_exec_ros2/executables/bdd_coordination_node.py:882-903 | under simulated time a started scenario saw a forward jump delivered after its own scene was ready if and only if its wait was not released, and a released wait means closed monitoring |
| Coordinator.ClosingReleasesTheWait | bdd_exec_ros2/clock.py:45-52 | closing releases any unfinished wait and its scenario goes on with no progress since its scene was ready |
| StartConditions.ProgressUnlessClosed | bdd_exec_ros2/executables/bdd_coordination_node.py:882-903 | in every run, progress was seen since a started scenario's own scene was ready if and only if the monitoring was not closed during its wait, before a jump and before the timeout |
| StartConditions.StartsWithoutProgress | bdd_exec_ros2/executables/bdd_coordination_node.py:370-373 | a run from the initial state, without any clock jump, in which the node is destroyed during the wait and the scenario starts |
| ResetLaws.JumpExactly | bdd_exec_ros2/executables/bdd_coordination_node.py:375-388 | in every run only a backward jump delivered while monitored defers a handler, with exactly the live contexts that have a start, and reports the time before it |
| ResetLaws.HandlerDrops | bdd_exec_ros2/executables/bdd_coordination_node.py:420-426 | in every run a handler drops the whole queue if and only if it fails a context, and each dropped scenario has that outcome, in order |
| ResetLaws.CapturedUntilRetired | bdd_exec_ros2/executables/bdd_coordination_node.py:375-426 | in every run, from such a jump on, each context that was live and started is retired, or a handler that has captured it still waits and it is still live and started |
| ResetLaws.CancelledIfAccepted | bdd_exec_ros2/executables/bdd_coordination_node.py:390-426 | in every run, told from the responses: a context retired by a reset has had its goal cancelled once if a response accepted it and else not at all; a live one holds the handle if and only if a response accepted it |
| SetupFates.StartedUnlessFailed | bdd_exec_ros2/executables/bdd_coordination_node.py:866-908 | in every run a created context that is no longer in setup was started if and only if no step failed its setup: closed monitoring, a failed scene, a refused or expired timeout |
| SetupFates.GoesOnAfterFailure | bdd_exec_ros2/executables/bdd_coordination_node.py:891-897 | after a failed setup the next pending scenario is taken |
| SetupFates.RequestsConserved | bdd_exec_ros2/executables/bdd_coordination_node.py:974-1000 | in every run what is enqueued and what requests still have to append are the variations of the requests accepted while nothing was in setup, pending or active |
| Coordinator.RegistriesAgree | bdd_exec_ros2/executables/bdd_coordination_node.py:469-483 | a registered context is active or, in the topic registries only, the one in setup; every removed polling handle is cancelled |
| Coordinator.ResetRace | bdd_exec_ros2/executables/bdd_coordination_node.py:375-426 | the settlement of retired contexts within the whole scheduler |
| LifeProjection.Projects | bdd_exec_ros2/executables/bdd_coordination_node.py:818-972 | seen through its contexts, every run of the scheduler is a run of the lifecycle with stuttering |
| LifeProjection.LaterContextsUntouched | bdd_exec_ros2/executables/bdd_coordination_node.py:375-421 | within the scheduler, too, a reset's handler leaves alone every context created after the reset |
| LifeProjection.NothingLeftBehind | bdd_exec_ros2/executables/bdd_coordination_node.py:469-483 | within the scheduler, too, a context that is neither live nor being created is registered nowhere |
| Coordinator.SetupTerminates | bdd_exec_ros2/executables/bdd_coordination_node.py:869-903 | while no start request enqueues, a setup task makes at most as many moves as its queue and position allow, whatever else happens |
| Progress.WorkIsBounded | bdd_exec_ros2/executables/bdd_coordination_node.py:848-1005 | between any two positions of any run, resets included, the scheduler makes at most as many moves as its requests, queue, callers and setup need, plus what timer callbacks and accepted requests have added |
| Progress.NeverStuck | bdd_exec_ros2/executables/bdd_coordination_node.py:848-1005 | in every run, while a request, a caller or a setup is under way, or scenarios are pending and none is active, some move of the scheduler is possible, or the timeout that ends its wait is |
| Progress.MayRegister | bdd_exec_ros2/executables/bdd_coordination_node.py:562-816 | in every run any topic may be registered for the context being created, and polling started for any provider of the inserted one |
| CoordinationNode.RetiredTwice | bdd_exec_ros2/executables/bdd_coordination_node.py:966-969 | retiring contexts one after another, in any grouping, is retiring them together |
| CoordinationNode.BddCoordNode.RemoveContextTopicReg | bdd_exec_ros2/executables/bdd_coordination_node.py:469-483 | the four loops remove exactly the context's registrations and cancel exactly its polling handles |
| CoordinationNode.BddCoordNode.SurveyOne | bdd_exec_ros2/executables/bdd_coordination_node.py:925-964 | one context: left to the reset handler, or its end event sent and marked when due, its status taken, and whether it is over |
| CoordinationNode.BddCoordNode.CollectFinished | bdd_exec_ros2/executables/bdd_coordination_node.py:923-964 | over all contexts, in any order: the end events due are sent once and marked, the published statuses with the managers that determine them, and the finished contexts |
| CoordinationNode.BddCoordNode.RemoveFinished | bdd_exec_ros2/executables/bdd_coordination_node.py:966-969 | in any order, the finished contexts and all that belongs to them are gone |
| CoordinationNode.BddCoordNode.StatusTimerCallback | bdd_exec_ros2/executables/bdd_coordination_node.py:912-972 | no contexts, no status and no scheduling; else the timer step of the machine with its end events, a status for each context that is not from the future, exactly the contexts that are over removed, and the scheduling step |
| CoordinationNode.BddCoordNode.OnClockReset | bdd_exec_ros2/executables/bdd_coordination_node.py:375-388 | hands exactly the contexts with a start to a deferred handler, if there are any |
| CoordinationNode.BddCoordNode.FailCaptured | bdd_exec_ros2/executables/bdd_coordination_node.py:394-421 | exactly the captured contexts that are still there and have started are failed and retired, and their accepted goals cancelled |
| CoordinationNode.BddCoordNode.HandleClockReset | bdd_exec_ros2/executables/bdd_coordination_node.py:390-426 | the handler step of the machine; it drops the queue and raises exactly when it failed a context |
| CoordinationNode.BddCoordNode.BhvGoalRespCb | bdd_exec_ros2/executables/bdd_coordination_node.py:1045-1081 | the response step of the machine: a late acceptance is cancelled, a live rejection is recorded as a failed result and sends the end event, a live acceptance keeps the handle and alone awaits the result |
| CoordinationNode.BddCoordNode.ScheduleNextScenario | bdd_exec_ros2/executables/bdd_coordination_node.py:848-864 | the scheduling step of the machine, and whether it creates a setup task |
| CoordinationNode.BddCoordNode.AcceptStart | bdd_exec_ros2/executables/bdd_coordination_node.py:974-985 | the request step of the machine; refused exactly while setting up, pending or active |
| CoordinationNode.BddCoordNode.Enqueue | bdd_exec_ros2/executables/bdd_coordination_node.py:997-1000 | one append in a region of its own, between which anything may happen |
| CoordinationNode.BddCoordNode.FinishStart | bdd_exec_ros2/executables/bdd_coordination_node.py:1005-1005 | the request is done and schedules |
| CoordinationNode.BddCoordNode.TakeNext | bdd_exec_ros2/executables/bdd_coordination_node.py:869-873 | takes the first pending scenario, unless there is none or a context is active |
| CoordinationNode.BddCoordNode.FailSetup | bdd_exec_ros2/executables/bdd_coordination_node.py:891-897 | the failed context's registrations are removed under the lock |
| CoordinationNode.BddCoordNode.InsertContext | bdd_exec_ros2/executables/bdd_coordination_node.py:827-828 | the prepared context becomes active |
| CoordinationNode.BddCoordNode.CreateSubscription | bdd_exec_ros2/executables/bdd_coordination_node.py:578-583 | the policy is registered for the context under its topic, whichever entries exist already |
| CoordinationNode.BddCoordNode.CreateObservationSubscription | bdd_exec_ros2/executables/bdd_coordination_node.py:613-615 | the same for an observation provider |
| CoordinationNode.BddCoordNode.StartSimulationPolling | bdd_exec_ros2/executables/bdd_coordination_node.py:760-777 | a new handle is filed under the context and provider |
| CoordinationNode.BddCoordNode.StartTransformPolling | bdd_exec_ros2/executables/bdd_coordination_node.py:805-816 | the same for transforms |
| CoordinationNode.BddCoordNode.LeaveSetup | bdd_exec_ros2/executables/bdd_coordination_node.py:904-910 | the flag is cleared and scheduling is tried again |
| SimScene.SendSpawnEntries | bdd_exec_ros2/sim_interfaces.py:537-618 | both branches with their error cases in order, the loops proved against the outcome function |
| SimScene.SpawnFailures | bdd_exec_ros2/sim_interfaces.py:542-606 | exactly when spawning fails and with which error: a timeout of the batch or of any single request, a service that is not ready, a wrong count, a disagreeing aggregate, no support |
| SimScene.SpawnSucceeds | bdd_exec_ros2/sim_interfaces.py:608-618 | else an element has a name if and only if some reply to it is successful, and the last successful one decides, by either service |
| SimScene.CollectExact | bdd_exec_ros2/sim_interfaces.py:608-618 | for distinct elements the map is exactly the successful entries with their reported names |
| SimScene.CollectLastSuccess | bdd_exec_ros2/sim_interfaces.py:608-618 | with repeated elements the last successful entry decides |
| SimScene.CollectOnlySuccesses | bdd_exec_ros2/sim_interfaces.py:608-618 | nothing is in the map without a successful entry |
| SimScene.BatchRefinesSequential | bdd_exec_ros2/sim_interfaces.py:537-618 | given the same outcomes the two branches return the same exactly when the batch reply is consistent; otherwise the batch branch fails |
| SimScene.BuildIndex | bdd_exec_ros2/sim_interfaces.py:320-333 | the resolvable requested elements, and only they, are filed under their entities |
| SimScene.GetElementsPoses | bdd_exec_ros2/sim_interfaces.py:301-374 | the errors in order; else each requested element that resolves to a reported entity has that entity's last state, and the map holds nothing else |
| SimScene.LookedUnique | bdd_exec_ros2/sim_interfaces.py:370-374 | direct lookup determines the map, so the index agrees with it |
| RmsWindow.DequeIsFilter | bdd_exec_ros2/observation.py:256-266 | for non-decreasing stamps the deque is the full history with the last value kept for each stamp, filtered to stamps of at least the latest minus the window |
| RmsWindow.NewestRetained | bdd_exec_ros2/observation.py:259-273 | for any order of stamps the newest sample is retained, so the mean never divides by zero |
| RmsWindow.WindowInAnyOrder | bdd_exec_ros2/observation.py:259-266 | for any order of stamps the deque holds the last of each run of equal stamps from some position on; its oldest is inside the window of the newest; what was dropped was too old for a later sample |
| RmsWindow.SumLaws | bdd_exec_ros2/observation.py:273-273 | the sum over wrenches is zero for none, the squared force norm for one, and additive |
| RmsWindow.RmsWithinMeans | bdd_exec_ros2/observation.py:273-274 | the verdict's condition is that the root of the mean of the squared norms is at most the limit |
| RmsWindow.VerdictBounds | bdd_exec_ros2/observation.py:273-274 | norms all within the limit force a true verdict, norms all above it a false one, and a true verdict means that some retained norm is within |
| RmsWindow.RootWithinMeans | bdd_exec_ros2/observation.py:273-274 | the comparison of squares is the comparison of the root with the limit |
| RmsWindow.RmsEvaluator.Evaluate | bdd_exec_ros2/observation.py:252-279 | wrong inputs change nothing; else the verdict is missing exactly while the window is warming up, and true if and only if the limit is not negative and the sum of the squared norms of the retained wrenches is at most their number times the squared limit |
| RmsWindow.RmsEvaluator.Retain | bdd_exec_ros2/observation.py:259-266 | replace-or-append followed by the dropping loop is the specified window |
| RmsWindow.RmsEvaluator.Create | bdd_exec_ros2/observation.py:247-255 | a window that is not positive is refused |

## Left out

- The setup mode without simulation: `Lifecycle` covers its contexts, in any number at once; the direct launch loop of `start_test_cb` is not a method of the class.
- The setup task as one method: it is cut at its awaits, so its loop is the machine's program counter and its regions are methods of `BddCoordNode`.
- CoordinationNode.BddCoordNode.StartTestCb: states the uninterrupted request; interruptions are covered by its three regions, which are methods of their own, and by the machine's steps.
- The text of statuses, which code that is not part of this model renders from the observation manager; a status stands for its context and manager.
- The capture of contexts in `_on_clock_reset` reads the contexts without the lock; it is one step here, although another thread could change the dictionary during the iteration.
- What event, feedback and result callbacks, and the failed results of rejected goals and resets, do inside an observation manager: the calls are counted, the manager's state changes by arbitrary observation steps.
- Exceptions raised while a context is created or a scenario started, which would leave the setup task without rescheduling.
- Fanout.ClientsConverge: does not cover the greeting, which an overflow may throw away; `QueueLaws.HistoryComesFirst` says what a client gets first.
- ActiveSets.IngestTwice: is for messages that list each (context, fluent) pair once, because a second listing replaces the active set of the first.
- PosePolling.QuietAfterCancel: is stated at the checks, because a callback past its check is no longer under the lock.
- SimScene.GetElementsPoses: takes the resolution of elements to entities as given; frames, name mangling and the filter's regular expression are not modelled.
- SimScene.SendSpawnEntries: stands for the request futures by their replies, where none means a timeout; request contents are not modelled.
- RmsWindow.RmsEvaluator.Evaluate: computes over reals, without rounding, and compares squares instead of taking a root.
- Record identifiers are `R(n)` for "r" followed by n, contexts are identified by strings or numbers instead of UUIDs, and status messages stand for their dictionaries.
- The subscriptions that `_create_subscription` and `_create_observation_subscription` open once for each topic; an observation topic stands for its name and message type together.
- Scene loading and resetting, feature and state queries and their caching in `SimInterface`.
- Clause states, time extents and formatting in `timeline.mjs`; positions, the playhead, the scenario bar and details in `app.mjs`. Stamps are compared in nanoseconds, without the rounding of the browser's seconds.
- The Clear button, which empties the browser's record map; until the next full history the fold then gives the records received since.
- `PlanarContainmentEvaluator` and the other evaluators, which are expressions over geometry libraries.
- HTTP and WebSocket handling, reconnection, message recording and ROS plumbing (parameters, publishers, subscriptions, action transport).
- Behaviour models and the desktop visualizer.
