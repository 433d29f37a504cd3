# FRED and rt-dag: a verified model

FRED lets software clients share the slots of an FPGA: a client asks for a
hardware task, the server finds a slot of its partition, reconfigures the slot if
needed through the single reconfiguration port, and runs the task under a
watchdog. rt-dag runs a graph of periodic tasks, some of them offloaded to FRED,
as threads that exchange messages through multi-queues. This project models both
in Dafny and proves what their users rely on.

`dafny verify dfyconfig.toml` checks everything.

## The parts

**Scheduler.** `FredState` holds the server's state as a value (slots, watchdogs,
port, FRI queue, partition queues, requests, history) and the transitions the
handlers are made of. `SchedInv` proves that every transition keeps one ownership
invariant; `SchedEvents` lifts it to the four handlers; `SchedMoves` splits
handlers into six kinds of moves, over which `SchedFifo`, `SchedHistory`,
`SchedDrain` and `SchedTurns` prove order, conservation, progress and overtaking.
`SchedTheorems` states the results for every reachable state of every system:
any layout, any number of clients, any arrivals, any legal slot search;
`SchedDiagram` says when the slots keep to the diagram drawn for them,
`SchedSkips` when reconfiguration is skipped; `SchedStarts` and `SchedNotices`
say which executions begin and end, and what is told of them.
`FredObjects` and `SchedulerFred` are the server's own records as classes, updated
in place; each handler is proved to take a ghost view of the records exactly where
the transition does, or to fail exactly when a driver call fails.

**Clients.** `FredClient` holds the library's calls and the server's message
processing, as classes; `FredSystem` puts any number of clients, their channels
and the scheduler together. There the scheduler's precondition, that a live
request is never pushed, is proved rather than assumed. `FredAnswers` follows an
acceleration from RUN to answer and proves the answer true. `FredBans` says what a ban
stops and what it does not.

**Reconfiguration worker.** `RcfgWorker` interleaves the server's three attribute
writes with the kernel thread, step by step; `SchedRcfg` couples it with the
scheduler, so that what the port believes is compared with what was really loaded.
`FredFabric` adds the clients: what executes for one is what its RUN named.

**rt-dag.** `RtDagGraph` wires the edges as the `TaskSet` constructor does and
proves what acyclicity with one source and one sink gives; `RtDagRun` interleaves
the task threads over one-place cells, shared buffers and the start-time queue;
`RtDagTheorems` proves lockstep, race-free buffers, absence of deadlock and a
unique end. `MultiQueue` is the multi-queue itself, with its bitmask;
`MultiQueueThreads` interleaves any number of producers and consumers at every
mutex and condition-variable step. `RtDagQueues` puts the DAG's threads over one
such queue for each task and proves that this refines the DAG over one-place cells
and cannot deadlock either; `RtDagStops` bounds its runs. `RtDagGap` is a run that
lets two loop counters drift apart.

`Runs` says once what reachable means, for all the transition systems above.

**Inversion.** `GaussRows` and `Gauss` prove Gauss-Jordan inversion with partial
pivoting, in place on flat arrays, over the reals and for every size (the source
fixes GAUSS_SIZE to 4).

## Assumptions

- The clock never runs backwards. A completion event comes only from an executing
  slot, a timeout only from an armed timer; the two never meet in one batch of
  events. The port reports only what it programs.
- A driver call that fails stops the server: a handler's result is false exactly
  when one of its driver calls failed, and nothing is claimed afterwards.
- The layout is well formed: hardware identifiers are unique and each slot
  belongs to one partition.
- In the composed system channels between client and server are reliable and
  first-in first-out; a client is driven through the library. The channel ends when
  the server detaches the client or the client closes it.
- The DAG is acyclic and has one source and one sink, both CPU tasks (the launcher
  checks the latter). Multi-queue signals wake one sleeper; further wakeups are
  the spurious ones, which may happen at any time.
- The server is the only writer of the kernel's reconfiguration attributes, and
  the encryption flag does not change.

## Where code and documentation disagree

- The drawing at slot.h:29-35 leads an overrun slot from EXEC to IDLE; the code
  makes it BLANK. `DrawnIffNoOverrun` says that a slot keeps to the drawing exactly
  as long as it has not overrun, and `OverrunLeavesDrawing` is a run that leaves it.
- partition.h:76-81 documents the search as answering the first free slot; without
  a match it answers the last one. `FirstFreeIff` says exactly when they agree.
- The kernel notifies the end of a reconfiguration before it accepts the next
  start, so a start after a notification can be refused: `StartRefusedIff` gives
  the exact condition and `RefusedAfterDone` a run.
- The iteration counters of rt-dag threads can differ by more than one, since a
  thread counts an iteration when it leaves it: `CountersTwoApart` is a run with a
  difference of two, and by `CountersDiffer` two counters are so far apart exactly
  while the sink's lies between them. Started and completed iterations of any two
  threads differ by at most one.
- scheduler_fred.c:400-411 announces that an overrun disables the hw-task for good;
  the code checks bans only at BIND and RUN. `BanHoldsIff` gives the exact condition
  and `BannedRunsAgain` a system in which a banned hw-task executes again.
- scheduler_fred.c:96 says that reconfiguration is skipped if the slot already
  contains the hw-task; the code skips it only if the slot search at the request's
  arrival found it so and the mode allows it. `SkipsIffMatched` and `SearchMatches` say exactly when, and
  `IdleIsReprogrammed` is a run with a slot reconfigured for what it contains.

## Model

| member | source | states |
|---|---|---|
| SchedTheorems.ArrivalOrder | fred-server.app/src/fred-linux/srv_core/scheduler_fred.c:124-277 | first come, first served per partition in every run: what arrived is what was served, then what waits for the port, then what waits for a slot, in arrival order, nothing lost or added; slots are granted in the same order |
| SchedTheorems.OnePlace | fred-server.app/src/fred-linux/srv_core/scheduler_fred.c:149-420 | a request is in at most one of partition queue, FRI queue, port and executing slot, once; it is in one exactly when it was pushed once more than notified |
| SchedTheorems.PlacesExclude | fred-server.app/src/fred-linux/srv_core/slot.h:50-69 | a request's place fixes the state of its slot: none, RSRV, RCFG or EXEC |
| SchedTheorems.NothingLost | fred-server.app/src/fred-linux/srv_core/scheduler_fred.c:149-420 | pushes equal notices plus the number of live requests, in every run |
| SchedTheorems.RightBitstream | fred-server.app/src/fred-linux/srv_core/scheduler_fred.c:91-122 | every execution ever started, reconfigured or skipped, ran on a slot configured with the hw-task its request asked for; so does every slot now executing |
| SchedTheorems.SlotProtocol | fred-server.app/src/fred-linux/srv_core/slot.h:29-70 | every slot's past is a path of the diagram with the one arrow added that the code adds, EXEC to BLANK, READY never outlives a handler, at most one slot is in RCFG and only while the port programs, RSRV slots and FRI entries are in bijection, EXEC slots are those with armed timers |
| SchedDiagram.DrawnIffNoOverrun | fred-server.app/src/fred-linux/srv_core/slot.h:29-37 | in every run from start-up the past of a slot is a path of the diagram drawn in slot.h if and only if the run holds no timeout of that slot |
| SchedDiagram.OverrunLeavesDrawing | fred-server.app/src/fred-linux/srv_core/slot.h:183-194 | a run that leaves the drawing, in every layout with a slot for some hw-task: push, end of programming, timeout |
| SchedDiagram.StepDrawn | fred-server.app/src/fred-linux/srv_core/scheduler_fred.c:214-420 | an event takes a slot's past off the drawing exactly when it is that slot's timeout |
| SchedDiagram.MoveDrawn | fred-server.app/src/fred-linux/srv_core/slot.h:132-205 | so does a move exactly when it blanks an executing slot |
| SchedTheorems.WorkConserving | fred-server.app/src/fred-linux/srv_core/scheduler_fred.c:149-212 | after every handler an idle port means an empty FRI queue, and no slot is available while its partition queues a request |
| SchedTheorems.BoundedOvertaking | fred-server.app/src/fred-linux/srv_core/scheduler_fred.c:72-172 | however a run goes on, a request in the FRI queue is served after at most the requests in front of it plus those queued with an earlier stamp; whoever goes before it is stamped no later |
| SchedTheorems.DrainsToRest | fred-server.app/src/fred-linux/srv_core/scheduler_fred.c:174-420 | without arrivals at most two hardware events per live request happen, one is always possible while a request is live, and at rest every push has been notified |
| SchedTheorems.ReachableHolds | fred-server.app/src/fred-linux/srv_core/scheduler_fred.c:214-420 | every reachable state satisfies the ownership invariant and the history invariants together |
| SchedTheorems.RunKeeps | fred-server.app/src/fred-linux/srv_core/scheduler_fred.c:214-420 | a run from a reachable state keeps the invariant, the layout and the balance of pushes and notices |
| SchedEvents.StepKeeps | fred-server.app/src/fred-linux/srv_core/scheduler_fred.c:214-420 | each of the four handlers keeps the ownership invariant and leaves no idle port over a waiting reconfiguration and no free slot over a waiting request |
| SchedEvents.PushKeeps | fred-server.app/src/fred-linux/srv_core/scheduler_fred.c:216-277 | an arrival keeps the invariant, whether the request gets a slot or queues for its partition |
| SchedEvents.ProgramDoneKeeps | fred-server.app/src/fred-linux/srv_core/scheduler_fred.c:279-329 | the end of a reconfiguration, with the service of the FRI queue that follows, keeps the invariant |
| SchedEvents.SlotEndKeeps | fred-server.app/src/fred-linux/srv_core/scheduler_fred.c:331-420 | the end of an execution and an overrun, with the pull that follows, keep the invariant |
| SchedEvents.GrantSettles | fred-server.app/src/fred-linux/srv_core/scheduler_fred.c:149-172 | reserving a free slot and pushing into the FRI queue of a settled state equals insertion followed by full service, and settles again |
| SchedEvents.DrainFreesNone | fred-server.app/src/fred-linux/srv_core/scheduler_fred.c:38-122 | service of the FRI queue frees no slot, leaves the partition queues alone and ends with the port busy or the queue empty |
| SchedEvents.InitKeeps | fred-server.app/src/fred-linux/srv_core/scheduler_fred.c:435-469 | the state after start-up satisfies the invariant |
| SchedInv.IsGranted | fred-server.app/src/fred-linux/srv_core/scheduler_fred.c:124-146 | entry by entry what reserving and inserting does: the request stands behind everything stamped no later and before the first stamped later, all else keeps its order |
| SchedInv.GrantKeeps | fred-server.app/src/fred-linux/srv_core/scheduler_fred.c:255-273 | granting a slot in turn keeps ownership, order and slot paths |
| SchedInv.ServeKeeps | fred-server.app/src/fred-linux/srv_core/scheduler_fred.c:72-122 | serving the head of the FRI queue keeps ownership, order and slot paths, on the skip and on the reconfiguration branch |
| SchedInv.ReleaseKeeps | fred-server.app/src/fred-linux/srv_core/scheduler_fred.c:355-372 | releasing a slot keeps ownership, order and slot paths, and its request is then nowhere |
| SchedInv.RebindKeeps | fred-server.app/src/fred-linux/srv_core/accel_req.h:69-77 | overwriting a request that is nowhere keeps the invariant: what makes re-using the one embedded request sound |
| SchedMoves.StepPath | fred-server.app/src/fred-linux/srv_core/scheduler_fred.c:214-420 | every handler is a sequence of six kinds of moves, so what a move keeps every run keeps: one that names the event, then services and advances only |
| SchedMoves.MoveKeeps | fred-server.app/src/fred-linux/srv_core/scheduler_fred.c:38-277 | each move keeps the ownership invariant |
| SchedFifo.MoveFifo | fred-server.app/src/fred-linux/srv_core/scheduler_fred.c:124-277 | each move keeps the order of grants and services of every partition equal to the order of arrivals |
| SchedHistory.MoveConserves | fred-server.app/src/fred-linux/srv_core/scheduler_fred.c:149-420 | each move keeps pushes minus notices equal to one for a live request and zero otherwise |
| SchedHistory.MoveRight | fred-server.app/src/fred-linux/srv_core/scheduler_fred.c:96-118 | each move starts executions only on rightly configured slots |
| SchedNotices.StepNotifies | fred-server.app/src/fred-linux/srv_core/scheduler_fred.c:331-420 | a completion notifies the request its slot executed of DONE, an overrun of OVERRUN; an arrival and the end of a reconfiguration notify nobody |
| SchedNotices.NoticesAreEndings | fred-server.app/src/fred-linux/srv_core/scheduler_fred.c:331-420 | in every run from start-up the messages sent to a request are, in order, how the events ended its executions |
| SchedStarts.StepStarts | fred-server.app/src/fred-linux/srv_core/scheduler_fred.c:38-88 | the record of executions is true: each one an event records is under way after it, on that slot, for that request, with that configuration |
| SchedStarts.StepBegins | fred-server.app/src/fred-linux/srv_core/scheduler_fred.c:38-88 | whoever executes after an event did before it, or its execution is recorded as begun for the hw-task it is bound to |
| SchedStarts.StaysExecuting | fred-server.app/src/fred-linux/srv_core/scheduler_fred.c:331-420 | only the completion or the overrun of its own slot ends an execution |
| SchedInv.OnlyThere | fred-server.app/src/fred-linux/srv_core/scheduler_fred.c:342-378 | the request of an executing slot is in no other place, so its notice ends its life |
| SchedDrain.EventCounts | fred-server.app/src/fred-linux/srv_core/scheduler_fred.c:279-420 | every hardware event strictly decreases a measure of at most two per live request |
| SchedDrain.NeverStuck | fred-server.app/src/fred-linux/srv_core/scheduler_fred.c:174-212 | with a slot in every used partition, a live request means the port programs or a slot executes |
| SchedDrain.DrainBound | fred-server.app/src/fred-linux/srv_core/scheduler_fred.c:279-420 | a run of hardware events is no longer than twice the live requests |
| SchedMoves.RunPath | fred-server.app/src/fred-linux/srv_core/scheduler_fred.c:214-420 | every run from any well-formed state is a sequence of moves |
| SchedTurns.SkipsIsLongest | fred-server.app/src/fred-linux/srv_core/scheduler_fred.c:96-106 | the counted prefix of skip requests is the maximal one |
| SchedTurns.DrainTakes | fred-server.app/src/fred-linux/srv_core/scheduler_fred.c:38-122 | exact result of the mutual recursion: the maximal prefix of skip requests leaves the FRI queue, then the first other one goes to the port and the rest stays; or the queue empties and the port stays idle |
| SchedTurns.DrainStarts | fred-server.app/src/fred-linux/srv_core/scheduler_fred.c:38-88 | each request of that prefix executes in its own slot |
| SchedTurns.DrainPrograms | fred-server.app/src/fred-linux/srv_core/scheduler_fred.c:107-119 | the first other request's slot is in RCFG, bound to its hw-task |
| SchedTurns.DrainSpares | fred-server.app/src/fred-linux/srv_core/scheduler_fred.c:38-122 | the service of the FRI queue leaves every slot alone but those of the requests it takes |
| SchedTurns.PathTurn | fred-server.app/src/fred-linux/srv_core/scheduler_fred.c:124-172 | over any sequence of moves a queued request keeps its turn |
| SchedSkips.SkipsIffMatched | fred-server.app/src/fred-linux/srv_core/scheduler_fred.c:96-119 | in every run from start-up a slot came to execute a request straight from its reservation if and only if the last push of that request was answered with a slot to be used as it is, and through a reconfiguration otherwise; such a request is never at the port |
| SchedSkips.SearchMatches | fred-server.app/src/fred-linux/srv_core/scheduler_fred.c:239-263 | the search answers so if and only if the mode allows it and some slot of the partition idles on the hw-task |
| SchedSkips.StepShows | fred-server.app/src/fred-linux/srv_core/scheduler_fred.c:214-420 | every event keeps how a request shows that its reconfiguration is skipped, and only a push of that request changes it |
| SchedSkips.PulledIsProgrammed | fred-server.app/src/fred-linux/srv_core/scheduler_fred.c:186-212 | the head of a partition queue that is given a freed slot while the port is idle is reconfigured for at once, on that slot, whatever the slot is configured with |
| SchedSkips.IdleIsReprogrammed | fred-server.app/src/fred-linux/srv_core/scheduler_fred.c:92-106 | a run in which a slot that idles on the very hw-task of the request it is given is reconfigured all the same, in every layout where one slot alone serves a hw-task |
| FredState.NoLater | fred-server.app/src/fred-linux/srv_core/scheduler_fred.c:135-139 | the place the insertion loop stops at: behind every leading request stamped no later, before one stamped later |
| FredState.Drain | fred-server.app/src/fred-linux/srv_core/scheduler_fred.c:72-88 | the port ends busy or the FRI queue empty |
| FredObjects.CompareTimestamps | fred-server.app/src/fred-linux/srv_core/accel_req.h:193-215 | its sign is that of the difference of the two stamps in nanoseconds |
| FredObjects.AccelReq.Unbind | fred-server.app/src/fred-linux/srv_core/accel_req.h:69-77 | clears hw-task, slot and skip flag, keeps the timer and the stamp |
| FredObjects.Slot.SetReserved | fred-server.app/src/fred-linux/srv_core/slot.h:132-139 | IDLE or BLANK to RSRV |
| FredObjects.Slot.PrepareForRcfg | fred-server.app/src/fred-linux/srv_core/slot.h:141-149 | RSRV to RCFG |
| FredObjects.Slot.SetHwTask | fred-server.app/src/fred-linux/srv_core/slot.h:111-119 | binds the hw-task, only in RCFG |
| FredObjects.Slot.ReinitAfterRcfg | fred-server.app/src/fred-linux/srv_core/slot.h:151-160 | RCFG to READY |
| FredObjects.Slot.StartCompute | fred-server.app/src/fred-linux/srv_core/slot.h:162-181 | READY or RSRV to EXEC with the request bound, whether or not the driver then fails |
| FredObjects.Slot.DisableAfterTimeout | fred-server.app/src/fred-linux/srv_core/slot.h:183-194 | EXEC to BLANK |
| FredObjects.Slot.ClearAfterCompute | fred-server.app/src/fred-linux/srv_core/slot.h:196-205 | EXEC to IDLE |
| FredObjects.SlotTimer.Arm | fred-server.app/src/fred-linux/srv_core/slot_timer.h:52-61 | binds the request and arms, reporting the driver's outcome |
| FredObjects.SlotTimer.Disarm | fred-server.app/src/fred-linux/srv_core/slot_timer.h:63-82 | unbinds the request; succeeds only if both timer calls do, and is then disarmed |
| FredObjects.Devcfg.StartProg | fred-server.app/src/fred-linux/srv_core/devcfg.c:129-144 | an idle port takes the request and binds its hw-task to its slot |
| FredObjects.Devcfg.ClearEvt | fred-server.app/src/fred-linux/srv_core/devcfg.c:146-154 | a programming port falls idle |
| FredObjects.Partition.SearchSlot | fred-server.app/src/fred-linux/srv_core/partition.c:40-73 | answers the first slot already configured with the hw-task, else the last free slot, else none; reconfiguration is needed exactly without a match |
| FredObjects.Partition.SearchRandomSlot | fred-server.app/src/fred-linux/srv_core/partition.c:75-107 | answers none exactly when nothing is free, and some free slot otherwise |
| FredObjects.SearchMeans | fred-server.app/src/fred-linux/srv_core/partition.c:40-73 | none exactly when nothing is free; a match whenever there is one |
| FredObjects.SearchStops | fred-server.app/src/fred-linux/srv_core/partition.c:50-60 | which slot it is: the first match, else the last free slot |
| FredObjects.FirstFreeIff | fred-server.app/src/fred-linux/srv_core/partition.h:76-81 | the documented 'first free slot' is found exactly when the first free slot matches or is the only free one |
| FredObjects.SecondOfTwoBlank | fred-server.app/src/fred-linux/srv_core/partition.h:76-81 | two blank slots: the search answers the second, against its documentation |
| SchedulerFred.Scheduler.constructor | fred-server.app/src/fred-linux/srv_core/scheduler_fred.c:435-469 | a fresh scheduler is the initial state |
| SchedulerFred.Scheduler.StartSlotAfterRcfg | fred-server.app/src/fred-linux/srv_core/scheduler_fred.c:38-88 | executes the request's slot, then serves the FRI queue as Drain does; fails exactly when a driver call fails |
| SchedulerFred.Scheduler.StartRcfg | fred-server.app/src/fred-linux/srv_core/scheduler_fred.c:90-122 | serves a request by execution or by programming, then the FRI queue as Drain does; fails exactly when a driver call fails |
| SchedulerFred.Scheduler.InsReqOrdered | fred-server.app/src/fred-linux/srv_core/scheduler_fred.c:124-146 | stable insertion by stamp into the FRI queue |
| SchedulerFred.Scheduler.WalkFri | fred-server.app/src/fred-linux/srv_core/scheduler_fred.c:135-139 | the loop stops at the first request stamped later |
| SchedulerFred.Scheduler.PushReqFriQueue | fred-server.app/src/fred-linux/srv_core/scheduler_fred.c:148-172 | insertion, then service when the port is idle and the request on top |
| SchedulerFred.Scheduler.PullReqPartitionQueue | fred-server.app/src/fred-linux/srv_core/scheduler_fred.c:174-212 | the freed slot goes to the head of its partition's queue, if any |
| SchedulerFred.Scheduler.PushAccelReq | fred-server.app/src/fred-linux/srv_core/scheduler_fred.c:216-277 | the arrival handler is the transition Push with the pick its slot search makes, legal in every case |
| SchedulerFred.Scheduler.PushAccelReqRandom | fred-server.app/src/fred-linux/srv_core_mocks/scheduler_fred_rand.c:216-271 | the arrival handler of the random-slot scheduler is the same transition with a pick that never skips: both refine one abstract scheduler |
| SchedulerFred.Scheduler.RcfgComplete | fred-server.app/src/fred-linux/srv_core/scheduler_fred.c:279-329 | the reconfiguration handler is the transition ProgramDone |
| SchedulerFred.Scheduler.SlotComplete | fred-server.app/src/fred-linux/srv_core/scheduler_fred.c:331-378 | the completion handler is the transition SlotDone; it notifies the slot's request of DONE |
| SchedulerFred.Scheduler.WatchdogExpired | fred-server.app/src/fred-linux/srv_core/scheduler_fred.c:380-420 | the timeout handler is the transition SlotTimeout; it notifies the timer's request of OVERRUN |
| SchedulerFred.AnswerIsLegal | fred-server.app/src/fred-linux/srv_core/partition.c:40-73 | whatever the slot search answers is a legal pick: free, of the right partition, skipping only over the same hw-task |
| FredClient.FredData.constructor | fred-lib.app/src/fred-linux-client-lib/fred_lib.c:115-166 | fred_init ends in CLI_INIT exactly on an acknowledge, in CLI_ERROR otherwise |
| FredClient.FredData.Bind | fred-lib.app/src/fred-linux-client-lib/fred_lib.c:168-242 | fred_bind sends BIND when idle and is refused otherwise; unchanged on an error reply, CLI_ERROR on a lost connection or memory, one more hw-task otherwise |
| FredClient.FredData.AsyncAccel | fred-lib.app/src/fred-linux-client-lib/fred_lib.c:244-270 | fred_async_accel sends RUN only from CLI_IDLE and ends in CLI_ACCEL, or in CLI_ERROR if it cannot be sent |
| FredClient.FredData.AsyncWaitForAccel | fred-lib.app/src/fred-linux-client-lib/fred_lib.c:272-300 | the wait succeeds, and ends in CLI_IDLE, exactly on DONE; any other answer or none is an error and ends in CLI_ERROR |
| FredClient.FredData.Free | fred-lib.app/src/fred-linux-client-lib/fred_lib.c:320-344 | fred_free does nothing in CLI_ACCEL; otherwise it unmaps and frees every bound hw-task in order and closes the connection exactly if its descriptor is above zero |
| FredClient.SwTaskClient.ProcessMsg | fred-server.app/src/fred-linux/srv_core/sw_task_client.c:141-273 | each message is answered, detaches the client (also when the answer cannot be written) or pushes the request: every refusal of INIT, BIND, RUN and of anything else is an ERROR; a push is an enabled scheduler transition |
| FredClient.SwTaskClient.BindTask | fred-server.app/src/fred-linux/srv_core/sw_task_client.c:160-211 | BIND: unknown, banned or one too many hw-task is an error reply; failed allocation or an answer that cannot be written detaches and binds nothing; else the list grows by it |
| FredClient.SwTaskClient.RunTask | fred-server.app/src/fred-linux/srv_core/sw_task_client.c:213-253 | RUN: pushed exactly if a hw-task with that identifier is bound and not banned; else an error reply |
| FredClient.SwTaskClient.InitTask | fred-server.app/src/fred-linux/srv_core/sw_task_client.c:151-158 | INIT: an acknowledge once, then errors; the client is ready even when the answer is lost |
| FredClient.SwTaskClient.NotifyAction | fred-server.app/src/fred-linux/srv_core/sw_task_client.c:279-300 | the callback sends DONE for a completion and OVERRUN for an overrun |
| FredClient.ProcessTreats | fred-server.app/src/fred-linux/srv_core/sw_task_client.c:141-273 | what each message is answered with, stated by what is bound, known and banned: exactly the messages that cannot be granted get an ERROR |
| FredClient.SwTaskClient.BindReq | fred-server.app/src/fred-linux/srv_core/sw_task_client.c:240-242 | unbinding and binding the embedded request changes nothing else of the scheduler's view |
| FredClient.Search | fred-server.app/src/fred-linux/srv_core/sw_task_client.c:219-226 | the identifier lookup answers the first match |
| FredClient.Process | fred-server.app/src/fred-linux/srv_core/sw_task_client.c:141-273 | only a RUN for a bound and not banned hw-task leads to a push, of that hw-task |
| FredClient.BoundPushed | fred-server.app/src/fred-linux/srv_core/sw_task_client.c:240-251 | the push after rebinding is the push from the state before it |
| FredSystem.AccelIsOneInFlight | fred-lib.app/src/fred-linux-client-lib/fred_lib.c:244-300 | a client is in CLI_ACCEL exactly when one of RUN under way, request live in the scheduler, answer under way exists; never two |
| FredSystem.LiveIsNeverPushed | fred-server.app/src/fred-linux/srv_core/sw_task_client.c:213-253 | the server never pushes a live request, so the scheduler's precondition holds for every client driven by the library |
| FredSystem.BannedIsNeverPushed | fred-server.app/src/fred-linux/srv_core/sw_task_client.c:234-238 | the server never pushes a request for a banned hw-task, and no step lifts a ban |
| SchedNotices.StepBans | fred-server.app/src/fred-linux/srv_core/scheduler_fred.c:400-401 | an overrun bans the hw-task of the request that overran; no other event changes a ban |
| FredBans.BanHoldsIff | fred-server.app/src/fred-linux/srv_core/scheduler_fred.c:400-411 | a banned hw-task never executes again if and only if no request for it was queued, or being reconfigured for, at the time |
| FredBans.OnlyPendingStart | fred-server.app/src/fred-linux/srv_core/sw_task_client.c:234-238 | after a ban an execution of the hw-task begins only for a request that was then queued or being reconfigured for |
| FredBans.BannedRunsAgain | fred-server.app/src/fred-linux/srv_core/scheduler_fred.c:400-411 | a reachable system in which a hw-task has been banned and executes again, in every layout where one slot alone serves it |
| FredBans.MovePends | fred-server.app/src/fred-linux/srv_core/scheduler_fred.c:149-420 | a move that pushes nothing for a hw-task ends the wait of exactly the request that it lets execute |
| FredBans.StepSince | fred-server.app/src/fred-linux/srv_core/scheduler_fred.c:214-420 | so does an event: whoever begins, or still waits, waited before, and whoever waited before still does or has begun |
| FredSystem.SameBindings | fred-lib.app/src/fred-linux-client-lib/fred_lib.c:168-242 | between calls client and server hold the same list of hw-tasks unless the client failed, and the assertion at the head of fred_bind never fires |
| FredSystem.FreedOnlyAtRest | fred-lib.app/src/fred-linux-client-lib/fred_lib.c:320-344 | a client's record is freed, and its connection closed, only when its request is not live |
| FredSystem.WaitGoesOn | fred-lib.app/src/fred-linux-client-lib/fred_lib.c:115-300 | a client blocked in fred_init, fred_bind or the wait for its acceleration can receive its answer or learn that the connection is closed, or be handled by the server, or has a live request with a hardware event due |
| FredAnswers.AnswerComes | fred-lib.app/src/fred-linux-client-lib/fred_lib.c:272-300 | from any reachable state and in any order of hardware events, without a message handled: at most two for each live request, and when none is due the answer of a client whose RUN was received is in its channel: DONE if the event that ended the execution was a completion, OVERRUN if it was a timeout |
| FredAnswers.AnswersAreTrue | fred-server.app/src/fred-linux/srv_core/sw_task_client.c:213-297 | in every run from start-up: a client finds DONE in its channel only if, since its last RUN, an execution of its request began, of a hw-task that RUN named, and ended by completion; OVERRUN only if it ended by timeout; ERROR to a RUN only if no such hw-task was bound, or a banned one |
| FredAnswers.NextAdvances | fred-server.app/src/fred-linux/srv_core/sw_task_client.c:213-297 | the life of an acceleration: asked, queued, running, answered; every act leaves it where it is or takes it one stage on, by the message or event that belongs there |
| FredSystem.HardwareAnswers | fred-server.app/src/fred-linux/srv_core/sw_task_client.c:279-300 | a completion adds DONE to the channel of the client whose execution ended, an overrun OVERRUN; no other channel changes |
| FredSystem.LeavesAndIsFreed | fred-lib.app/src/fred-linux-client-lib/fred_lib.c:320-344 | outside CLI_ACCEL a client can leave and the server then free its record; inside, fred_free changes nothing |
| FredSystem.NoticeArrives | fred-server.app/src/fred-linux/srv_core/sw_task_client.c:277-300 | the notice of a finished or overrun request goes to a client whose record exists |
| FredSystem.StepLive | fred-server.app/src/fred-linux/srv_core/scheduler_fred.c:214-420 | an event makes live exactly the request it pushes and ends exactly the one whose execution it ends |
| FredSystem.ServerKeeps | fred-server.app/src/fred-linux/srv_core/sw_task_client.c:141-273 | handling any message keeps the protocol state of that client |
| FredSystem.NextKeeps | fred-server.app/src/fred-linux/srv_core/sw_task_client.c:141-273 | every step of clients, server and hardware keeps the composed invariant |
| RcfgWorker.LoadsAreAccepted | zcu102_hwvirt_linux.app/src/kernel-modules/fred-linux-fpga-mgr-fmod/zynqmp-fpga-fmod.c:434-509 | in every interleaving each accepted start is loaded with success at most once, in order, with its own address and size, at most the last still to come or failed |
| RcfgWorker.OnlySuccessIsAnnounced | zcu102_hwvirt_linux.app/src/kernel-modules/fred-linux-fpga-mgr-fmod/zynqmp-fpga-fmod.c:451-509 | where a done notification is pending, about to be sent or just sent, the last load succeeded; only the last load can have failed, exactly if the worker has stopped |
| RcfgWorker.FailureIsFinal | zcu102_hwvirt_linux.app/src/kernel-modules/fred-linux-fpga-mgr-fmod/zynqmp-fpga-fmod.c:468-492 | after a load that failed nothing happens any more: the worker has stopped and the server waits, never notified |
| RcfgWorker.TriesAreAttempts | zcu102_hwvirt_linux.app/src/kernel-modules/fred-linux-fpga-mgr-fmod/zynqmp-fpga-fmod.c:472-486 | the record of loads is that of the steps that load, with what stood in address and size and the outcome they had |
| RcfgWorker.NoStartDiscarded | zcu102_hwvirt_linux.app/src/kernel-modules/fred-linux-fpga-mgr-fmod/zynqmp-fpga-fmod.c:503-505 | reinitialising the completion never discards a start |
| RcfgWorker.StartRefusedIff | zcu102_hwvirt_linux.app/src/kernel-modules/fred-linux-fpga-mgr-fmod/zynqmp-fpga-fmod.c:434-449 | a start is refused exactly when address or size is zero, encryption is on, or the worker has notified but not yet cleared its busy flag |
| RcfgWorker.RefusedAfterDone | zcu102_hwvirt_linux.app/src/kernel-modules/fred-linux-fpga-mgr-fmod/zynqmp-fpga-fmod.c:496-505 | a run in which a start issued after the done notification is refused: notification precedes clearing |
| RcfgWorker.WaitEnds | zcu102_hwvirt_linux.app/src/kernel-modules/fred-linux-fpga-mgr-fmod/zynqmp-fpga-fmod.c:451-509 | while the server waits the worker can step, and a step notifies, is nearer to that, or is a load that fails, which alone stops the worker |
| RcfgWorker.NextKeeps | fred-server.app/src/fred-linux/hw_support/devcfg_drv_fpga_mgr.c:53-91 | every step of server and worker keeps the handshake |
| SchedRcfg.LoadsInOrder | fred-server.app/src/fred-linux/srv_core/devcfg.c:129-154 | scheduler and kernel together: the firmware loads that succeed are the bitstreams of the scheduler's programmings, in order, missing at most the last, none when the port is idle |
| SchedRcfg.FabricIsRight | zcu102_hwvirt_linux.app/src/kernel-modules/fred-linux-fpga-mgr-fmod/zynqmp-fpga-fmod.c:483-492 | whenever a slot executes, the last bitstream loaded for it with success is that of the hw-task its request asked for |
| SchedRcfg.MovePort | fred-server.app/src/fred-linux/srv_core/scheduler_fred.c:115-119 | only the service of a request that needs reconfiguration adds a load and occupies the port |
| SchedRcfg.MoveConfigures | fred-server.app/src/fred-linux/srv_core/slot.h:111-119 | and changes a slot's configuration, that slot's only |
| SchedRcfg.NextKeeps | fred-server.app/src/fred-linux/srv_core/devcfg.c:129-154 | every step of scheduler and kernel keeps the coupling |
| FredFabric.RunsWhatWasAsked | fred-server.app/src/fred-linux/srv_core/sw_task_client.c:213-253 | clients, scheduler and kernel together: whatever slot executes does so for a client that waits, and the last bitstream loaded for it with success is that of the hw-task the client's last RUN named |
| FredFabric.JointHolds | fred-server.app/src/fred-linux/srv_core/sw_task_client.c:141-273 | the three together keep what is proved of clients with scheduler and of scheduler with kernel |
| FredFabric.NextKeeps | fred-server.app/src/fred-linux/srv_core/devcfg.c:129-154 | every step of clients, server, hardware and kernel keeps the joint invariant |
| FredFabric.EventPort | fred-server.app/src/fred-linux/srv_core/scheduler_fred.c:72-122 | an event adds at most one load, that of the request it leaves at the port, and none while the port stays busy |
| FredFabric.EventTasks | fred-server.app/src/fred-linux/srv_core/sw_task_client.c:240-242 | an event binds the request it pushes to its hw-task and changes no other binding |
| FredFabric.LinkKeeps | fred-server.app/src/fred-linux/hw_support/devcfg_drv_fpga_mgr.c:53-91 | an event that programs finds the driver idle, and leaves it with that bitstream as the only one not yet accepted |
| RtDagGraph.GetInputTasks | fred-lib.app/src/rtdag/src/task_set.h:113-121 | the predecessors in ascending order |
| RtDagGraph.GetOutputTasks | fred-lib.app/src/rtdag/src/task_set.h:103-111 | the successors in ascending order |
| RtDagGraph.TaskSet.constructor | fred-lib.app/src/rtdag/src/task_set.h:157-200 | each task's input edges are those of its predecessors in order, numbered by position; each task's output edges are those to its successors in order |
| RtDagGraph.TaskSet.WireInputs | fred-lib.app/src/rtdag/src/task_set.h:179-194 | one destination's inner loop adds its input edges and appends each to its source's outputs, at the end |
| RtDagGraph.WiredAsBuilt | fred-lib.app/src/rtdag/src/task_set.h:157-200 | the wiring is consistent for every matrix: outputs and inputs name each other one to one |
| RtDagGraph.PredIs | fred-lib.app/src/rtdag/src/task_set.h:113-121 | a task's j-th input is a predecessor, with j predecessors below it |
| RtDagGraph.SuccIs | fred-lib.app/src/rtdag/src/task_set.h:103-111 | a task's k-th output is a successor, with k successors below it |
| RtDagGraph.Between | fred-lib.app/src/rtdag/src/task_set.h:619-765 | in an acyclic graph with one source and one sink, what never grows along an edge lies between its values at sink and source |
| RtDagTheorems.AlwaysLockstep | fred-lib.app/src/rtdag/src/task_set.h:619-765 | in every interleaving started iterations differ by at most one, after the source's k-th start-time push every edge has been pushed and popped at least k-1 times, and a thread inside an iteration, pushes included, never blocks |
| RtDagTheorems.CountersDiffer | fred-lib.app/src/rtdag/src/task_set.h:619-765 | completed iterations of two threads differ by at most one, their loop counters by at most two, and by two exactly while the sink's counter lies strictly between them; a counter below the sink's is one below it, its thread having nothing left to do in the iteration but to leave it |
| RtDagGap.CountersTwoApart | fred-lib.app/src/rtdag/src/task_set.h:619-765 | on a chain of three tasks run at least twice some interleaving reaches loop counters 2, 0 and 1 |
| RtDagGap.ChainExists | fred-lib.app/src/rtdag/src/task_set.h:157-200 | there is such a chain for every number of iterations and all start times |
| RtDagTheorems.RaceFree | fred-lib.app/src/rtdag/src/task_set.h:646-710 | in no interleaving does a thread stand at the read of an input while the producer of that input stands at the write of its buffer, so the two copies never overlap |
| RtDagTheorems.ReadsWhatWasSent | fred-lib.app/src/rtdag/src/task_set.h:646-710 | so whatever is read in iteration i is the message of iteration i of that input's producer, or none from a FRED task, although it writes before its push could block |
| RtDagTheorems.ResponseUsesItsStart | fred-lib.app/src/rtdag/src/task_set.h:730-741 | the k-th start time the sink pops is the k-th the source pushed |
| RtDagTheorems.NoDeadlock | fred-lib.app/src/rtdag/src/task_set.h:619-765 | until every thread has finished some thread can go on |
| RtDagTheorems.AllRunsEnd | fred-lib.app/src/rtdag/src/task_set.h:619-765 | a run stops exactly when all iterations are done, after the same number of steps in every order |
| RtDagTheorems.EndsClean | fred-lib.app/src/rtdag/src/task_set.h:619-765 | at the end all queues are empty, every input of every iteration was read and the start times were popped in order |
| RtDagTheorems.StepKeeps | fred-lib.app/src/rtdag/src/task_set.h:619-765 | every step of every thread keeps the invariant |
| RtDagTheorems.StepLeft | fred-lib.app/src/rtdag/src/task_set.h:626-765 | every step uses up exactly one of the remaining steps |
| RtDagRun.Lockstep | fred-lib.app/src/rtdag/src/task_set.h:619-765 | the started iterations of every thread lie between the sink's finished ones and one more |
| RtDagRun.PushNeverBlocks | fred-lib.app/src/rtdag/src/task_set.h:708-710 | a data push finds its cell empty |
| RtDagRun.NoOverlap | fred-lib.app/src/rtdag/src/task_set.h:646-710 | a consumer at the read of an input keeps the input's producer away from the matching write |
| RtDagQueues.QueuesRefineCells | fred-lib.app/src/rtdag/src/multi_queue.h:57-93 | with every queue operation taken apart into its mutex, condition-variable and memory steps the DAG still only does what it does over one-place cells, and a cell is full exactly when its bit is set |
| RtDagQueues.SomeThreadGoesOn | fred-lib.app/src/rtdag/src/task_set.h:619-765 | no deadlock at that level: unless all threads have done all iterations and are out of all queues, one can take a step other than a spurious wakeup |
| RtDagQueues.AllDone | fred-lib.app/src/rtdag/src/task_set.h:811-816 | so the threads come to a stop exactly when all iterations are done |
| RtDagQueues.PushesNeverWait | fred-lib.app/src/rtdag/src/multi_queue.h:57-75 | no push of a message ever waits: no thread is asleep, woken or back from a wait in one, waiting[] is zero, and one that tests its cell finds it empty |
| RtDagQueues.RaceFreeOverQueues | fred-lib.app/src/rtdag/src/task_set.h:646-710 | at that level too no thread stands at the read of an input while its producer stands at the write of its buffer |
| RtDagStops.RunsAreBounded | fred-lib.app/src/rtdag/src/task_set.h:619-765 | every run at that level is bounded by the work to do and the spurious wakeups in it, and where nothing but these can happen all iterations are done |
| RtDagStops.ActPays | fred-lib.app/src/rtdag/src/multi_queue.h:57-93 | every mutex, condition-variable, memory and task step lowers what is owed; a spurious wakeup raises it by three |
| RtDagStops.GoPays | fred-lib.app/src/rtdag/src/multi_queue.h:57-93 | within a queue the thread that steps pays, and enough to send back to sleep the thread it wakes |
| RtDagStops.OwedLow | fred-lib.app/src/rtdag/src/multi_queue.h:57-93 | what is owed is never below zero |
| RtDagQueues.TakeKeeps | fred-lib.app/src/rtdag/src/multi_queue.h:57-93 | every such step keeps queues and DAG in agreement |
| RtDagQueues.UnblockedEnabled | fred-lib.app/src/rtdag/src/multi_queue.h:60-81 | an operation the queue does not block is one the DAG can take |
| RtDagQueues.EnabledUnblocked | fred-lib.app/src/rtdag/src/multi_queue.h:60-81 | and the other way round |
| RtDagRun.ReadIsFresh | fred-lib.app/src/rtdag/src/task_set.h:646-655 | a consumer about to read sees its producer's message of the same iteration |
| MultiQueue.MaskBit | fred-lib.app/src/rtdag/src/multi_queue.h:60-68 | bit i of the mask says whether cell i is filled |
| MultiQueue.MaskSet | fred-lib.app/src/rtdag/src/multi_queue.h:67-68 | setting bit i fills cell i and no other |
| MultiQueue.MaskFull | fred-lib.app/src/rtdag/src/multi_queue.h:69-81 | the mask is (1 << n) - 1 exactly when all n cells are filled |
| MultiQueue.FitsInt | fred-lib.app/src/rtdag/src/multi_queue.h:60-81 | up to 30 inputs no mask and no 1 << n leaves the range of an int |
| MultiQueue.MultiQueue.constructor | fred-lib.app/src/rtdag/src/multi_queue.h:27-53 | an empty mask and no waiters |
| MultiQueue.MultiQueue.PushPass | fred-lib.app/src/rtdag/src/multi_queue.h:57-75 | one pass of push under the mutex: back to sleep, counted, if the cell is filled; else stored, with 1 returned exactly when that filled the last cell |
| MultiQueue.MultiQueue.PopPass | fred-lib.app/src/rtdag/src/multi_queue.h:78-93 | one pass of pop: nothing unless all cells are filled; else the whole row, an empty mask and a signal to each input with waiters |
| MultiQueueThreads.OnePlaceCells | fred-lib.app/src/rtdag/src/multi_queue.h:57-93 | in every interleaving of any number of threads, bit i is set exactly when input i has one push not yet popped, never more, and the mask is full exactly when all have |
| MultiQueueThreads.PopsArePushes | fred-lib.app/src/rtdag/src/multi_queue.h:57-93 | the k-th pop returns the k-th push of every input |
| MultiQueueThreads.SleepersHaveReason | fred-lib.app/src/rtdag/src/multi_queue.h:60-92 | no lost wakeup: a sleeper that could go on has a thread on its way, and when no thread can step every sleeper sleeps for a reason |
| MultiQueueThreads.PushSteps | fred-lib.app/src/rtdag/src/multi_queue.h:57-75 | an undisturbed push does to the queue in steps what the method does in one pass, down to the signal |
| MultiQueueThreads.PopSteps | fred-lib.app/src/rtdag/src/multi_queue.h:78-93 | an undisturbed pop does in steps what the method does in one pass |
| MultiQueueThreads.WaitingIsExact | fred-lib.app/src/rtdag/src/multi_queue.h:60-66 | waiting[i] is the number of producers inside a wait on input i |
| MultiQueueThreads.StepKeeps | fred-lib.app/src/rtdag/src/multi_queue.h:57-93 | every mutex, condition-variable and memory step keeps the invariant |
| MultiQueueThreads.HelpStays | fred-lib.app/src/rtdag/src/multi_queue.h:60-92 | no signal, wakeup or re-acquisition takes help from a sleeper that needs it |
| MultiQueueThreads.SomeoneGoesOn | fred-lib.app/src/rtdag/src/multi_queue.h:57-93 | unless all are out or asleep a thread can step |
| Gauss.Invert | fred-lib.app/src/rtdag/src/hellogauss.h:53-110 | for every n x n matrix: all chosen pivots are nonzero exactly when the matrix is invertible, and then out is its inverse on both sides |
| Gauss.GoForward | fred-lib.app/src/rtdag/src/hellogauss.h:66-98 | the first loop ends with a unit upper triangular matrix, or stops at a column without pivot, which shows the input singular |
| Gauss.GoBackward | fred-lib.app/src/rtdag/src/hellogauss.h:100-109 | the second loop ends with the identity |
| Gauss.FindPivot | fred-lib.app/src/rtdag/src/hellogauss.h:67-73 | a row from i down with the largest absolute entry in column i |
| Gauss.Pivot | fred-lib.app/src/rtdag/src/hellogauss.h:67-84 | after the exchange out still takes the input to m, and a zero pivot means the column is zero from row i down |
| Gauss.SwapRows | fred-lib.app/src/rtdag/src/hellogauss.h:75-81 | rows i and imax exchanged in both arrays, all else kept |
| Gauss.ScaleRow | fred-lib.app/src/rtdag/src/hellogauss.h:83-88 | row i divided in both arrays, all else kept |
| Gauss.SubRow | fred-lib.app/src/rtdag/src/hellogauss.h:90-97 | f times row i taken from row k in both arrays, all else kept |
| Gauss.ClearBelow | fred-lib.app/src/rtdag/src/hellogauss.h:90-97 | column i becomes that of a unit upper triangular matrix, and out still takes the input to m |
| Gauss.ClearAbove | fred-lib.app/src/rtdag/src/hellogauss.h:100-109 | nothing is left above the diagonal from column i on, and out still takes the input to m |
| Gauss.Normalise | fred-lib.app/src/rtdag/src/hellogauss.h:83-88 | the pivot becomes one, and out still takes the input to m |
| Gauss.LinkedInverse | fred-lib.app/src/rtdag/src/hellogauss.h:53-110 | the loop invariant with m the identity makes out the inverse on both sides |
| Gauss.LinkedSingular | fred-lib.app/src/rtdag/src/hellogauss.h:53-110 | a zero pivot shows the input to have no inverse |
| Gauss.BackSubst | fred-lib.app/src/rtdag/src/hellogauss.h:66-98 | a column without pivot gives a nonzero vector that m annihilates |
| Gauss.IndexApart | fred-lib.app/src/rtdag/src/hellogauss.h:12 | gauss_at: different entries have different positions |
| Gauss.Set | fred-lib.app/src/rtdag/src/hellogauss.h:12 | writing an entry changes that entry of the matrix only |
| Gauss.Copy | fred-lib.app/src/rtdag/src/hellogauss.h:45-51 | the copied matrix, also onto itself |
| Gauss.SetIdentity | fred-lib.app/src/rtdag/src/hellogauss.h:59-64 | out starts as the identity |
| Gauss.Multiply | fred-lib.app/src/rtdag/src/hellogauss.h:121-134 | out is the matrix product |
| Gauss.IsIdentity | fred-lib.app/src/rtdag/src/hellogauss.h:136-157 | true exactly when every entry is within 1e-5 of the identity's |
| Gauss.InvertAndCheck | fred-lib.app/src/rtdag/src/hellogauss.h:53-157 | an inverted matrix multiplied back from either side passes the identity test |
| GaussRows.CombMinus | fred-lib.app/src/rtdag/src/hellogauss.h:90-97 | a row operation commutes with taking combinations of rows |
| GaussRows.CombSub | fred-lib.app/src/rtdag/src/hellogauss.h:90-97 | subtracting a multiple of a row is undone by adding it to the coefficients |
| GaussRows.KillsIsSingular | fred-lib.app/src/rtdag/src/hellogauss.h:53-110 | a matrix that annihilates a nonzero vector has no inverse |

## Left out

- Sockets, the event reactors, UIO and sysfs access, registers, logging, buffer
  allocation and mapping: I/O. Their outcomes are parameters.
- Configuration: parsing, layout construction, YAML, conversion scripts, device
  trees. The layout is given.
- SCHED_DEADLINE, periods, calibration and measured durations of rt-dag: wall-clock
  time. The source's start times are a parameter; response times are identified
  by the start time they use.
- The copying code of FRED tasks in rt-dag; a FRED task's buffers stay as they are,
  and process mode is not modelled.
- gauss_transpose and the OpenCL variants are not modelled.
- Gauss.Invert: over the reals, without rounding or overflow; where the source
  divides by a zero pivot the model stops and reports it.
- MultiQueueThreads.OnePlaceCells: the mask is a natural number; `FitsInt` shows that
  up to 30 inputs it stays within an int, beyond that nothing is claimed of the
  source.
- FredSystem.AccelIsOneInFlight: a connection that breaks, or a message cut short,
  is not modelled in the composed system; `FredData` and `ProcessMsg` cover what a
  call and the server then do.
- FredClient.SwTaskClient.ProcessMsg: the scheduler's handling of a RUN by a client
  whose request is live, which the library never sends (`LiveIsNeverPushed`), is not
  modelled; nor are the arguments of the accelerator (buffer addresses).
- FredClient.SwTaskClient.RunTask: likewise.
- FredFabric.RunsWhatWasAsked: a handler is one step there, with the kernel running
  between handlers; the server writes a reconfiguration to the kernel at the end of
  one.
- MultiQueue.MultiQueue.constructor: failing allocations are not modelled.
- RcfgWorker.LoadsAreAccepted: stopping the kernel thread and other users of the
  FPGA manager are not modelled.
