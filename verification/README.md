# Verification of the broker, the readers/writers server and the shutdown protocol

This project models the three concurrent programs of the repository and proves
what they promise, for any number of threads, any sizes and every interleaving:

- the publish/subscribe broker (`practica4/proxy_broker.c`): its topic tables,
  its three delivery modes, and the hand-made barrier of the JUSTO mode;
- the readers/writers server (`practica3/proxy.c`, `practica3/server.c`): the
  admission of requests with a priority and a ratio, and the slot table that the
  accepting thread and the workers share;
- the shutdown protocol with Lamport clocks (`practica2/proxy.c`): filtered
  receiving over one or two channels, and the whole run of three processes.

## How it is built

The concurrent parts are state machines: a `State`, an `Action` for each statement
or mutex or condition-variable operation that can interleave, `Enabled`, `Apply`,
and `CanRun`/`Run` over lists of actions. A lemma about `Run` therefore speaks of
every schedule. `Justo.Apply` is practica4/proxy_broker.c:211-249 and 284-307,
`Admission.Apply` is practica3/proxy.c:225-352, `Slots.Apply` is
practica3/proxy.c:45-117 and 384-386 with practica3/server.c:66-78, and
`Shutdown.Apply` is practica2/proxy.c:24-143 and 174-222.

The code that updates tables and counters in place is imperative: the classes
`Broker.Broker`, `Server.Server`, `SlotTable.SlotTable` and `Processes.Process` keep
the program's variables and arrays, and each method is proved against the step or
the function that specifies it. The variables of `Server.Server` and
`SlotTable.SlotTable` always stand for a reachable state of their machine, so what is
proved of those holds of the variables: indices are in bounds, counters stay in theirs.

| files | content |
|---|---|
| `Options.dfy`, `Counting.dfy` | an option type; weighted sums over sequences |
| `Justo.dfy`, `Barrier.dfy`, `BarrierLimits.dfy`, `BarrierCompletion.dfy` | the JUSTO machine, its guarantees, and the exact conditions for its safety and for its completion |
| `DeliveryModes.dfy` | total order, PARALELO, and the agreement of the modes |
| `Registry.dfy`, `History.dfy`, `Broker.dfy` | the abstract registry, histories of operations, the tables with arrays |
| `Admission.dfy`, `AdmissionRuns.dfy`, `Overtaking.dfy`, `OvertakingLimits.dfy`, `Writers.dfy`, `Exclusion.dfy`, `Server.dfy` | admission, progress, bounded overtaking and its exact limits, linear writers, when readers and writers exclude each other, the imperative sections |
| `Slots.dfy`, `SlotRuns.dfy`, `SlotTable.dfy` | the slot machine, its guarantees, the imperative table |
| `FilteredReceive.dfy`, `LamportClock.dfy`, `Processes.dfy` | greedy matching against a table of clocks; the clock rule; what a schedule of polls takes, and the receive loops |
| `Shutdown.dfy`, `ShutdownRuns.dfy` | the shutdown machine and its runs |

`dafny verify dfyconfig.toml` checks the whole project.

## Assumptions

The programs rely on the following and do not enforce it.

- Condition variables: no spurious wake-ups, and a signal wakes at most one waiter.
  The waits of the programs use `if` or no test at all.
- Admission: releasing the mutex of the counters and starting to wait is one step.
  The program releases it first (practica3/proxy.c:235-237 and 244-246), so a signal
  sent in between is lost.
- Admission: the exit section is one step. It holds the mutex of the counters, and of
  what other threads change without it only the ratio counter matters. The lines 307 and
  313 of practica3/proxy.c may both read it, but only one of the two reads can affect the
  branch, the first for a reader and the second for a writer, and it is reset at most
  once, so an entry that falls in between has the same effect as one just before or just
  after.
- Plain integer accesses are atomic, including `ratio_counter++` and its reset.
- Broker: register, unregister and publish are each atomic. Only register takes a mutex
  (practica4/proxy_broker.c:518-659).
- Channels are reliable and FIFO and carry whole messages. At end of file a receive
  succeeds and leaves the buffer unchanged. The two sends of one SHUTDOWN_NOW are one step.
- File descriptors are non-zero and not open when they are handed out; in the broker
  every connection has a descriptor of its own.

MAX_TOPICS, MAX_SUBSCRIBERS, MAX_PUBLISHERS, MAX_THREADS, the ratio, the priority and
all numbers of threads are symbolic.

## Where the code and its documentation differ

- The comments at practica2/P2.c:6 and practica2/proxy.c:84 say that P2 receives
  READY_TO_SHUTDOWN from both clients. It answers the first one
  (`ShutdownRuns.AnswersTheFirst`).
- A topic that exists is refused when the topic table is full, because the limit is
  tested before the name is looked up (practica4/proxy_broker.c:393-416). The model does
  the same (`Broker.Broker.CreateTopic`).
- The text at practica4/proxy_broker.c:236-237 says that there are no races after the
  barrier. There is none while the subscriber count equals the snapshot of the publisher.
  A client that registers between the snapshot and a thread's test leaves the publish
  stuck (`BarrierLimits.OversizedNeverSends`). One that leaves can let a thread send early
  (`BarrierLimits.BarrierHoldsIffCountCovers`), and can leave a thread waiting for ever
  and with it the publisher and all later publishes, unless the count drops to one or
  zero (`BarrierCompletion.AlwaysCompletesIff`).
- The update rule of the clock (practica2/proxy.c:63-66 and 123-126) does not move it for a
  message that carries exactly the receiver's clock, so such a receive is not later than
  its send (`LamportClock.TieExample`; `LamportClock.PastAllIffNoTie` says exactly when the
  clock is past everything accepted). In the shutdown protocol it never happens
  (`ShutdownRuns.AcceptedIsAhead`).
- A request locks the data mutex "if you are a reader without priority and there are
  writers or if you are a writer" (practica3/proxy.c:253). The code does not look at the
  priority, and a reader that found no writer counted can overlap one
  (`Writers.ReaderMayOverlapWriter`; `Exclusion.ExcludesIff` says exactly when).

## Model

| member | source | states |
|---|---|---|
| Justo.StepBase | practica4/proxy_broker.c:211-249 | every step of every thread, also of a client that changes the subscriber count, keeps `just_threads` equal to the number of waiting, woken and counted threads, the mutex with its holder, and the log in order of publish |
| Justo.RunBase | practica4/proxy_broker.c:284-307 | the same over every run of any number of publishes |
| Barrier.NoSendBeforeAllArrive | practica4/proxy_broker.c:220-239 | over every run in which the subscriber count never drops below the snapshot of the publish in progress, no thread is past the barrier before all threads of its publish have arrived |
| Barrier.Progress | practica4/proxy_broker.c:224-249 | while a publish is in progress some thread of it, or the publisher, can take a step |
| Barrier.StepLive | practica4/proxy_broker.c:231-238 | whoever waits will be broadcast to: some thread has still to test or to broadcast |
| Barrier.EveryPublishCompletes | practica4/proxy_broker.c:284-307 | a publish to n subscribers whose count stays n takes at most 11n + 1 steps under every interleaving, and where no step is left all n have sent once to the descriptors handed out, the counter is 0, the mutex is free and nobody waits |
| BarrierLimits.OversizedNeverSends | practica4/proxy_broker.c:231-234 | if the count compared exceeds the snapshot, no run of the publish sends anything or ends |
| BarrierCompletion.AlwaysCompletesIff | practica4/proxy_broker.c:231-240 | for every number n of threads and every compared count m: under every schedule a publish that can take no more step has ended, if and only if n is 0, m equals n, or m is at most 1; in every other case some schedule leaves a thread waiting for ever |
| BarrierCompletion.CanCompleteIff | practica4/proxy_broker.c:231-240 | some schedule completes the publish if and only if n is 0 or m is at most n |
| BarrierCompletion.CompletesThroughChanges | practica4/proxy_broker.c:231-240 | with clients coming and going during the publish, as long as the count equals the snapshot whenever a thread compares, it takes at most 11n + 1 steps and where it can take no more it has ended |
| BarrierCompletion.HungForever | practica4/proxy_broker.c:284-307 | whatever the count did before, a publish that can take no step and has not ended has only waiting and finished threads, and no later change of the count helps: nothing is ever sent again, by it or by any later publish |
| BarrierLimits.BarrierHoldsIffCountCovers | practica4/proxy_broker.c:231-248 | for two or more threads, no interleaving sends before all have arrived if and only if the compared count is at least the number of threads |
| DeliveryModes.TotalOrder | practica4/proxy_broker.c:284-307 | JUSTO is a total-order broadcast: any two subscribers that receive two messages receive them in the same order, across publishers and topics, whatever the subscriber counts do |
| DeliveryModes.ParallelPermutesSequential | practica4/proxy_broker.c:192-209 | PARALELO under every schedule, handing out the descriptors of a list in order, sends, once nobody is left to run, a permutation of what SECUENCIAL sends to that list |
| DeliveryModes.JustoPermutesSequential | practica4/proxy_broker.c:284-307 | the same for JUSTO when the subscriber count does not change, with the counter back at 0 and nobody waiting |
| DeliveryModes.ModesAgree | practica4/proxy_broker.c:267-307 | for any state of the registry, any topic and any message: SECUENCIAL sends to the topic's subscribers in order of registration, and JUSTO and PARALELO, each under any schedule of its own, a permutation of that |
| Registry.AddedOk | practica4/proxy_broker.c:535-555 | a registration appends one client with the next id, and every id stays listed under its topic or gone, lists ascending, descriptors unique |
| Registry.RemovedOk | practica4/proxy_broker.c:139-149 | an unregistration removes just the client named, keeps the order of the others, and keeps the same accounts |
| Registry.OnePlace | practica4/proxy_broker.c:7 | an id, or a descriptor, names one place in all topics |
| History.DoOk | practica4/proxy_broker.c:528-627 | every register, unregister and publish keeps the accounts of both kinds, the two tables on the same topics, and both limits |
| History.ReceivesExactlyItsTopic | practica4/proxy_broker.c:171-190 | after any history, a subscriber that registers has received at any later time exactly the payloads published on its topic since, once each and in order |
| History.ReceivesExactlyItsLifetime | practica4/proxy_broker.c:128-190 | over its whole life, and whatever follows, a subscriber receives exactly what was published on its topic between its registration and its unregistration |
| History.DeliveredOnce | practica4/proxy_broker.c:182-189 | one sequential send reaches each descriptor of the list exactly once |
| History.IdsAccountedFor | practica4/proxy_broker.c:539-608 | over every history, live and gone ids of each kind together are exactly those issued and never overlap, each list is ascending by id, and live publishers never exceed the limit |
| Broker.ShiftClientList | practica4/proxy_broker.c:62-75 | the shift loops turn a topic's row into itself without the first cell of that id, followed by whatever lies past the array, and touch no other row; if no cell has the id nothing changes |
| Broker.ShiftedPrefix | practica4/proxy_broker.c:73-75 | for an id of the live prefix, the shifted row begins with the prefix without that client, whatever the other cells and the cell past the array hold |
| Broker.DeleteClient | practica4/proxy_broker.c:38-126 | on a live prefix the shift deletes just the named client and reports that client's descriptor |
| Broker.Broker.constructor | practica4/proxy_broker.c:7-11 | the broker starts as the empty registry, publisher ids at 0 and subscriber ids at 1 |
| Broker.Broker.GetTopicId | practica4/proxy_broker.c:21-30 | the first index with that name, or the number of topics |
| Broker.Broker.CreateTopic | practica4/proxy_broker.c:391-417 | 1 and no change when the table is full, 2 and no change when the name is there, else 0 and one empty topic appended; names stay distinct |
| Broker.Broker.CountClient | practica4/proxy_broker.c:641-652 | the loop after the response adds one to the count of that kind in the topics of that name, and changes no other count |
| Broker.Broker.EnrollSubscriber | practica4/proxy_broker.c:535-555 | the new subscriber becomes the last of its topic's list with the next id, exactly one topic is counted up, and counts keep matching the live prefixes |
| Broker.Broker.EnrollPublisher | practica4/proxy_broker.c:589-609 | the same for a publisher |
| Broker.Broker.Register | practica4/proxy_broker.c:528-571 | the registration of a subscriber on the arrays is the abstract one: with a full topic table ERROR and no change, else OK, the next id, and a place at the end of its topic's list, all other lists and the indices of the topics unchanged |
| Broker.Broker.RegisterAsPublisher | practica4/proxy_broker.c:573-627 | the registration of a publisher on the arrays is the abstract one: ERROR and no change for an unknown topic, LIMIT and no change when the ids are used up, else OK, the next id, and a place at the end of its topic's list, all else unchanged |
| Broker.Broker.Unregister | practica4/proxy_broker.c:128-149 | an unregister of a live id is the abstract one: the client leaves its list, the others keep their order, nothing else changes, and the client's own descriptor gets the answer |
| Broker.Broker.SendSequential | practica4/proxy_broker.c:171-190 | the loop sends one message to each live subscriber of the topic in array order |
| Broker.Broker.PublishMessage | practica4/proxy_broker.c:251-268 | a publish in SECUENCIAL mode on the arrays is the abstract publish |
| Broker.RegisterRefines | practica4/proxy_broker.c:528-555 | creating the topic if needed and appending the subscriber is what the abstract registry does |
| Broker.UnregisterRefines | practica4/proxy_broker.c:139-149 | dropping the client from one entry is what the abstract registry does |
| Admission.SignalsSomeone | practica3/proxy.c:307-341 | while any request remains counted, the exit decision signals a class that has one, and not by its default branch |
| Admission.StepTallied | practica3/proxy.c:225-251 | every step keeps `current_readers` and `current_writers` equal to the counted readers and writers, somebody past admission whenever somebody waits, and at most two past admission unless the ratio is 0 |
| Admission.ExitTallied | practica3/proxy.c:297-341 | the exit section keeps the same, whichever of the nine branches it takes |
| AdmissionRuns.ReachableTallied | practica3/proxy.c:225-341 | the same in every reachable state, for any number of requests, any priority and any ratio |
| AdmissionRuns.WaitsIff | practica3/proxy.c:225-251 | in every reachable state a request waits on entry if and only if the ratio is not 0 and another of its class is counted, or two of the other class are |
| AdmissionRuns.NoStrandedRequest | practica3/proxy.c:225-251 | in every reachable state, if a request waits, some counted request does not |
| AdmissionRuns.LastActiveHandsOver | practica3/proxy.c:307-341 | the exit of the last request past admission always wakes a request when any waits |
| AdmissionRuns.DefaultUnreachable | practica3/proxy.c:338-341 | no reachable exit takes the default branch |
| Overtaking.Choice | practica3/proxy.c:307-341 | when the ratio is used up and the other class is counted, the exit signals the other class and restarts the ratio counter; else it signals the priority class if it is counted, otherwise whichever is, and with nobody counted the other class |
| AdmissionRuns.AtMostTwoActive | practica3/proxy.c:232-251 | unless the ratio is 0, of any three requests one is not past admission |
| AdmissionRuns.ReachableMutex | practica3/proxy.c:254-258 | the data mutex is held exactly by the one request that locked it and is in the region, and every writer in the region holds it |
| AdmissionRuns.EveryRequestAnswered | practica3/proxy.c:225-352 | from every reachable state under every schedule the requests present take at most eleven steps each, and where no step is left all are answered and both counters are 0 |
| Overtaking.BoundedOvertaking | practica3/proxy.c:262-341 | while no second request is let in beside the one past admission, from the moment a non-priority request waits at most `ratio` priority requests enter before a non-priority one does (one, if the ratio is negative) |
| Overtaking.NoTwoInARow | practica3/proxy.c:307-341 | in such a stretch no non-priority request enters after another one while a priority request waits |
| OvertakingLimits.BoundIsReached | practica3/proxy.c:262-341 | for both priorities and every positive ratio there is a reachable state and such a stretch in which exactly `ratio` priority requests enter and no other one does |
| OvertakingLimits.WideRunsHaveNoBound | practica3/proxy.c:225-251 | outside such stretches there is no bound: for every ratio and every k, k readers can enter before a writer that waited before any of them arrived |
| Overtaking.NewcomerWaits | practica3/proxy.c:232-251 | beside a lone request whoever arrives waits, as long as the stretch stays narrow |
| Writers.WritersAreLinear | practica3/proxy.c:275-293 | writers print the initial value plus 1, plus 2, and so on, in the order in which they locked the mutex, and the counter is the initial value plus the writers past the increment |
| Writers.ResponsesAreFresh | practica3/proxy.c:346-352 | the counter in a response lies between the value its request printed and the present one, and a writer's printed value is the one logged for it |
| Writers.ShownIsCurrent | practica3/proxy.c:292-352 | what any request prints, reader or writer, and what any response carries, is the initial value plus the writers past the increment at that moment |
| Writers.ReaderMayOverlapWriter | practica3/proxy.c:254-258 | for every priority and ratio there is a reachable state with a reader in the region and a writer past its increment |
| Exclusion.ExcludesIff | practica3/proxy.c:254-258 | for every reachable state and every reader about to decide on the mutex: no schedule brings a writer into the region beside it, if and only if a writer is counted, or it is alone past admission while others wait and the ratio is not 0 |
| Exclusion.OnlyUnlockedOverlap | practica3/proxy.c:254-258 | whoever is in the region together with a writer is a reader that did not take the mutex; two writers never are |
| Server.Server.constructor | practica3/proxy.c:17-23 | the counters start at 0 and the variables stand for the initial state |
| Server.Server.Enter | practica3/proxy.c:225-251 | the entry section counts the request, makes it wait exactly when the ratio is not 0 and a counter is above 1, and is the step `Enter`; a request that waits finds one past admission |
| Server.Server.Choose | practica3/proxy.c:254-258 | a request takes the data mutex if it is a writer or a writer is counted; for a reader that decides, as `Exclusion.ExcludesIff` says, whether a writer can ever join it |
| Server.Server.Rank | practica3/proxy.c:262-268 | the ratio counter goes up by one for a priority request and to 0 for another; nothing else changes |
| Server.Server.Work | practica3/proxy.c:275-283 | the counter goes up by one for a writer and not for a reader; it is the initial value plus the prints and the writer between increment and print |
| Server.Server.Show | practica3/proxy.c:292-293 | the value printed is the shared counter, for reader and writer: the initial value plus the writers past the increment; for a writer also the number of writers that have printed, itself included |
| Server.Server.CountOut | practica3/proxy.c:299-341 | the decrement and the nine branches: when the ratio is used up and the other class is counted, the other class is signalled and the ratio counter is 0; else the ratio counter stays, and the priority class is signalled if counted, otherwise whichever is, and with nobody counted the other class |
| Server.Server.Exit | practica3/proxy.c:297-343 | the exit section does what `CountOut` says and is the step `Exit`: the counters stay non-negative, the class signalled has a request while any is counted, the last request past admission wakes another if any waits, and when none is woken nobody waits in the class signalled |
| Server.Server.Reply | practica3/proxy.c:346-352 | the response carries the shared counter at the time it is filled in, no less than the value printed |
| Slots.LowestFreeIsLowest | practica3/proxy.c:99-107 | the scan's result is the lowest free index, or the size of the table if none is free |
| Slots.StepOk | practica3/proxy.c:88-117 | every step of the accepting thread and of the workers keeps slot ownership, the two counts and the set of open sockets consistent |
| SlotRuns.SlotConservation | practica3/proxy.c:74-111 | used slots are the thread count, plus one if the accepting thread has a slot not yet counted, minus the workers that freed a slot and did not decrement; the count lies between -1 and the size |
| SlotRuns.WaitsIffFull | practica3/proxy.c:93-97 | the accepting thread comes to wait exactly when the count has reached the size of the table, that is when as many workers as slots have not left |
| SlotRuns.Capacity | practica3/server.c:66-78 | the whole table can be used: for every size and every k up to it a state is reachable in which k workers serve, each counted and in a slot of its own |
| SlotRuns.FreeSlotFound | practica3/proxy.c:93-107 | whenever the accepting thread scans, also after its wait, a slot is free and it takes the lowest |
| SlotRuns.IndicesInBounds | practica3/proxy.c:113-117 | every index used with the table is within it |
| SlotRuns.ClosesOwnSocket | practica3/proxy.c:384-386 | a serving worker's slot holds the socket accepted for it, which is open and which no other worker has; closing it closes neither another worker's nor the one that the accepting thread has in hand |
| SlotRuns.ClosedExactlyOnce | practica3/proxy.c:45-54 | the k-th worker has closed the k-th accepted socket if it is past serving, and nothing otherwise; only the accepting thread may have one more |
| SlotRuns.StuckIffIdleOrDead | practica3/server.c:66-78 | a reachable state has no step but a new connection if and only if all workers are gone and the accepting thread is idle or waits |
| SlotRuns.DeadIffLateWait | practica3/proxy.c:93-97 | the accepting thread comes to wait for ever exactly by starting to wait after all workers are gone |
| SlotRuns.DeadIsForever | practica3/proxy.c:93-97 | then no step is possible at all, although the count is 0 and every slot is free |
| SlotRuns.WakeupMayBeLost | practica3/proxy.c:93-97 | for every size of the table such a state is reachable |
| SlotRuns.CountMayBeNegative | practica3/server.c:72-77 | the count -1 is reached, by a worker that finishes before it is counted |
| SlotRuns.CountIsNegativeIff | practica3/server.c:72-77 | the count is -1 exactly while the worker just created and all others have left and the accepting thread has not counted it |
| SlotRuns.EveryConnectionFinishes | practica3/proxy.c:369-392 | without new connections every run has at most 10 + 3 steps a worker, and where it ends all workers are gone and the server is idle or dead |
| SlotTable.SlotTable.ScanTable | practica3/proxy.c:99-107 | the loop marks the lowest free cell and returns its index, or changes nothing and returns the size |
| SlotTable.SlotTable.SetValueFd | practica3/proxy.c:113-117 | one cell gets the value, the others stay |
| SlotTable.SlotTable.SetCurrentThreads | practica3/proxy.c:74-82 | the count changes by the value, and a decrement signals |
| SlotTable.SlotTable.Test | practica3/proxy.c:91-97 | the accepting thread has to wait if and only if the count has reached the size of the table; this is the step `Test` |
| SlotTable.SlotTable.Scan | practica3/proxy.c:99-110 | the scan on the array is the step `Scan`: it always finds a cell, the lowest that was free |
| SlotTable.SlotTable.Store | practica3/proxy.c:45-54 | the index is in bounds and the slot gets the accepted socket |
| SlotTable.SlotTable.Count | practica3/server.c:77 | counting the worker is the step `Count`, and the count stays between 0 and the size |
| SlotTable.SlotTable.Close | practica3/proxy.c:384 | the descriptor read from the worker's slot and closed is the one accepted for that worker, and it is open |
| SlotTable.SlotTable.Free | practica3/proxy.c:385 | the worker's index is in bounds and its slot, and no other, becomes free |
| SlotTable.SlotTable.Leave | practica3/proxy.c:386 | the decrement signals, the count is then at least -1 and below the size, and an accepting thread that it wakes will find a slot |
| FilteredReceive.GreedyIsLeftmost | practica2/proxy.c:52-77 | accepting each expected clock as soon as it appears accepts the leftmost embedding, and the whole table if and only if the table is a subsequence of the stream |
| FilteredReceive.EofAddsIffStale | practica2/proxy.c:54-62 | reading on at end of file adds an acceptance if and only if the stale buffer is the next clock |
| FilteredReceive.FinishesIffEndsSafely | practica2/proxy.c:52-77 | a client finishes exactly on the streams that contain its table, however often it reads at end of file, if and only if the last two clocks of the table differ (or the buffer does not begin with the only one) |
| LamportClock.ClockMoves | practica2/proxy.c:61-66 | over any accepted messages the clock never goes back and reaches each of them; it is past all of them if and only if none was tied; with each message ahead it is just past the last, and its answer; messages neither ahead nor answered leave it; it is 4 and 8 for the clients and 10 for the server |
| LamportClock.PastAllIffNoTie | practica2/proxy.c:123-126 | the clock is past every accepted message if and only if no message found the clock at exactly its own value with nothing moving the clock afterwards |
| LamportClock.TieExample | practica2/proxy.c:63-66 | a message 3 accepted at clock 3 leaves the clock at 3 |
| LamportClock.AnswersFollow | practica2/proxy.c:203-207 | one answer for each accepted 1 or 5, with increasing clocks; with each message ahead an answer carries its clock plus two; over 1, 5, 9 the answers carry 3 and 7 |
| Processes.Process.Accept | practica2/proxy.c:63-66 | the clock goes to the message's plus one if the message is ahead, else it stays |
| Processes.Process.ClientReceive | practica2/proxy.c:38-80 | the client's loop accepts what greedy matching of its reads accepts, and its clock moves at each acceptance by the rule of `Accept`, so that all of `LamportClock.ClockMoves` holds: with table [3] or [7] it ends at 4 or 8 |
| Processes.Process.Poll | practica2/proxy.c:299-327 | a poll takes the next message into the buffer exactly when data is ready and there is one; it reports data also at end of file, when buffer and channel stay as they were |
| Processes.Process.ServerReceive | practica2/proxy.c:100-143 | for any two streams and any schedule of polls, the loop takes exactly the messages `Taken` gives for that schedule, in that order, accepts what greedy matching accepts in it (no stale buffer is accepted and no match is overwritten), stops early only with the table complete, moves its clock at each acceptance and answers each 1 and 5, so that all of `ClockMoves` and `AnswersFollow` holds: over 1, 5, 9 from 0 it ends at 10 having answered 3 and 7 |
| Processes.PollsInTurn | practica2/proxy.c:110-119 | after a match the first channel is polled again, so while it has what is awaited the second is not touched; with nothing matching the channels take turns |
| Processes.TakenInOrder | practica2/proxy.c:110-119 | the messages taken from each channel are the beginning of its stream |
| Processes.EnoughPollsTakeAll | practica2/proxy.c:106-141 | whatever the schedule was before, once more than twice as many polls as there are messages have found data ready, the table is complete or both streams are taken whole |
| Processes.EitherStreamSuffices | practica2/proxy.c:106-141 | a table contained in either stream is completed by any such schedule, whatever the other stream holds |
| Processes.Process.Notify | practica2/proxy.c:174-222 | a send moves the clock by one and carries it |
| Processes.Process.Reply | practica2/proxy.c:82-98 | the messages 1 and 5 are answered, others are not |
| Shutdown.StepOk | practica2/proxy.c:38-143 | every step of every process keeps clocks, logs and channels as the protocol has them, and the awaited message in its channel until the server holds it |
| ShutdownRuns.ServerAcceptsExactly | practica2/proxy.c:11-13 | in every run P2 accepts the clocks 1, 5, 9 in this order and nothing else |
| ShutdownRuns.AckOrder | practica2/proxy.c:82-98 | P3 sends its ACK only after P2 has accepted the ACK of P1 |
| ShutdownRuns.AcceptedIsAhead | practica2/proxy.c:123-126 | an accepted message is always ahead of its receiver's clock |
| ShutdownRuns.StampsIncrease | practica2/proxy.c:61-70 | the clocks that a process prints strictly increase |
| ShutdownRuns.ReceivedWasSent | practica2/proxy.c:123-129 | whatever is accepted was logged as sent by its origin, with a smaller clock |
| ShutdownRuns.CompareTicks | practica2/proxy.c:123-132 | an acceptance by P2 moves its clock by the rule of the receive loop, and an answer goes to both clients with the new clock |
| ShutdownRuns.DeliverTicks | practica2/proxy.c:54-66 | a message delivered to a client is dropped, or accepted with the clock moved by the rule of the receive loop |
| ShutdownRuns.ServerFollowsLoop | practica2/proxy.c:100-143 | in every reachable state the clock of P2 and the clocks it has sent are those of its receive loop over what it has accepted |
| ShutdownRuns.ClientFollowsLoop | practica2/proxy.c:38-80 | and so is the clock of a client between its READY and its ACK |
| ShutdownRuns.ShutdownCompletes | practica2/proxy.c:24-30 | every run has at most 14 steps besides fruitless polls, and 14 exactly when the server has finished; then all have stopped with the clocks 5, 9 and 10 |
| ShutdownRuns.NeverStuck | practica2/proxy.c:100-143 | until the server has finished, a step that is no fruitless poll is at most three steps away |
| ShutdownRuns.AnswersTheFirst | practica2/proxy.c:89-96 | P2 can answer one client before the other has started |
| ShutdownRuns.NothingAcceptedUnsentIffCleanBuffer | practica2/proxy.c:103-119 | P2 accepts nothing before a client has started if and only if its receive buffer does not hold the first clock at the start |

## Left out

- Sockets, `select`, signals, printing, option parsing, file output, `clock_gettime` and `nanosleep`: sends are appended to logs, receives take from queues, and what is printed is a record.
- The waiting times in responses, and the latency printed by the subscribers: arithmetic on clocks that are inputs.
- `practica1`, `practica4/Old`, `practica4/proxy_client.c` and the client programs: they only justify that an unregister names a live id and a publish names a topic that exists.
- Failing calls (`send`, `recv`, `pthread_create`): the programs exit.
- The limit of subscribers per broker: `current_subscribers` is never updated (practica4/proxy_broker.c:534), so the model keeps it at 0, and the branch that answers LIMIT to a subscriber is never taken.
- A topic whose subscriber array is full: the program writes past the array, so `History.Permitted` asks for a free cell.
- `next_pub_position` and `next_sub_position`: counted down and never read.
- Register, unregister and publish interleaved with each other below the level of one operation: the program does not protect the tables there. Changes of the subscriber count during a JUSTO publish are modelled.
- The lost wake-up of admission (practica3/proxy.c:235-237): see the assumptions.
- Overtaking.BoundedOvertaking: speaks of stretches in which at most one request is past admission or somebody waits; without that there is no bound (`OvertakingLimits.WideRunsHaveNoBound`).
- Overtaking.NoTwoInARow: the same stretches.
- The order in which waiting requests of one class are woken: any of them may be.
- Integer overflow of ids, clocks and counters.
