# Verified model of the Pregel engine

The repository is a bulk-synchronous-parallel graph engine with an order-book workload. Workers own
partitions of a vertex set; in every superstep a worker drains its bus, dispatches the mail, runs each
vertex that is awake or has mail as a task, collects the outboxes, routes them by owner, flushes and
waits at a barrier. This project models that engine in Dafny and proves what it keeps.

Four layers:

- **Specifications on immutable values**: one superstep as a function on maps (`Bsp`), the four vertex
  programs (`OrderBook`), the shape of the built graph (`GraphBuilder`), the failure detector's record
  (`Heartbeat`).
- **Objects that change step by step as the source's do**, each method proved against those functions:
  `Rdma`, `Bus`, `Worker`, `Coordinator`, `NumaScheduler`, `Vertices`, `GraphBuilder`, `Placement`,
  `Heartbeat`. `GraphEngine` puts them together: build the graph, place its vertices, run.
- **What these functions mean**, told in plain numbers and independently of how they compute it: `BookLaws`,
  `Sends` and `Decisions` for the vertex programs, `GraphShape` and `BuiltStates` for the built graph,
  `Deviation` for the detector.
- **Step systems for the concurrent parts**, one step per atomic operation or locked block, with
  theorems over every interleaving: `QueuePairs` (a delayed channel; `Posters` varies who writes to it), `Barrier`,
  `TaskPool`, `Cluster` (all the buses of a cluster at once).

A run is a sequence of states in which each follows from the one before by an enabled step. Threads
interleave under sequential consistency. Vertex programs are a parameter of the engine
(`Bsp.Program`), as `compute` is virtual in the source; `BookRuns` puts the order book's programs in,
`TradeNumbers`, `Quotes`, `Drift` and `Feeds` prove more about their runs. The order in which a hash map is
iterated is an arbitrary enumeration of its keys, and a new one after every insertion.

Randomness, clocks and task durations are parameters: a venue's noise and the builder's sampled levels
are arbitrary functions, clock readings are arguments. The detector works over real numbers, for every
non-decreasing tail function and every positive square root.

## What turned out not to hold

A lemma exhibits each of these; where a caller can check a condition, another says exactly when the
property does hold.

- The scheduler's `wait_all` can return while a task of its own caller is still queued, if another
  submitter sits between pushing a task and counting it (`TaskPool.WaitAllCanMissOwnTask`). It can be relied on
  exactly when there is only one submitter (`WaitsForAllExactlyIfSole`); what it misses with more is bounded
  (`WaitBound`).
- The coordinator stops when no vertex is awake, although `README.md` of the repository also asks for no
  message in flight. The two differ exactly when some vertex ends the last step halted with mail in its
  outbox (`Coordinators.OverExactlyIfSilent`); in the order book that is a market maker over its limit
  that signals (`BookRuns.BookConvergence`). `EarlyStop.StopsTooEarly` is such a book, with its run from its
  vertices' construction.
- As wired, a queue pair is drained by the worker that wrote to it, so a message for another worker
  never reaches its owner (`ClusterRuns.DrainedByOwner`); with RDMA off it is dropped
  (`ClusterRuns.RemoteLostWithoutRdma`).
- With several posters a write that is due can stay behind one that is not
  (`Posters.TwoPostersCanDelayADueWrite`; at any moment it cannot exactly when the queue is ordered by deadline,
  `QueuePairs.LoopFiltersExactlyIfOrdered`), and `flush` can return while its caller's own write is in
  flight (`Posters.FlushCanMissOwnWrite`): the counter is zero exactly when as many writes are queued or being
  delivered as there are posters that have queued one and not counted it (`QueuePairs.FlushExitsExactly`). Both
  can be relied on in every run exactly when there is only one poster (`Posters.ScanExactExactlyIfSole`,
  `FlushReliableExactlyIfSole`). The counter can also wrap below zero (`QueuePairs.PendingCanWrap`), which by the
  same condition does not mislead the only poster.
- Orders are never told that they traded: fills go to price levels, which pass on prices only
  (`BookRuns.OrdersNeverLearnOfTrades`; the repository's `README.md` says fills also go to market
  makers). A venue never halts, so a book with a venue always runs to its step limit
  (`BookRuns.RunBook`, `GraphEngine.RunEngine`).
- Market makers, the only ones to signal an arbitrage, hear quotes from venues only and take bid and ask from
  the same one, so while venues quote positive bids nobody ever signals (`GraphShape.BuiltBookHasNoArbitrage`),
  not even with one venue's bid above another's ask (`Drift.CrossedAndSilent`). Bids stay positive, and makers
  silent, as long as the noise and the number of supersteps keep within a bound (`Drift.BuiltBidsPositive`,
  `QuietWithinBound`).
- A venue's ask size can depend on the order of its mail (`BookLaws.AskSizeDependsOnMailOrder`), and nothing
  else about it does (`VenueIgnoresMailOrder`). It does not exactly when, of any two asks in the mail that
  improve on the venue's, the worse brings no size and equal ones bring the same
  (`AskSizeFixedExactlyIfHarmonious`).
- An order gives up after eleven idle steps, not ten (`BookLaws.HaltsAfterElevenIdleSteps`).
- Trade identifiers are distinct for identifiers and steps below 2^32 and one edge per order
  (`BookLaws.RunTradeIdsDistinct`), but not beyond (`TradeIdsCollide`, `TradeIdsEqualExactly`,
  `SharedTradeId`).
- An injected failure sets the last heartbeat back by ten timeouts in 32-bit arithmetic, which may wrap
  to less than one. Every later check fails the worker exactly when the setback still exceeds the timeout or is
  by itself long enough to be suspicious at the threshold (`Heartbeat.ReliableExactly`); `SetbackCanWrap` shows a
  setback too short for the one, `ShortSetbackCanDo` one too short for it that does by the other.

## Model

| member | source | states |
|---|---|---|
| Bus.PartitionMap.OwnerOf | message_bus.hpp:19-25 | the owner is one of the workers as long as no override names another, so it can index the outboxes |
| Bus.PartitionMap.Migrate | message_bus.hpp:27-30 | the vertex has the new owner, no other vertex's owner changes, and owners stay workers if the new one is |
| Bus.MessageBus.RoutedByOwner | message_bus.cpp:31-37 | after any batch each outbox has grown by exactly the messages its worker owns, in their order |
| Bus.MessageBus.RoutedConcat | message_bus.cpp:25-37 | batches may be split or joined without changing where anything goes |
| Bus.MessageBus.EnqueueBatch | message_bus.cpp:31-37 | the loop over a batch files every message with the owner of its recipient |
| Bus.MessageBus.AddedBoxes | message_bus.cpp:47-61 | what a flush hands to the network for each worker: its whole box if there is a network and it is another worker, else nothing |
| Bus.MessageBus.Flush | message_bus.cpp:39-62 | the outboxes end empty; the local box is at the end of the inbox, every other box behind what was in flight on its queue pair, and only without RDMA nowhere; what had arrived is untouched |
| Bus.MessageBus.DrainInbox | message_bus.cpp:64-76 | returns the local inbox and then what every queue pair had delivered, and leaves both empty, without touching what is in flight |
| Bus.MessageBus.Alone | message_bus.cpp:31-76 | a cluster of one worker keeps all of its mail, in order |
| Rdma.QueuePair.NetworkPass | rdma_transport.cpp:40-67 | one run of the delivery loop moves a prefix of the queue to the inbox and the completions in order; when the deadlines are ordered what stays is the filter of the writes not due |
| Rdma.QueuePair.PollCq | rdma_transport.cpp:69-75 | takes the oldest completions, as many as asked for or all there are |
| Rdma.QueuePair.DrainReceived | rdma_transport.cpp:83-91 | empties the inbox in order |
| Rdma.RdmaTransport.SendBatch | rdma_transport.cpp:104-117 | posts every message on the destination's pair, the k-th with the k-th number from the operation counter on and a deadline two microseconds after its own clock reading, and touches no other pair; refuses itself and unknown workers |
| Rdma.RdmaTransport.ArrivedMember | rdma_transport.cpp:125-133 | a message has arrived if and only if it is in some pair's inbox |
| Rdma.RdmaTransport.ArrivedPieces | rdma_transport.cpp:125-133 | each pair's inbox is in what has arrived in one piece, behind those of the pairs before |
| Rdma.RdmaTransport.ReceiveAll | rdma_transport.cpp:125-133 | returns everything delivered, pair by pair, and leaves everything in flight alone |
| QueuePairs.FifoExactlyOnce | rdma_transport.cpp:23-91 | in every interleaving the posted messages are drained, in the inbox, in hand and in flight, in that order; completions are a prefix of the posted numbers and never ahead of delivery |
| QueuePairs.PendingCounter | rdma_transport.cpp:31-61 | the pending counter is congruent modulo 2^64 to in flight plus delivered and not yet subtracted minus pushed and not yet counted |
| QueuePairs.FlushExitsExactly | rdma_transport.cpp:77-81 | for any number of posters the counter reads zero if and only if the writes queued or being delivered are as many as the posters that queued one and have not counted it |
| QueuePairs.FlushSafeExactlyIfNobodyUncounted | rdma_transport.cpp:77-81 | when the counter reads zero, nothing is queued or being delivered if and only if no poster is between queueing and counting |
| QueuePairs.FlushExitsExactlyWhenDelivered | rdma_transport.cpp:77-81 | so for the only poster it reads zero if and only if all it posted is delivered and completed |
| Posters.FlushCanMissOwnWrite | rdma_transport.cpp:31-81 | a run with two posters in which flush may return while its caller's own counted write is in flight |
| QueuePairs.PendingCanWrap | rdma_transport.cpp:31-61 | a run after which the unsigned counter stands at its maximum |
| QueuePairs.ReaderTakes | rdma_transport.cpp:69-91 | draining takes the whole inbox and polling as many of the oldest completions as asked for, and neither touches anything else |
| QueuePairs.NeverEarly | rdma_transport.cpp:28-29 | nothing is delivered before its deadline, and deliveries are the posted messages in order |
| QueuePairs.ScanLeavesExactlyTheNotDue | rdma_transport.cpp:46-65 | with one poster the queue is ordered by deadline and the prefix loop ends with exactly the writes not due at its last clock reading |
| QueuePairs.LoopFiltersExactlyIfOrdered | rdma_transport.cpp:46-65 | for any number of posters the prefix loop leaves just the writes not due, whenever it runs, if and only if the queue is ordered by deadline |
| Posters.TwoPostersCanDelayADueWrite | rdma_transport.cpp:28-47 | with two posters the loop can give up in front of a write that is due |
| Posters.FlushReliableExactlyIfSole | rdma_transport.cpp:31-81 | for a given set of posters: in every run with fewer than 2^64 - 1 writes queued, whenever flush may return to one of them, all it has posted is delivered and completed, if and only if the set has at most one member |
| Posters.ScanExactExactlyIfSole | rdma_transport.cpp:28-65 | for a given set of posters: in every run the delivery loop gives up only with no due write left, if and only if the set has at most one member |
| Bsp.SendOrderKept | worker_node.cpp:124-142 | for programs that sign their messages, what one vertex reads from another is what that one sent it in the step before, in order, nothing lost, repeated or added |
| Bsp.StepOfVertex | worker_node.cpp:53-142 | in a superstep a vertex that is awake or has mail runs its program, awake, on all of its mail in order and with the step's number; any other stays as it is; and what is sent for it is what its program put in its outbox |
| BookRuns.BookSigns | vertex.hpp:42-46 | the order-book programs sign every message |
| BookRuns.BookKeepsSendOrder | worker_node.cpp:124-142 | so in every superstep of a run of the book messages from one vertex to another keep their order |
| Bsp.OrderOnlyPermutesMail | worker_node.cpp:64-91 | another iteration order of the vertex map permutes the mail and changes nothing else |
| Worker.WorkerNode.AddVertex | worker_node.cpp:25-29 | the worker's part gains the vertex with its owner, and its table can still be iterated, in whatever order |
| Worker.WorkerNode.AbsorbPartition | worker_node.cpp:31-40 | the moved vertices are in the worker's part with the new owner, the partition map points to it, each counts as a migration, and the worker's invariant is kept |
| Worker.EnumeratesByPosition | worker_node.cpp:64 | an iteration of the vertex map is a listing with every key at exactly one position, as the routing theorems ask for |
| Worker.HashingExists | worker_node.cpp:64 | every hash map, after every insertion, has such an iteration, so what is asked of the iteration orders can be met |
| Worker.WorkerNode.DispatchMessages | worker_node.cpp:124-130 | every message is appended to its recipient's mail |
| Worker.DispatchedLetters | worker_node.cpp:124-130 | a vertex's mail grows by exactly the messages addressed to it, in order |
| Worker.WorkerNode.SelectTasks | worker_node.cpp:64-91 | exactly the vertices that are awake or have mail get a task, and the halted ones among them are woken |
| Worker.WorkerNode.RunTasks | worker_node.cpp:76-96 | any interleaving of the tasks, taking mail and computing being separate steps, gives the same vertices, mail and count |
| Worker.TasksRefine | worker_node.cpp:53-96 | the tasks together are the compute phase of the specification |
| Worker.WorkerNode.CollectAndRouteOutbox | worker_node.cpp:132-142 | the outboxes are enqueued vertex by vertex and end empty |
| Worker.CollectRefines | worker_node.cpp:132-142 | what is collected is what the specification sends |
| Worker.WorkerNode.RunSuperstep | worker_node.cpp:53-122 | from whatever a worker holds, one superstep is one step of the specification: vertices, leftover mail, inbox, counters and the number still awake; every other worker's box is behind what was in flight on its queue pair, and nothing delivered is left undrained |
| Coordinators.Coordinator.Superstep | coordinator.cpp:59-89 | with one worker a turn of the loop is exactly one step of the specification |
| Coordinators.Coordinator.Run | coordinator.cpp:39-103 | after the run the engine's state is the specification iterated as often; it stops at the first step that leaves no vertex awake, or at the limit; and its fields are at rest as in the next row |
| Coordinators.Coordinator.RestedAfter | worker_node.cpp:53-142 | after any number of supersteps all outboxes are empty, no vertex has mail in the worker's table, and the bus holds for each vertex exactly what the last step sent it, in collection order |
| Coordinators.NothingSent | worker_node.cpp:132-142 | a step leaves mail if and only if some vertex ends it with a message in its outbox |
| Coordinators.QuiescentStays | coordinator.cpp:92-97 | a world with nothing awake and nothing on its way is unchanged by any number of supersteps |
| Coordinators.ConvergenceSound | coordinator.cpp:75-97 | for programs that halt silently a count of zero means no message anywhere, and every further superstep changes nothing |
| Coordinators.OverExactlyIfSilent | coordinator.cpp:91-97 | when the count is zero the run is over if and only if no vertex halted with mail in the last step |
| Coordinators.ChooseSurvivor | coordinator.cpp:109-120 | the first worker with the fewest vertices among those that did not fail, worker 0 if there is none |
| Barrier.NobodyLeavesEarly | message_bus.cpp:78-90 | in every interleaving rounds differ by at most one, and who is behind is still spinning in a finished round |
| Barrier.NoArrivalInTheGap | message_bus.cpp:82-84 | between the reset of the counter and the bump of the epoch everyone else spins on the current epoch |
| Barrier.NeverStuck | message_bus.cpp:78-90 | some worker can always do more than spin, whatever the epoch counter wraps through |
| Barrier.DrainsFollowFlushes | worker_node.cpp:56-102 | every drain of step k + 1 comes after every worker's flush of step k |
| Barrier.RoundsComplete | message_bus.cpp:78-90 | after so many steps of any run every worker has got through a given number of rounds |
| TaskPool.ActiveCountExact | numa_scheduler.cpp:43-125 | a node's counter is exactly its queued tasks and those popped and not yet subtracted, so it never underflows |
| TaskPool.Partition | numa_scheduler.cpp:43-125 | every pushed task is outstanding or completed, and not both |
| TaskPool.WaitBound | numa_scheduler.cpp:59-65 | when wait_all returns, the tasks outstanding when it read the completed count were no more than the other submitters between push and count |
| TaskPool.ExitExactly | numa_scheduler.cpp:59-65 | for any number of submitters the exit test holds if and only if no more tasks are outstanding than submitters are between push and count |
| TaskPool.SoleSubmitterWaitsForAll | numa_scheduler.cpp:59-65 | with one submitter every task has completed when wait_all returns |
| TaskPool.SoleSubmitterReturns | numa_scheduler.cpp:59-65 | with one submitter the exit test holds if and only if nothing is outstanding |
| TaskPool.WaitAllCanMissOwnTask | numa_scheduler.cpp:43-65 | a run with two submitters in which wait_all is about to return while its caller's task is still queued |
| TaskPool.WaitAllCanMiss | numa_scheduler.cpp:43-65 | there is such a run for any two submitters of any set |
| TaskPool.WaitsForAllExactlyIfSole | numa_scheduler.cpp:59-65 | for a given set of submitters: in every run of fewer than 2^64 tasks all tasks have completed whenever wait_all returns, if and only if the set has at most one member |
| TaskPool.ReturnsExactlyWhenLeaving | numa_scheduler.cpp:59-65 | that is the moment at which the next turn of its loop returns, and at no other |
| TaskPool.OnlyReturnFrees | numa_scheduler.cpp:59-65 | no step of anybody else takes a submitter out of wait_all |
| TaskPool.StartedInOrder | numa_scheduler.cpp:93-112 | in every interleaving a node starts its tasks in the order in which they were pushed |
| TaskPool.PushedToPreferred | numa_scheduler.cpp:43-49 | a pushed task waits at the node it prefers, modulo their number |
| NumaScheduling.NumaScheduler.SubmitBulk | numa_scheduler.cpp:43-57 | every node's queue grows by exactly the tasks that prefer it, in order |
| NumaScheduling.PreferringMember | numa_scheduler.cpp:43-57 | those are the tasks whose preference modulo the number of nodes is the node |
| NumaScheduling.NumaScheduler.LeastLoadedNode | numa_scheduler.cpp:80-91 | the first node with the smallest load |
| NumaScheduling.NumaScheduler.MigrateVertex | numa_scheduler.cpp:67-73 | moves to the least loaded node and counts only real moves |
| NumaScheduling.NumaScheduler.RunNext | numa_scheduler.cpp:93-126 | runs the front task of the node; it is a spike if and only if it took more than three times as long as expected |
| NumaScheduling.NumaScheduler.RecordSpike | numa_scheduler.cpp:115-122 | the history is always the latest thousand of all spikes |
| ClusterRuns.ExactlyOnce | message_bus.cpp:25-76 | at every moment, for either wiring and any number of workers, the messages enqueued for a route are in order and exactly once those drained, in the inbox, received, delivered, in hand, on the wire, dropped, being flushed and in the outbox |
| ClusterRuns.DrainedIsPrefix | message_bus.cpp:39-76 | what has been drained of a route is a prefix of what was enqueued for it |
| ClusterRuns.DrainedByOwner | rdma_transport.cpp:125-133 | a drained message was drained by its owner if and only if the far end drains or the message was local; as wired it is always the sender |
| ClusterRuns.RemoteLostWithoutRdma | message_bus.cpp:53-60 | without RDMA a message for another worker never gets beyond the flush |
| ClusterRuns.NothingLostWithRdma | message_bus.cpp:53-60 | with RDMA nothing is dropped |
| ClusterRuns.OwnerAsEnqueued | message_bus.cpp:25-37 | for every message ever enqueued there is the step that enqueued it, and it is routed to the worker the partition map named at that step, whatever migrates later |
| ClusterRuns.DrainedWasEnqueued | message_bus.cpp:64-76 | only what was enqueued is ever drained |
| ClusterRuns.DrainedByOwnerAsEnqueued | rdma_transport.cpp:125-133 | a message is drained by the worker that owned its recipient when it was enqueued if and only if the far end drains or that worker enqueued it itself |
| ClusterProgress.SuperstepTakesAllIn | message_bus.cpp:64-76 | whatever is in a worker's inbox, or has arrived on a pair it drains, when it starts a superstep, it has drained by the time it computes, in every interleaving |
| ClusterProgress.FlushLeavesNothing | message_bus.cpp:39-62 | whenever a worker is not computing, its outboxes are empty, and so is every box its flush has passed |
| ClusterProgress.PairDelivers | rdma_transport.cpp:40-67 | the message at the front of a pair's queue is delivered, behind those before it, by the next two steps of the pair's thread |
| OrderBook.FoldPermutes | order_book_graph.cpp:80-117 | an inbox loop whose steps commute ends the same for every order of the mail |
| Vertices.OrderVertex.Compute | order_book_graph.cpp:19-73 | the order's loop, early returns and emission are one step of the order program |
| Vertices.PriceLevelVertex.Compute | order_book_graph.cpp:80-122 | the level's loops are one step of the level program |
| Vertices.VenueVertex.Compute | order_book_graph.cpp:131-168 | the venue's loops are one step of the venue program |
| Vertices.MarketMakerVertex.Compute | order_book_graph.cpp:175-226 | the market maker's loops are one step of its program |
| Sends.QuotesAroundMiddle | order_book_graph.cpp:131-154 | a venue's new quotes are 200 to either side of the middle, toward zero, of the highest bid and the lowest ask it has ever heard of, or of 100 000 000 000 if that is zero, moved by the noise |
| Sends.VenueHears | order_book_graph.cpp:132-144 | there always is such a bid and such an ask |
| Sends.VenueSizes | order_book_graph.cpp:134-143 | its bid size grows by the sizes of all positive bids, its ask size by those of the asks that were each better than all before |
| Sends.NoiseMovesQuotes | order_book_graph.cpp:147-153 | raising the noise raises both quotes by as much and changes nothing else about the venue |
| Sends.VenueSends | order_book_graph.cpp:156-166 | whatever it heard, a venue sends exactly one message along each edge, in edge order, with its new quotes and sizes |
| Sends.LevelSends | order_book_graph.cpp:80-122 | exactly what a level sends: every price update to each of its orders, in the order of the mail, and then its own quote, on its side only, if its quantity is not what it last told; and when it halts |
| Sends.LevelForwards | order_book_graph.cpp:91-98 | the messages to its orders are one per update and order edge: their number, an if-and-only-if for each, and the order of the mail for each recipient |
| Sends.LevelKeeps | order_book_graph.cpp:82-90 | what fills leave of a level's quantity and order count |
| Decisions.OrderCarriesOn | order_book_graph.cpp:25-73 | all that an active order becomes and sends when nothing in its mail ends it: it trades, along every edge and for all it has left, exactly if the price it goes by is positive and, for a bid order, at most its limit, for an ask order, at least its limit |
| Decisions.OrderEnds | order_book_graph.cpp:32-43 | an order stops reading at the first message that cancels it or fills it up, halts and sends nothing |
| Decisions.TradesExactlyWithinLimit | order_book_graph.cpp:26-66 | without fills and cancellations in the mail an order sends one message per edge if and only if the last update, or with none the price last heard, is within its limit on its side |
| Decisions.SignedReads | order_book_graph.cpp:180 | a maker reads a quantity as a signed 64-bit number |
| Decisions.BooksKept | order_book_graph.cpp:176-195 | after any mail a maker's quotes are the last positive ones in it, or those it had, its position and fill count have grown by the fills, and its profit has dropped by price times signed quantity of each |
| Decisions.MakerDecides | order_book_graph.cpp:197-225 | a maker signals, along every edge and with the spread in whole basis points, exactly if its bid is above its ask by five basis points of their middle or more; and when it halts |
| BookLaws.OrderRun | order_book_graph.cpp:19-73 | over any run an active order is not filled up, even where the sum wraps; an inactive one never changes; every fill sent is for between 1 and the quantity at the limit price |
| BookLaws.InactiveExactlyWhenFilledOrCancelled | order_book_graph.cpp:32-43 | short of overflow an order becomes inactive if and only if it is cancelled or the fills reach its quantity |
| BookLaws.HaltsAfterElevenIdleSteps | order_book_graph.cpp:67-72 | an order that hears nothing and cannot trade halts at its eleventh idle step |
| BookLaws.TradeIdHalves | order_book_graph.cpp:63 | the low half of a trade identifier is the order's, the high half the exclusive or of the order's high half and the step |
| BookLaws.TradeIdsEqualExactly | order_book_graph.cpp:63 | for all orders and steps, two trade identifiers are equal if and only if the low halves of the orders are and those exclusive ors are |
| BookLaws.TradeIdsDistinct | order_book_graph.cpp:63 | below 2^32 they are equal if and only if order and step are |
| BookLaws.TradeIdsCollide | order_book_graph.cpp:63 | past 2^32 two orders share one |
| BookLaws.RunTradeIdsDistinct | order_book_graph.cpp:56-65 | over a whole run an order with one edge never repeats a trade identifier |
| BookLaws.SharedTradeId | order_book_graph.cpp:57-65 | the fills of one step differ if and only if there is one edge |
| BookLaws.LevelClosedForm | order_book_graph.cpp:81-90 | the saturating loop equals a closed form in the number and the sum of the fills |
| BookLaws.LevelIgnoresMailOrder | order_book_graph.cpp:80-122 | what a level becomes, whether it halts and what it tells its venue do not depend on the order of its mail |
| BookLaws.LevelRunIsOnePass | order_book_graph.cpp:80-117 | a whole run takes from a level what one pass over all its mail would |
| BookLaws.LevelNeverRefills | order_book_graph.cpp:80-90 | over any run the quantity is the initial one less all fills, not below zero |
| BookLaws.UpstreamExactlyWhenDropped | order_book_graph.cpp:102-117 | after its first turn a level tells its venue if and only if its quantity has just dropped |
| BookLaws.VenueIgnoresMailOrder | order_book_graph.cpp:131-154 | a venue's quotes and bid size do not depend on the order of its mail |
| BookLaws.AskSizeFixedExactlyIfHarmonious | order_book_graph.cpp:138-143 | its ask size is the same for every order of the mail if and only if of any two improving asks the worse brings no size and equal ones bring the same, modulo 2^64 |
| BookLaws.VenueStepFixedExactlyIfHarmonious | order_book_graph.cpp:131-168 | and that is exactly when the whole step, state and messages, ignores the order of the mail |
| BookLaws.AskSizeDependsOnMailOrder | order_book_graph.cpp:138-143 | two messages that do not meet the condition and give two sizes |
| BookLaws.PositionIsNetQuantity | order_book_graph.cpp:178-185 | a maker's position moves by the sum of the fills read as signed numbers |
| BookLaws.TradesIgnoreMailOrder | order_book_graph.cpp:176-195 | position, profit and fill count do not depend on the order of the mail |
| BookLaws.OrderHaltsSilently | order_book_graph.cpp:19-73 | an order never halts with mail in its outbox |
| BookLaws.LevelHaltsSilently | order_book_graph.cpp:102-121 | nor does a level that has told its venue, and it stays such a level |
| BookLaws.MakerHaltsWithMail | order_book_graph.cpp:197-225 | a market maker does if and only if it is over its limit, sees an arbitrage and has an edge |
| BookRuns.SilentExactlyIfNoneCaught | order_book_graph.cpp:197-225 | a superstep of the book is silent if and only if no market maker is in that situation |
| BookRuns.BookConvergence | coordinator.cpp:91-97 | when the book's count is zero the run is over for good if and only if no market maker was in that situation in the last step |
| BookRuns.MakerlessBookHaltsSilently | order_book_graph.cpp:19-168 | orders, venues and levels that have told their venue, or have not begun to, halt with an empty outbox only and stay so, whatever mail and noise |
| BookRuns.MakerlessBookEndsForReal | coordinator.cpp:91-97 | so in a book of these, without market makers, a count of zero is final |
| EarlyStop.StopsTooEarly | coordinator.cpp:91-97 | a book that nobody is awake in after four supersteps and somebody after five, whatever the noise, with a signal in flight in between |
| EarlyStop.Construct | order_book_graph.cpp:15-173 | its vertices at the start are what the constructors make |
| BookRuns.OrdersNeverLearnOfTrades | order_book_graph.cpp:19-100 | over any run of a wired book no order's fill or activity and no maker's position changes, every fill sent is for the whole remainder again, and levels only drain |
| BookRuns.WiredBookEndsForReal | coordinator.cpp:91-97 | in a wired book with makers within their limits a count of zero always is the end |
| BookRuns.VenueStaysAwake | order_book_graph.cpp:131-168 | a venue never halts, so someone is always awake |
| BookRuns.RunBook | coordinator.cpp:59-98 | the engine runs a book with a venue to its step limit, and its state is then the specification's |
| TradeNumbers.RunNumbersDistinct | order_book_graph.cpp:56-65 | over a whole run of a book whose orders have one edge, with identifiers and steps below 2^32, no trade identifier is used twice by any vertex |
| Quotes.NoArbitrageInBuiltBooks | order_book_graph.cpp:186-218 | where makers hear venues only, as long as venues quote positive bids no maker ever sees an arbitrage and no signal is ever sent |
| Feeds.OrdersGoByTheirVenue | order_book_graph.cpp:25-66 | in every run of a built book, from the third superstep on, each order goes by what its own venue quoted to its side two supersteps before, and sends its level a fill for its whole quantity exactly if that is within its limit |
| Feeds.VenueRequotes | order_book_graph.cpp:131-154 | in every superstep a venue requotes around the best it has heard of, moved by that step's own noise |
| Drift.BuiltBidsPositive | order_book_graph.cpp:131-168 | with the builder's noise not below -s, a venue's not below -f, and s + n f + 3 ticks less than the base price, every venue of a built book quotes positive bids for n supersteps |
| Drift.QuietWithinBound | order_book_graph.cpp:186-218 | within that bound no maker of a built book ever sees an arbitrage and no signal is ever sent |
| Drift.CrossedAndSilent | order_book_graph.cpp:186-218 | a built book in which one venue bids more than another asks after the first superstep, and whose maker never signals in any number of supersteps |
| GraphBuilder.BuildOrders | order_book_graph.cpp:295-318 | the orders of one level: states, both links, places and identifiers |
| GraphBuilder.BuildLevel | order_book_graph.cpp:270-322 | one price level with its orders: its state, the venue's edge, the level's, their order in the list and the next identifier |
| GraphBuilder.BuildBooks | order_book_graph.cpp:264-324 | the three nested loops visit each level of each side of each venue once, in identifier order |
| GraphBuilder.BuildMakers | order_book_graph.cpp:326-352 | every maker is linked with every venue both ways and to its sample of levels |
| GraphBuilder.Build | order_book_graph.cpp:229-355 | the built graph, states included, is the one specified, with the edge total 4VL + 4VLO + M(2V + min(20, 2VL)); the 32-bit counters hold V, 2VL and M modulo 2^32 |
| BuiltStates.LevelAsBuilt | order_book_graph.cpp:270-322 | the k-th level of a venue and side stands k + 1 ticks below or above 150 000 000, moved by its own noise, with the quantity, count, owner and edges, in order, that the builder gives it |
| BuiltStates.LevelCountsItsOrders | order_book_graph.cpp:283-284 | a level's quantity is its draw times the number of its order edges modulo 2^64, its count that number modulo 2^32 |
| BuiltStates.SidesApart | order_book_graph.cpp:274-278 | with less than a tick of noise bid levels are below the base price and ask levels above |
| BuiltStates.LevelsInStep | order_book_graph.cpp:274-278 | without noise a venue's levels are symmetric around the base price, each a tick further out than the one before |
| BuiltStates.OrderAsBuilt | order_book_graph.cpp:295-318 | an order has its level's side and a limit that differs from the level's price by its own noise only |
| BuiltStates.VenueAsBuilt | order_book_graph.cpp:242-259 | a venue opens one tick to either side of the base price, each quote moved by a noise of its own; its edges, in order |
| BuiltStates.MakerAsBuilt | order_book_graph.cpp:326-352 | a maker starts flat, with a limit of a million and no quotes; its edges, in order: all venues, then its samples as drawn |
| GraphShape.IdsArePermutation | order_book_graph.cpp:237-352 | identifiers are exactly 0 to n - 1 with n = V + 2VL + 2VLO + M |
| GraphShape.SlotIsId | order_book_graph.cpp:292 | slot i holds vertex i for every venue and maker, which indexing by venue identifier relies on |
| GraphShape.BookSlotIds | order_book_graph.cpp:316-320 | in between an order stands one slot early and its level last, so indexing by identifier would be wrong there |
| GraphShape.TotalEdgesIsEdgeCount | order_book_graph.cpp:293-347 | the edge counter equals the number of edges in the lists |
| GraphShape.InGraph | order_book_graph.cpp:229-355 | every venue, level, order and maker the parameters call for is in the list |
| GraphShape.SpotOf | order_book_graph.cpp:229-355 | nothing else is |
| GraphShape.LinksBothWays | order_book_graph.cpp:291-346 | every edge leads to a vertex of the right kind, which has an edge back, unless it is a maker's sample |
| GraphShape.TargetsExist | order_book_graph.cpp:291-346 | every edge's target is below n and the identifier of a vertex |
| GraphShape.BuiltBookIsWired | order_book_graph.cpp:312 | a world loaded from a built graph has the wiring the run theorems ask for |
| GraphShape.MakersHearVenuesOnly | order_book_graph.cpp:291-346 | no price level of a built book leads to a market maker |
| GraphShape.BuiltBookIsFresh | order_book_graph.cpp:229-355 | a built book meets the other conditions of the run theorems: nothing sent or told, makers within limits and without quotes |
| GraphShape.BuiltOrdersAreSound | order_book_graph.cpp:299-303 | with positive quantities every built order has something to fill |
| GraphShape.BuiltBookNeverTrades | order_book_graph.cpp:229-355 | in no run of a built book does an order fill or a position move |
| GraphShape.BuiltBookNumbersTradesOnce | order_book_graph.cpp:56-65 | in no run of a built book of at most 2^32 vertices is a trade identifier used twice |
| GraphShape.BuiltBookHasNoArbitrage | order_book_graph.cpp:197-218 | in a run of a built book in which venues keep quoting positive bids no maker ever signals |
| GraphShape.BuiltBookNeverConverges | order_book_graph.cpp:242-259 | if a built book has a venue, someone is awake after any number of supersteps |
| GraphEngine.PartIsLoaded | graph_engine.cpp:74-92 | what a sole worker holds after building and distributing is the built graph |
| GraphEngine.RunEngine | graph_engine.cpp:14-18 | build, distribute and run with one worker: the engine ends with the specification's state iterated from the built graph, at its step limit if there is a venue |
| GraphEngine.SetupInfrastructure | graph_engine.cpp:41-61 | makes an idle engine of one worker, with or without a network, out of new objects only |
| GraphEngine.Run | graph_engine.cpp:14-18 | the whole run from nothing: after set-up, loading and running the engine holds the specification iterated up to the step limit |
| Placement.Engine.DistributeVertices | graph_engine.cpp:87-92 | every vertex goes to the part of its owner |
| Placement.HoldsWhatItOwns | graph_engine.cpp:87-92 | afterwards a worker holds exactly the vertices it owns |
| Placement.Balanced | graph_engine.cpp:87-92 | worker i holds (n + W - 1 - i) / W of n vertices |
| Placement.BuiltPart | graph_engine.cpp:87-92 | worker w's part of the built graph is exactly its vertices below n, as built and owned by w |
| Placement.DistributionAgrees | graph_engine.cpp:87-92 | the holder, the vertex's own owner field and the partition map agree, and every vertex is somewhere |
| Placement.OneHolder | worker_node.cpp:31-40 | agreement puts a vertex in one place only |
| Placement.TakeoversKeep | worker_node.cpp:31-40 | any sequence of takeovers that move vertices out of other workers keeps the agreement and every vertex |
| Heartbeat.HeartbeatDetector.constructor | heartbeat.cpp:9-29 | a fresh record for every worker but the local one |
| Heartbeat.HeartbeatDetector.ReceiveHeartbeat | heartbeat.cpp:50-74 | the record after a beat, and the recovery callback if and only if the worker was suspected or failed |
| Heartbeat.HeartbeatDetector.InjectFailure | heartbeat.cpp:76-82 | only the time of the last beat moves, by ten timeouts modulo 2^32 |
| Heartbeat.HeartbeatDetector.ComputePhi | heartbeat.cpp:107-129 | the two accumulation loops give the tail at the delay in standard deviations of the window |
| Heartbeat.HeartbeatDetector.CheckWorker | heartbeat.cpp:142-163 | the record after a check, and the failure callback if and only if the worker has just failed |
| Deviation.DeviationInPlain | heartbeat.cpp:114-122 | n times the mean is the sum of the window, and n times the squared deviation less 10^-9 is the sum of squares less n times the squared mean |
| Deviation.LevelOfWindow | heartbeat.cpp:107-129 | the level is the tail of the delay, counted from that mean in those deviations |
| Deviation.LevelOfUnevenWindow | heartbeat.cpp:107-129 | for intervals as often d above a as d below it, the deviation is the root of d squared and 10^-9 |
| Deviation.FreshRecord | heartbeat.cpp:19-27 | a record starts alive with eight intervals as expected |
| Deviation.BeatClears | heartbeat.cpp:55-69 | a beat clears suspicion, restarts the silence and, but for the first, adds its length to the window of at most sixteen |
| Deviation.CheckDecides | heartbeat.cpp:142-163 | after a check the worker is failed at the threshold or after the timeout, suspected from half of the threshold on, alive below |
| Heartbeat.SigmaPositive | heartbeat.cpp:119-124 | the deviation divided by is positive, whatever the window |
| Heartbeat.LevelMonotone | heartbeat.cpp:107-129 | a longer silence never looks better |
| Heartbeat.WindowIsLastSixteen | heartbeat.cpp:57-65 | in any interleaving the window is the last 16 of eight seeds and all observed silences, the first beat's excluded, and is never empty |
| Heartbeat.FailuresMatchRescues | heartbeat.cpp:67-73 | failures less recoveries from failed are one exactly while the worker is failed |
| Heartbeat.FailedUntilBeat | heartbeat.cpp:143 | a failed worker stays failed until a beat |
| Heartbeat.InjectionForcesFailure | heartbeat.cpp:76-82 | a check after an injection fails the worker if the setback exceeds the timeout |
| Heartbeat.FailsExactlyIfSetbackIsFar | heartbeat.cpp:76-82 | where the suspicion level does not decide, a check after any silence fails the worker if and only if silence and setback together exceed the timeout |
| Heartbeat.ForcedExactlyIfSetbackIsFar | heartbeat.cpp:76-82 | if a silence of the setback's length is below the threshold: every later check below the threshold fails the worker if and only if the setback exceeds the timeout |
| Heartbeat.ReliableExactly | heartbeat.cpp:76-82 | for any worker not yet failed: every later check fails it if and only if the setback exceeds the timeout or a silence of the setback's length reaches the threshold |
| Heartbeat.FreshLevel | heartbeat.cpp:107-129 | the level of a worker never heard from is the tail at the delay over the smallest deviation there is |
| Heartbeat.ShortSetbackCanDo | heartbeat.cpp:76-82 | with a timeout of 429496830 ms the setback is 1004 ms, yet an injection into such a worker can be relied on, given a tail that is past the threshold there |
| Heartbeat.SetbackIsFarEnough | heartbeat.cpp:81 | without overflow the setback exceeds the timeout if and only if that is positive |
| Heartbeat.SetbackCanWrap | heartbeat.cpp:81 | with a timeout of 429496730 ms the setback is 4 ms, and a check below the threshold and short of the timeout does not fail the worker |
| Heartbeat.SuspicionMonotone | heartbeat.cpp:142-163 | without a beat the states only move from alive over suspected to failed, across injections too |

## Left out

- Refinement of a superstep by several workers at once: as wired, and with the shared pool's `wait_all`, it does not hold; what holds for any number of workers is in `Cluster`, `ClusterRuns`, `Barrier` and `TaskPool`.
- Worker.WorkerNode.RunSuperstep: vertices are values in the worker's table, so sharing of vertex objects between the table and a task is not captured; tasks interleave in two steps each, and run under `wait_all` as a sole submitter; time measurement and throughput are left out.
- Coordinators.Coordinator.Run: one worker; heartbeats, callbacks, statistics and fault injection within the run are not part of it.
- Coordinators.ChooseSurvivor: what follows the choice, `redistribute_partition`, only prints.
- Placement.TakeoversKeep: nothing in the repository calls `absorb_partition`; that the moved vertices have left their former workers is up to its caller.
- GraphEngine.RunEngine: one worker; what holds of placement for any number of workers is in `Placement`.
- GraphEngine.SetupInfrastructure: one worker; the scheduler and its threads are not among the objects, the graph's parameters are arguments of `Run`.
- BookRuns.WiredBookEndsForReal: for a built book with a venue its condition is never met, as such a run does not end; it is about wired books in general.
- Rdma.QueuePair.PostWrite: a write is a whole message; the length test, partial copies, byte layout and the registered buffers are not modelled.
- Rdma.QueuePair.NetworkPass: the bounded wait of the network thread is a pass that finds nothing due.
- Vertices.OrderVertex.Compute: the type tag and the payload are one datatype, so reading a payload under the wrong tag is not expressible; no vertex program does.
- Vertices.MarketMakerVertex.Compute: signed 64-bit overflow of position, profit and quotes is undefined in the source and not modelled; unsigned wrap-around is.
- Vertices.VenueVertex.Compute: the unused tick counter and the generator's state.
- GraphBuilder.Build: trader numbers, time stamps, venue names, latencies and the flags for primary venue and best level, which nothing reads; identifiers, order and edge counts past 2^64.
- Heartbeat.HeartbeatDetector.ComputePhi: floating-point rounding, the error function and the logarithm; the division by a zero deviation that `Sane` rules out is given an arbitrary value.
- Counters of statistics are unbounded numbers.
- Weak memory orders, condition-variable timeouts, thread pinning, start and stop, and tasks or writes dropped at shutdown.
- Printing, command line, formatting, the benchmark, unused types (`WorkerVote`, `collect_votes_and_advance`) and trivial accessors.
