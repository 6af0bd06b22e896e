# Verified models of hick's driver bookkeeping and DNS-SD aggregation

hick is a family of mDNS drivers around one protocol core. These Dafny modules model the parts of it that carry
hand-argued invariants: the synchronous driver's event queue, transmit scheduler, receive readiness and lookups
(`hick-mio`), the async resolver (`hick-reactor`), two delivery buffers (`hick-compio`), the ingress rule of section
11 of RFC 6762 (`hick-onlink`), and the answer pool of the protocol core that they read from (`mdns-proto`).
`dafny verify dfyconfig.toml` checks everything.

Code that updates fields in place is a class whose methods are proved against functions on values; what the code
promises is then proved about those functions, over every input or every run. Where the environment decides
something, the model leaves it open: the order a map yields its entries, what the kernel answers to a read, what the
pools hold, which starts the proto layer accepts, how much time passes between two clock readings.

| files | what they model |
|---|---|
| `Basics`, `Answers`, `ServiceDiscovery`, `HostAddresses` | shared notions, records, handles, resolve steps, capped address lists |
| `EventQueue` | the coalescing bounded FIFO, as a list and as three containers with tombstones and generations |
| `AnswerPool`, `QueryDelivery` | the evicting, slot-reusing pool, and in-order delivery from it |
| `Scan`, `UpdatePump` | what a scan finds and misses; scanning pools into the event queue: conservation, terminals last, compaction |
| `TxQueue`, `TxDriver` | the budget walk, the waiting line over whole runs, and the sequences that implement it |
| `Resolver`, `Browse`, `BrowseDriver` | the async resolver, its coalescing queue, and what the consumer ends up holding |
| `LookupState`, `Lookup`, `LookupWorld`, `LookupTurn`, `LookupDriver` | the synchronous lookups: one aggregation, every run of all of them against a clock, one turn and one tick, and the driver that performs them |
| `Sockets` | edge-triggered readiness, error budgets and partial registration against an open environment |
| `Prefix`, `OnLink` | the bit-level prefix match and the staged ingress decision above it |
| `ServiceMailbox` | meaning-preserving coalescing of service updates |

## Where the code and its documentation differ

The models follow the code; a lemma states each difference.

* The event enum says the answer an overflow evicts shares the query, type, class and rdata identity of the one pushed
  (`hick-mio/src/event.rs:52-56`). The code evicts only when no queued answer has that identity, and then the oldest
  of any query: the other queries keep all they have queued exactly when the oldest answer is of the query pushed for
  (`Fifo.OverflowSparesOthersIff`; `Fifo.AnotherQueryPays` is an overflow in which another query pays).
* `TxQueue` documents a wait of `ceil(p/64)` ticks; the exact bound is `p/64 + 1`, which differs when 64 divides `p`
  (`Waiting.DocumentedBoundIffNotMultiple`).
* It also says a single busy sender still gets the entire budget; that holds exactly when no idle sender stands behind
  it (`Budget.LoneBusySenderGetsAllIffLast`).
* An instance retargeted to a host with no known address keeps its old snapshot in the consumer's hands until an
  address of the new host arrives (`Browsing.RetargetShownIff`; `Browsing.StaleIsReached` is such a run).
* `dropped_events` is documented as the total of answers lost (`hick-mio/src/endpoint.rs:542-556`). A query that ends
  with answers accepted since its last scan takes them with it, uncounted, whichever way it ends: it cannot be encoded
  (`UpdatePump.Pump.Retire`), the caller cancels it (`LookupDriver.Mdns.CancelQuery`), or its lookup is cancelled
  (`LookupDriver.Mdns.StopLookup`) or found expired before its answer walk (`LookupTurns.UncountedIffSkipped`). Every
  answer is read or counted exactly when nothing was accepted past the last scan (`Scans.CountedIffScannedLast`, and
  `LookupTurns.UncountedIffUnread` in every run); `Scans.OneAnswerUncounted` is a pool in which one answer is lost.

A choice its documentation does make, and that may surprise: learning the interface's own addresses can revoke an
admission (`OnLink.LearningAddressesRevokesIff`; `OnLink.LearningAddressesRevokesOne` is one such datagram).

## Model

| member | source | states |
|---|---|---|
| `Fifo.PushAnswerEffect` | hick-mio/src/event.rs:279-318 | on the plain FIFO list: the answer pushed is in it afterwards, alone under its query, type, class and rdata identity; a re-push replaces the payload where it stands, a new identity joins the end, the oldest answer makes room at 1024, and every other item keeps its payload and place among the others |
| `Fifo.OverflowSparesOthersIff` | hick-mio/src/event.rs:290-299 | an overflow happens only when no queued answer has the identity pushed, loses the oldest answer alone, and spares every other query exactly when that oldest answer is of the query pushed for |
| `Fifo.AnotherQueryPays` | hick-mio/src/event.rs:290-299 | the counterexample to the documented rule: 1024 answers of one query are queued, and an answer of another evicts the oldest of them |
| `Fifo.RunLosesNothingUncounted` | hick-mio/src/event.rs:175-204 | over every run of pushes and pops: terminals come out exactly as pushed, in order; every answer pushed was delivered, is queued, was absorbed by a refresh, or was counted as evicted; at most 1024 answers are queued |
| `Fifo.QueuedIsLatest` | hick-mio/src/event.rs:279-289 | over every run an answer still queued, and so one popped next, carries the payload last pushed under its identity |
| `EventQueues.EventQueue.PushAnswer` | hick-mio/src/event.rs:279-318 | tombstones and generations implement that FIFO: the visible list changes exactly as the plain push says and holds the answer pushed, and `dropped` counts exactly the evictions |
| `EventQueues.EventQueue.PushTerminal` | hick-mio/src/event.rs:324-331 | a terminal joins the visible list at its end and is never capped |
| `EventQueues.EventQueue.Pop` | hick-mio/src/event.rs:345-371 | skipping tombstones delivers the head of the visible list with its current payload, and nothing only when the list is empty |
| `EventQueues.EventQueue.Compact` | hick-mio/src/event.rs:426-435 | compaction is invisible, and leaves exactly one slot for each live answer and queued terminal |
| `EventQueues.EventQueue.RecordDropped` | hick-mio/src/event.rs:389-391 | losses elsewhere are added to the counter and change nothing queued |
| `EventQueues.VisibleRefresh` | hick-mio/src/event.rs:283-288 | replacing the payload of a live key under its old generation replaces it in its place in the visible list |
| `EventQueues.VisibleWithout` | hick-mio/src/event.rs:290-299 | forgetting a live key removes exactly its answer from the visible list, whatever stale slots remain |
| `EventQueues.EvictAnswer` | hick-mio/src/event.rs:290-299 | evicting the front of `order` keeps the three containers consistent and is the removal of the oldest visible answer |
| `EventQueues.AppendAnswer` | hick-mio/src/event.rs:300-317 | a fresh generation makes exactly one slot current, at the end of the visible list, even when stale slots of the same key are still queued |
| `EventQueues.CompactionIsInvisible` | hick-mio/src/event.rs:426-435 | dropping every slot that is not current leaves the visible list equal and the footprint equal to its length |
| `AnswerPools.EvictKeepsWindow` | mdns-proto/src/query/mod.rs:535-559 | a pool that holds the newest accepted answers, once each, still does after its lowest sequence number is evicted |
| `AnswerPools.StoreKeepsWindow` | mdns-proto/src/query/mod.rs:561-582 | and after the next answer is stored in any vacant slot, so reused slots never hide a gap |
| `AnswerPools.AnswerPool.Collect` | mdns-proto/src/query/mod.rs:507-582 | accepts a record unless a retained one has its type, class and rdata identity or the cap is zero; the oldest retained answer leaves exactly when the pool was full, no other does, and the counter moves only on success |
| `QueryDelivery.NextAnswerBySeq` | hick-compio/src/query.rs:144-152 | the retained answer with the least sequence number at or above the cursor; none exactly when none is that new |
| `QueryDelivery.NextIsDue` | hick-compio/src/query.rs:144-152 | on any pool window it is the oldest accepted answer not yet passed that the pool still holds |
| `QueryDelivery.EveryAnswerAccountedFor` | hick-compio/src/query.rs:65-152 | over every interleaving of arrivals and reads: deliveries strictly increase, and each accepted answer was delivered, is retained ahead of the cursor, or was evicted before its turn; none is skipped while retained |
| `QueryDelivery.StepIsGapFree` | hick-compio/src/query.rs:65-152 | one arrival or read keeps this, and an answer once lost is never delivered later |
| `QueryDelivery.KeepingUpLosesNothing` | hick-compio/src/query.rs:65-152 | if nothing undelivered is ever evicted, everything accepted up to the cursor was delivered, in order, with no gap |
| `QueryDelivery.Query.Next` | hick-compio/src/query.rs:65-142 | one pass yields the due answer and moves the cursor just past it, else the terminal, else the end of a cancelled or failed query, else waits; it latches shut with the terminal or the end |
| `QueryDelivery.Query.Drop` | hick-compio/src/query.rs:154-177 | dropping the handle flags a registered query as cancelled and loses nothing that was surfaced |
| `Scans.FreshCount` | hick-mio/src/driver.rs:1459-1495 | what a scan finds is everything accepted since the cursor, short of exactly what the pool evicted first |
| `Scans.NewsAndMissed` | hick-mio/src/driver.rs:1459-1495 | answers read plus answers counted as missed are exactly those accepted since the last scan |
| `Scans.FreshAre` | hick-mio/src/driver.rs:1459-1495 | a scan finds exactly the retained answers at or above the cursor |
| `Scans.CountedIffScannedLast` | hick-mio/src/driver.rs:1459-1495 | over the whole life of a query: answers read, answers counted as missed and answers accepted since the last scan are together exactly those accepted, so none escapes both exactly when none came after that scan |
| `Scans.OneAnswerUncounted` | hick-mio/src/driver.rs:1300-1318 | a pool with one answer accepted and no scan before its query ends: it is neither read nor counted |
| `UpdatePump.ClosePushAnswer` | hick-mio/src/driver.rs:1459-1495 | an answer for a query that has not ended, queued by refresh, eviction or append, never ends up behind that query's terminal |
| `UpdatePump.ScanKeeps` | hick-mio/src/driver.rs:1459-1510 | one scan: every new answer is queued, absorbed or counted, so accepted = popped + queued + coalesced + dropped still; nothing about a query follows its terminal; exactly the terminal given is queued |
| `UpdatePump.ScansKeep` | hick-mio/src/driver.rs:1417-1512 | a whole stage in any order: the same, with `accepted` up by exactly what the pools accepted, `dropped` up by at least what was missed, and exactly the terminals of the queries that finished, in order |
| `UpdatePump.PushesDeliver` | hick-mio/src/driver.rs:1459-1495 | of several answers of one identity the last in slab order is the payload queued, and nothing else queued changes |
| `UpdatePump.ScanDelivers` | hick-mio/src/driver.rs:1459-1510 | after a scan each unread answer of the pool is queued under its identity, unless an eviction was counted; whatever is queued was queued before or is such an answer as the pool held it |
| `UpdatePump.Pump.Scan` | hick-mio/src/driver.rs:1459-1510 | the loop over a slab with its cursor, loss count and terminal is that step: the list, the three counters and the cursor end as it says |
| `UpdatePump.Pump.PushUpdates` | hick-mio/src/driver.rs:1417-1512 | scans each caller-owned query once, in any order, with exactly those effects; those whose terminal came leave, the others' cursors stand at the accepted count, and lookup-owned queries are as they were |
| `UpdatePump.Pump.Retire` | hick-mio/src/driver.rs:1300-1318 | a query that cannot transmit surfaces its terminal unless a lookup owns it; what its pool accepted since the last scan is lost, and no counter moves, exactly when there is any |
| `UpdatePump.Pump.NextEvent` | hick-mio/src/endpoint.rs:538-545 | popping hands over the head of the queue; received followed by queued is unchanged |
| `UpdatePump.Pump.CompactEvents` | hick-mio/src/driver.rs:1514-1518 | after the step the physical queue holds at most 4096 slots, or at most 1024 plus the queued terminals |
| `Budget.WalkIsFair` | hick-mio/src/driver.rs:1686-1767 | whatever senders do with their turns: spend stays within the budget, at least min(senders, credits) are offered a turn, each gets at least max(1, credits/senders), quanta never shrink along the walk, and an early stop means the budget is gone |
| `Budget.QuantumIsShare` | hick-mio/src/driver.rs:1739-1746 | a quantum is the largest even share of what is left among those to come, or one credit when that would be nothing |
| `Budget.WalkAt` | hick-mio/src/driver.rs:1729-1767 | turn by turn: the sender at each place is offered the quantum of what is left, its turn is what it made of that, and the walk ends only with the senders or the budget |
| `Budget.ShareLeavesShares` | hick-mio/src/driver.rs:1739-1754 | a sender that keeps to its quantum leaves the next one a quantum no smaller, and enough credits for the rest |
| `Budget.NothingLeftMeansAllServed` | hick-mio/src/driver.rs:1764-1767 | work was left behind exactly when the budget was spent or some turn was cut off; otherwise every sender was visited |
| `Budget.QuantumIsAllIff` | hick-mio/src/driver.rs:1739-1746 | a quantum is the whole remaining budget exactly for the last sender in line, or for the last credit |
| `Budget.LoneBusySenderGetsAllIffLast` | hick-mio/src/driver.rs:1639-1642 | the documented claim that a single busy sender gets the whole budget holds exactly when no idle sender stands behind it, or the budget is one credit |
| `Budget.LoneBusySenderHalved` | hick-mio/src/driver.rs:1639-1642 | the counterexample: with one idle sender behind it, the busy one is held to 32 of 64 credits |
| `Budget.GreedyWalk` | hick-mio/src/driver.rs:1729-1767 | when every sender has more to send the walk offers exactly min(senders, credits) turns |
| `Waiting.BoundedWaiting` | hick-mio/src/driver.rs:1573-1646 | over every run of joins, cancellations and ticks, a sender with `p` senders ahead is offered a turn within `p/64 + 1` ticks |
| `Waiting.WaitNeverGrows` | hick-mio/src/driver.rs:1578-1600 | no join or cancellation puts a sender further back, and a tick that passes it over moves it up at least 64 places |
| `Waiting.SaturationMeetsTheBound` | hick-mio/src/driver.rs:1573-1600 | the bound is exact: ticks in which every sender is busy pass a sender over in exactly the first `p/64` of them |
| `Waiting.DocumentedBoundIffNotMultiple` | hick-mio/src/driver.rs:1576-1578 | over all runs from a line: a sender is always served within the documented `ceil(p/64)` ticks exactly when 64 does not divide `p` |
| `TxDriver.TxQueue.Serve` | hick-mio/src/driver.rs:1686-1704 | sorts by sequence in place, offers turns exactly as the budget walk does, and issues one fresh sequence per turn |
| `TxDriver.LineIsUnique` | hick-mio/src/driver.rs:1649-1668 | the sequences alone determine the waiting line |
| `TxDriver.RequeueIsAfterTick` | hick-mio/src/driver.rs:1686-1704 | giving each visited sender the next sequence and dropping the retired yields exactly the unvisited, then the visited, without the retired |
| `TxDriver.SortedIsLine` | hick-mio/src/driver.rs:1690-1692 | sorting the pairs collected from the maps, in whatever order they come, recovers the waiting line |
| `TxDriver.Senders.DrainTransmits` | hick-mio/src/driver.rs:1079-1395 | the stage as a whole, its turns being what `ServiceTurn` and `QueryTurn` make of each sender's replies, is one tick of the waiting model; the senders that leave are exactly the queries that retired in a turn of theirs, and the rest stand with the unvisited first, each as they stood; everyone left is dry when no work is pending |
| `TxDriver.Senders.Start` | hick-mio/src/endpoint.rs:723-739 | a started sender joins the tail and marks work pending |
| `TxDriver.Senders.Stop` | hick-mio/src/endpoint.rs:752-762 | a cancelled sender leaves, no other does, and the order of the others stays |
| `TxDriver.ServiceTurn` | hick-mio/src/driver.rs:1120-1262 | a missing or withdrawing service takes nothing of its turn; any other sends within its quantum and stops only when capped, dry, unencodable or retired; the third encode failure in a row retires |
| `TxDriver.QueryTurn` | hick-mio/src/driver.rs:1264-1380 | a query turn likewise, except that one encode failure retires it; it is capped exactly when it spent its quantum and was not retired |
| `TxDriver.ServiceTurnIs` | hick-mio/src/driver.rs:1120-1262 | by what the polls yield after the first n datagrams, a service's turn is cut off at its quantum, dry, retired by its last datagram, or unencodable; the third failure running retires it, and a datagram or a dry poll ends the run of failures |
| `TxDriver.QueryTurnIs` | hick-mio/src/driver.rs:1264-1380 | the same for a query, which its first encode failure retires |
| `TxDriver.NothingPendingMeansDry` | hick-mio/src/driver.rs:1079-1395 | a stage made of such turns that leaves no work pending has left every sender gone, retired or with nothing due |
| `HostAddresses.AdoptIsCopy` | hick-reactor/src/discovery.rs:370-379 | adopting a well-formed address list into an empty one copies it, and into an equal one changes nothing |
| `HostAddresses.AddGains` | hick-reactor/src/discovery.rs:423-426 | an address joins its own family's list unless it is there or 16 others are, and the other family's list is as it was |
| `HostAddresses.AdoptList` | hick-mio/src/discovery.rs:620-627 | adopting one address at a time, capped and without repeats, equals the recursive definition |
| `Resolving.SrvKeepsCoherence` | hick-reactor/src/discovery.rs:347-400 | after any SRV, retargets included, every builder is the join of its last SRV, its last TXT and exactly the cached addresses of its host |
| `Resolving.SrvStepEffect` | hick-reactor/src/discovery.rs:347-400 | field by field: the instance takes this host, port and the addresses cached for the host, keeps its TXT, and the host is queried for A and AAAA the first time, within the cap |
| `Resolving.AddrKeepsCoherence` | hick-reactor/src/discovery.rs:421-445 | after any address answer likewise, with lists duplicate-free and at most 16 long per family |
| `Resolving.AddrStepEffect` | hick-reactor/src/discovery.rs:421-445 | field by field: the host's cached list and every instance on that host gain the address in its own family; nothing else of any instance changes but that it may be surfaced |
| `Resolving.TxtKeepsCoherence` | hick-reactor/src/discovery.rs:402-413 | after any TXT likewise |
| `Resolving.SrvAndAddressCommute` | hick-reactor/src/discovery.rs:347-445 | once a host is queried, an SRV naming it and an address of it give the same aggregation in either order |
| `Resolving.RetargetAnnounces` | hick-reactor/src/discovery.rs:347-400 | an SRV surfaces an instance exactly when it is complete and new or different from what was last surfaced |
| `Resolving.AddAnnounces` | hick-reactor/src/discovery.rs:421-445 | an address surfaces an instance exactly in the same case |
| `Browsing.SrvTells` | hick-reactor/src/discovery.rs:347-420 | what an SRV surfaces is one snapshot of the instance as it then stands when that is announced, and nothing otherwise |
| `Browsing.TxtTells` | hick-reactor/src/discovery.rs:402-420 | likewise for a TXT |
| `Browsing.AddTells` | hick-reactor/src/discovery.rs:421-495 | likewise for an address |
| `Resolving.TellingKeepsFresh` | hick-reactor/src/discovery.rs:450-464 | surfacing exactly those changes keeps every complete builder's latest snapshot equal to its current state |
| `Resolving.StaleIffIncomplete` | hick-reactor/src/discovery.rs:347-464 | the latest snapshot of an instance surfaced before is its current view exactly while it is complete |
| `Browsing.RetargetShownIff` | hick-reactor/src/discovery.rs:347-400 | after an SRV for an instance surfaced before, the consumer holds its current view exactly when an address of the target is cached |
| `Browsing.StaleIsReached` | hick-reactor/src/discovery.rs:320-445 | a stale view is reached: SRV to one host, TXT, an address of it, then SRV to a host no address is known of |
| `Resolving.EnqueueEffect` | hick-reactor/src/discovery.rs:497-507 | coalescing keeps at most one pending entry per instance, replaces that instance's snapshot, and disturbs no other |
| `Resolving.CoalescingKeepsLatest` | hick-reactor/src/discovery.rs:497-507 | whatever was read before, coalescing and plain appending give each instance the same latest snapshot |
| `Browsing.Resolver.OnPtr` | hick-reactor/src/discovery.rs:320-342 | a new instance within the cap asks for SRV and TXT; a known one or one past the cap changes nothing tracked, and the latter is counted |
| `Browsing.Resolver.OnSrv` | hick-reactor/src/discovery.rs:347-400 | keeps the resolver coherent and fresh, asks for a host's addresses the first time within the cap, and surfaces what changed |
| `Browsing.Resolver.OnTxt` | hick-reactor/src/discovery.rs:402-413 | keeps the resolver coherent and fresh, and surfaces what changed |
| `Browsing.Resolver.OnAddr` | hick-reactor/src/discovery.rs:421-445 | keeps the resolver coherent and fresh; every builder on the host gains the address in its own family's list exactly once, and the changed complete ones are surfaced |
| `Browsing.TurnsKeepFresh` | hick-reactor/src/discovery.rs:421-445 | whichever order the map yields the builders in, the snapshots surfaced leave every complete builder shown as it is |
| `BrowseDriver.LookupQueue.Enqueue` | hick-reactor/src/discovery.rs:497-507 | the in-place scan and overwrite is the coalescing specification |
| `BrowseDriver.FedKeepsBounds` | hick-reactor/src/discovery.rs:840-888 | any answer under the step of a sub-query that was started keeps the tracked steps and the sub-queries started, with all it asks for, within one plus twice the tracked instances and hosts |
| `BrowseDriver.FedIsHeard` | hick-reactor/src/discovery.rs:840-888 | which answer does what, by the step it was asked under, field by field, with the follow-ups it asks for; a record of another type does nothing |
| `BrowseDriver.NewsIsShown` | hick-reactor/src/discovery.rs:450-507 | what an answer surfaces, once it waits behind what was given and queued, keeps every instance shown as the resolver surfaced it |
| `BrowseDriver.LookupTask.Process` | hick-reactor/src/discovery.rs:569-580 | one answer, aggregated, launched and flushed, keeps what the consumer has read or can read current; the sub-queries it starts are exactly those it asked for that were accepted, in order |
| `BrowseDriver.LookupTask.Flush` | hick-reactor/src/discovery.rs:587-599 | moving surfaced entries into the shared queue hides nothing: each instance's latest snapshot survives |
| `BrowseDriver.LookupTask.Next` | hick-reactor/src/discovery.rs:637-660 | a read hands over the oldest pending entry and leaves each instance's latest snapshot as it was |
| `BrowseDriver.LookupTask.ConsumerIsCurrent` | hick-reactor/src/discovery.rs:539-600 | at every moment: the latest snapshot, read or pending, of an instance with SRV, TXT and an address of either family is its name, host, port, addresses and TXT as they stand, and none is shown of an instance that never had them; the queue is no longer than the instances tracked; at most 4·max+1 sub-query streams are open |
| `LookupStates.FedKeepsSound` | hick-mio/src/discovery.rs:561-713 | any answer under the step it was asked for keeps host-address coherence, the caps, the fan-out bound and the tracking of every step; the debug assertions of the handlers never fire |
| `LookupStates.FedIsHeard` | hick-mio/src/discovery.rs:561-676 | which answer does what, by the step it was asked under, field by field, with the follow-ups it asks for; a record of another type does nothing |
| `LookupStates.SrvKeepsCoherent` | hick-mio/src/discovery.rs:357-366 | retargeting drops the old host's addresses and adopts exactly the new host's cached list |
| `LookupStates.SrvAndAddressCommute` | hick-mio/src/discovery.rs:605-676 | once a host is queried, an SRV naming it and an address of it give the same lookup in either order |
| `LookupStates.EmittedIsFlagged` | hick-mio/src/discovery.rs:715-731 | `emitted` is the number of flagged instances and never passes the cap |
| `LookupStates.CollectAllKeepsSound` | hick-mio/src/discovery.rs:715-731 | a collection walk in any map order reports each due instance once, under its own name, and counts it |
| `LookupStates.CollectAllReports` | hick-mio/src/discovery.rs:715-731 | the walk leaves nothing due and changes nothing but the flags, the count and the queue of entries |
| `LookupStates.CollectAllTells` | hick-mio/src/discovery.rs:384-400 | the walk flags each instance that has its SRV and host, its TXT and an address of either family, and no other, and tells of each newly flagged one once, with its name, host, port, addresses and TXT |
| `LookupStates.DriversAgree` | hick-mio/src/discovery.rs:561-676 | given the same answer, the synchronous and the async aggregation still describe every instance alike |
| `LookupStates.DriversAskAlike` | hick-reactor/src/discovery.rs:320-400 | and ask for the same sub-queries in the same order |
| `Lookup.LookupCtx.OnAddr` | hick-mio/src/discovery.rs:657-676 | the in-place walk over the partials is that step: every partial on the host gains the address in its own family's list |
| `Lookup.LookupCtx.OnSrv` | hick-mio/src/discovery.rs:605-639 | the in-place handler, adoption loops included, is the specified step |
| `Lookup.LookupCtx.Feed` | hick-mio/src/discovery.rs:678-713 | each step reaches its handler with a tracked key, and a record of another type changes nothing |
| `Lookup.LookupCtx.CollectReady` | hick-mio/src/discovery.rs:715-731 | visits every partial and flags and tells of exactly those with all parts in that were not reported, as they stand |
| `LookupWorlds.EveryRunIsSafe` | hick-mio/src/discovery.rs:768-1414 | over every run of moves by driver, caller, proto layer and clock: ownership, handles, order of reports, counts, completion stamps, reasons to retire and the record of queries that left all stay right |
| `LookupWorlds.MoveKeepsSafe` | hick-mio/src/discovery.rs:1061-1414 | each of the thirteen moves keeps all seven; collecting is guarded by the code's own reading of the window, telling by nothing |
| `LookupWorlds.EveryLookupReportsOnce` | hick-mio/src/discovery.rs:1161-1341 | in every run, for every handle ever minted: each instance reported at most once and never more than asked for, each stamped as completed before the deadline, exactly one `LookupDone` after them all unless running or cancelled |
| `LookupWorlds.StampIsCompletion` | hick-mio/src/discovery.rs:384-400 | the stamp of an entry is the instant of the answer that completed it, kept until the entry is broken up |
| `LookupWorlds.DoneWasOver` | hick-mio/src/discovery.rs:749-766 | in every run a lookup said to be done had expired, or had reported everything due and was at its cap or out of legs |
| `LookupWorlds.NoOrphans` | hick-mio/src/discovery.rs:1395-1414 | in every run a query with an owner belongs to a running lookup of exactly that generation and is among its legs |
| `LookupWorlds.RetiredForever` | hick-mio/src/discovery.rs:822-847 | a handle that stopped resolving never resolves again in any continuation, even when its slot is reused |
| `LookupWorlds.EveryQueryIsKnown` | hick-mio/src/discovery.rs:1395-1414 | in every run each query ever started is either running or on record as having left, never both |
| `LookupWorlds.LeftForGood` | hick-mio/src/discovery.rs:1370-1384 | a query that has left never comes back, and the cursor it left with is settled |
| `LookupWorlds.CursorIsLastRead` | hick-mio/src/discovery.rs:1217-1252 | in every run a query's cursor, and the one it left with, is where the run last read it, whatever ended it |
| `LookupWorlds.FanOutIsBounded` | hick-mio/src/discovery.rs:561-676 | in every run `launched + |pending| <= 1 + 2·partials + 2·hosts`, both sets within the cap, so at most 4·max+1 sub-queries ever start |
| `LookupWorlds.EmittedCountsReports` | hick-mio/src/discovery.rs:715-766 | in every run the counter equals the flagged instances, and the events told when nothing waits |
| `LookupWorlds.EndTakesItsLegs` | hick-mio/src/discovery.rs:1370-1384 | cancelling or finishing leaves exactly the queries that were not that lookup's, and retires its handle and no other |
| `LookupTurns.AllVisitedAt` | hick-mio/src/discovery.rs:1217-1252 | after the answer walk, whatever its order: a leg the proto layer knows is read up to the accepted count, or gone on both sides if it reached its terminal; every other query and leg is as it was |
| `LookupTurns.AllVisitedLoses` | hick-mio/src/discovery.rs:1224-1246 | the walk counts as dropped exactly the answers the pools had evicted before it came |
| `LookupTurns.TurnKnows` | hick-mio/src/discovery.rs:1217-1252 | a turn that leaves its lookup running has taken in every unread answer its legs' pools held: the instance, SRV, TXT or address is there, or there was no room |
| `LookupTurns.LastReadStands` | hick-mio/src/discovery.rs:1217-1252 | of several SRVs, or TXTs, read under one leg the last one stands |
| `LookupTurns.LaunchedEffect` | hick-mio/src/discovery.rs:1253-1290 | each start dealt with became a leg or was refused, and nothing else of the lookup changed |
| `LookupTurns.LaunchedLegs` | hick-mio/src/discovery.rs:1253-1290 | each accepted start is a leg with that step, under the next handle in turn, and its query is the lookup's |
| `LookupTurns.WorkedHears` | hick-mio/src/discovery.rs:1211-1290 | a turn reads every leg it has, moves no query of anyone else, makes new queries its own under new handles, leaves no leg without a query, and counts as dropped exactly what the pools had evicted |
| `LookupTurns.ToldIsNew` | hick-mio/src/discovery.rs:1292-1327 | an entry told in a turn was not complete when the turn began, so the turn's own answers completed it |
| `LookupTurns.AskedForMayLaunch` | hick-mio/src/discovery.rs:1253-1290 | whatever a running lookup asked for it may launch: the step is still tracked and the fan-out bound has room |
| `LookupTurns.GoneWasOver` | hick-mio/src/discovery.rs:1329-1341 | a lookup gone from the slab uncancelled was over at an instant of this tick and was told done |
| `LookupTurns.TickOn` | hick-mio/src/discovery.rs:1183-1331 | one lookup's turn keeps the walk right for all of them: those before it as their turns left them, with their legs read or, if skipped, where they were; those after it untouched; those noted over |
| `LookupTurns.UncountedIffSkipped` | hick-mio/src/discovery.rs:1191-1201 | in a tick a leg leaves answers uncounted exactly when its lookup was found expired before its walk and the pool had accepted some since the last; it is all of them |
| `LookupTurns.UncountedIffUnread` | hick-mio/src/discovery.rs:1217-1252 | in every run a query that has left leaves an answer uncounted exactly when its pool accepted one past the last reading |
| `LookupTurns.PublishedIs` | hick-mio/src/discovery.rs:1325-1340 | the events queued for the caller are the log, notice by notice |
| `LookupDriver.Mdns.AdvanceOne` | hick-mio/src/discovery.rs:1183-1331 | one lookup's turn: it was skipped as expired, or it is over, or every leg's answers were read to the end and folded in, the follow-ups were started or refused, everything due was told and something is left to wait for; no other lookup or query moved |
| `LookupDriver.Mdns.AdvanceLookups` | hick-mio/src/discovery.rs:1161-1341 | a tick: every lookup had one turn from how the tick found it; one that stays had not expired, its legs' answers were folded in to the end, what they asked for was dealt with and all that was due was told; one that is gone was over inside the tick and told done; the caller's own queries are as they were, queued events stay queued, and `dropped` grew by what the turns lost |
| `LookupDriver.Mdns.OpenLeg` | hick-mio/src/discovery.rs:538-556 | a sub-query starts exactly when the window is open on a reading taken here and the proto layer accepts it; `Shut` exactly when that reading is outside |
| `LookupDriver.Mdns.LaunchEach` | hick-mio/src/discovery.rs:1253-1290 | starts are dealt with in order until the window is found shut; those accepted are legs, and `refused` counts exactly the others |
| `LookupDriver.Mdns.RegisterSubquery` | hick-mio/src/discovery.rs:1395-1414 | the one place an owner is set: query, owner and leg with its step are recorded together, under the next handle |
| `LookupDriver.Mdns.Reconcile` | hick-mio/src/discovery.rs:1211-1215 | drops exactly the legs whose query is gone; afterwards every leg has one |
| `LookupDriver.Mdns.ScanLeg` | hick-mio/src/discovery.rs:1224-1246 | feeds exactly the unread answers of the leg's pool, in slab order; the cursor moves to the accepted count and `dropped` by exactly what the pool had evicted |
| `LookupDriver.Mdns.AnswerWalk` | hick-mio/src/discovery.rs:1217-1252 | visits every leg once, in any order, with exactly that effect; `dropped` grows by the evicted answers of those legs |
| `LookupDriver.Mdns.Report` | hick-mio/src/discovery.rs:1315-1327 | on a reading inside the window each instance with all its parts in and not yet reported is flagged, no other is, and the events queued tell of those, once each, with name, host, port, addresses and TXT |
| `LookupDriver.Mdns.TellOne` | hick-mio/src/discovery.rs:1324-1327 | the oldest entry leaves `ready` for the end of the caller's event queue |
| `LookupDriver.Mdns.FinishOne` | hick-mio/src/discovery.rs:1333-1341 | checked removal, cancellation of the legs and the `LookupDone` event happen together, for that slot only |
| `LookupDriver.Mdns.NextEvent` | hick-mio/src/endpoint.rs:538-545 | the oldest lookup event is handed over; read followed by queued is unchanged |
| `LookupDriver.Mdns.Browse` | hick-mio/src/discovery.rs:860-895 | success gives a handle never used before, a window of the asked length and, while it is open, one PTR leg; no other lookup or query moves and nothing is told; a refused start leaves lookups, queries and what was told as they were |
| `LookupDriver.Mdns.StartSeeded` | hick-mio/src/discovery.rs:1000-1049 | with the window still open the legs are exactly those its seed asks for, in order, and no other lookup or query moves; the call fails only if one was refused, and then leaves lookups, queries and what was told as they were |
| `LookupTurns.SeedAsks` | hick-mio/src/discovery.rs:561-600 | a lookup that knows its instance asks for SRV and TXT, one that knows a host for A and AAAA |
| `LookupDriver.Mdns.StopLookup` | hick-mio/src/discovery.rs:985-998 | that lookup and its legs go, their answers unread, and nothing else moves; afterwards the handle resolves to nothing and owns no query; a stale handle changes nothing |
| `LookupDriver.Mdns.CancelQuery` | hick-mio/src/endpoint.rs:752-762 | a leg is ignored; anything else is removed with its cursor where it stood, and no counter moves |
| `Sockets.NeverPassedOverTwice` | hick-mio/src/socket.rs:212-238 | a family that stays selectable is picked in at least one of any two consecutive selections |
| `Sockets.RecvRotor.Pick` | hick-mio/src/socket.rs:224-238 | a family is picked exactly when one can be read, and then one that can; the preferred one wins, and two that stay readable take turns |
| `Sockets.BoundSocket.Attempt` | hick-mio/src/socket.rs:1640-1734 | one read of the wire and no more; the outcome is what it answered, and decides the flag, the counters and the step: only an empty queue or a permanent failure clears the flag; the family stays able to wake |
| `Sockets.BoundSocket.StopReading` | hick-mio/src/socket.rs:1042-1074 | clearing the flag never loses a wakeup: a one-shot registration is re-armed once, and a failure is recorded |
| `Sockets.Sockets.NoLostWakeup` | hick-mio/src/driver.rs:336-434 | for a registered, living family with data queued: an edge is on its way or `next_timeout` is at most 800 ms; a stale registration brings the caller back within 50 ms; scheduled deadlines are never delayed |
| `Sockets.BackoffIsBounded` | hick-mio/src/driver.rs:311-335 | the wait is 50 to 800 ms and doubles with each failing round up to the fifth |
| `Sockets.Sockets.NextTimeoutIs` | hick-mio/src/driver.rs:336-434 | zero with work pending or a family to read; else the soonest of 50 ms for a stale registration, the failing families' 50 to 800 ms by their failed rounds, and the earliest other deadline; none when there is none of these |
| `Sockets.Sockets.RecvOnce` | hick-mio/src/socket.rs:1609-1736 | reads the family the rotation picks once, or nothing when neither can be read; each read is paid for by a datagram, a discard or a family done; only the chosen family changes |
| `Sockets.Sockets.DrainRecv` | hick-mio/src/driver.rs:615-672 | the drain ends whatever the wires answer, within 64·64+2 reads of them, and counts exactly the datagrams read; it stops only at 64 datagrams, at 64 discards since the last one, or when nothing can be read; it reads whenever something can be |
| `Sockets.Sockets.ReadsAreLogged` | hick-mio/src/socket.rs:1640-1734 | the log the bounds speak of holds every read of both wires, and no other |
| `Sockets.Sockets.BeginRecvRound` | hick-mio/src/socket.rs:1512-1528 | a new round makes each readable living family selectable again |
| `Sockets.Sockets.RetryStaleRegistrations` | hick-mio/src/socket.rs:1941-1975 | renews each stale registration once and no other, and succeeds exactly when none is left stale |
| `Sockets.Sockets.Tick` | hick-mio/src/driver.rs:505-585 | the receive side of one tick keeps every invariant within the bound on reads of the two wires, reads if a family is readable, stops for the same reasons, and reports an error exactly when a registration is still stale |
| `Sockets.Sockets.NoteReadiness` | hick-mio/src/socket.rs:1467-1482 | an event marks exactly the family whose registration carries its token |
| `Sockets.Sockets.RegisteredIsClaimed` | hick-mio/src/socket.rs:1086-1104 | a family is in the selector exactly when it holds a token; every such token is claimed by `owns`, and the registry clone to remove it with is held |
| `Sockets.Sockets.Register` | hick-mio/src/socket.rs:1368-1412 | no ghost registration: which calls were made and how each ended decide the error; IPv6 refused after IPv4 is rolled back once, and failure leaves nothing registered, or, if that rollback itself failed, IPv4 alone with its token claimed and the registry kept |
| `Sockets.Sockets.Deregister` | hick-mio/src/socket.rs:1434-1454 | each registered family is removed once; Ok leaves nothing registered, and an error keeps exactly what the selector did not confirm, claimed and retryable |
| `Prefix.MatchIsTopBits` | hick-onlink/src/lib.rs:2536-2563 | a match is equality of the top `prefix` bits of the big-endian integers, and never holds for an over-wide prefix |
| `Prefix.MatchIsEquivalence` | hick-onlink/src/lib.rs:2536-2563 | for each valid prefix, matching is reflexive, symmetric and transitive |
| `Prefix.MatchShortens` | hick-onlink/src/lib.rs:2536-2563 | a match at one length is a match at every shorter length |
| `Prefix.PartialByteDecides` | hick-onlink/src/lib.rs:2550-2562 | the masked byte compare decides exactly the partial byte of those integers |
| `OnLink.SubnetIsTopBits` | hick-onlink/src/lib.rs:2528-2563 | lying in a subnet is agreeing in its top bits within one family; an over-wide prefix holds nothing |
| `OnLink.ClassesOfV4` | hick-onlink/src/lib.rs:2391-2428 | the IPv4 loopback and multicast classes are 127/8 and 224/4 |
| `OnLink.ClassesOfV6` | hick-onlink/src/lib.rs:2391-2428 | the IPv6 classes are ::1/128, ff00::/8 and ::ffff:0:0/96 |
| `OnLink.DeclinedIsBlind` | hick-onlink/src/lib.rs:2049-2357 | declined and blind give the same verdict, for either witness |
| `OnLink.AdmittedIff` | hick-onlink/src/lib.rs:2049-2357 | the whole rule as one condition: not foreign and, by what the destination is, a group placed on our link or with evidence of its own, an address of ours or unlistable with a source on our link, or an unreported one by link multicast or with such a source; a lost destination never |
| `OnLink.AdmissionIs` | hick-onlink/src/lib.rs:2049-2357 | which arm admits |
| `OnLink.RefusalIs` | hick-onlink/src/lib.rs:2049-2357 | which refusal is named: the link before the destination, the destination before the source |
| `OnLink.MoreLinkEvidenceNeverCosts` | hick-onlink/src/lib.rs:1765-1860 | Lost to Declined, or Declined to a witness of the bound interface, never turns an admit into a refuse |
| `OnLink.GroupNeverWorseThanBlind` | hick-onlink/src/lib.rs:2331-2352 | an mDNS group destination is admitted whenever the same datagram without a destination witness is |
| `OnLink.AdmissionGrowsWithPrefixes` | hick-onlink/src/lib.rs:2613-2739 | more on-link prefixes never turn an admit into a refuse |
| `OnLink.ListOrderIsIrrelevant` | hick-onlink/src/lib.rs:2517-2525 | order and repetition of the configured lists change no verdict, nor the arm that gives it |
| `OnLink.LearningAddressesRevokesIff` | hick-onlink/src/lib.rs:2391-2428 | learning local addresses revokes an admission exactly when a witnessed non-group destination was undecided for lack of any and the new list does not hold it |
| `OnLink.LearningAddressesRevokesOne` | hick-onlink/src/lib.rs:2391-2428 | one such datagram: on link 3, from fe80::9 to fe80::7, admitted until the host learns that it is fe80::1 |
| `OnLink.WitnessedDestinationIsOurs` | hick-onlink/src/lib.rs:2049-2260 | an admitted witnessed destination is a group, a bound address, or a plain unicast address while no local address is known |
| `OnLink.AdmissionIsOnOurLink` | hick-onlink/src/lib.rs:1765-1860 | an admitted datagram contradicts no interface witness or scope; with neither, its evidence is a prefix or a multicast delivery |
| `OnLink.SeedNeedsOurLink` | hick-onlink/src/lib.rs:2613-2739 | a source let in by the link-local seed arrived with a witness on a bound interface and agrees with fe80::/64 in its top 64 bits |
| `ServiceMailboxes.CoalescingKeepsMeaning` | hick-compio/src/service.rs:110-140 | dropping what a push supersedes changes nothing the reader will know after it |
| `ServiceMailboxes.KnownIs` | hick-compio/src/service.rs:45-110 | what the updates mean: the last name told, and established exactly if that was told after it |
| `ServiceMailboxes.RetainedOne` | hick-compio/src/service.rs:110-140 | what a push drops: an update of its own kind, if that kind coalesces, and nothing else |
| `ServiceMailboxes.CapNeverBitesToday` | hick-compio/src/service.rs:110-150 | with the kinds there are, at most two updates are pending and the cap never evicts |
| `ServiceMailboxes.FutureKindsCanEvict` | hick-compio/src/service.rs:142-150 | a non-coalescing kind would break this: sixteen of them push a rename out |
| `ServiceMailboxes.ServiceMailbox.PushUpdate` | hick-compio/src/service.rs:110-140 | a terminal goes to its own slot, another update replaces what it supersedes; the meaning of read plus pending equals that of everything pushed |
| `ServiceMailboxes.ServiceMailbox.SetTerminal` | hick-compio/src/service.rs:152-175 | the first terminal wins, and none is recorded after one was delivered |
| `ServiceMailboxes.ServiceMailbox.Drain` | hick-compio/src/service.rs:203-214 | pending updates first, in order, then the terminal once, then the end |
| `ServiceMailboxes.ServiceMailbox.ReaderLearnsEverything` | hick-compio/src/service.rs:45-214 | at any moment what was read and is pending means the same as everything pushed, the backlog is at most two, and only the first terminal is ever delivered |

## Left out

- Integer widths: generations, sequences, handles and loss counters are unbounded; the code wraps 64-bit generations and saturates the counters.
- Case folding: names are stored canonical-lowercase, so a name is its own key and `fold` is the identity.
- Wire formats: rdata decoding, name compression and message encoding; the resolvers are fed decoded records, and a record that does not parse is `Unusable`.
- Socket binding, multicast joins, control-message parsing and system calls: only their outcome classes remain, in `Wires.Wire`.
- Sending: per-family send outcomes, the wire gate, self-send credits and the withdrawal pump; the scheduler sees only how many credits a turn spent.
- mdns-proto beyond the answer pool: probing, conflict handling, caching and retransmission schedules.
- Changing a running query's answer cap, and replacing the pool's storage type.
- The async runtime of hick-reactor and hick-compio: wakers, locks and channels; each `next` is one pass, and each driver step is one call.
- TxDriver.SortInPlace: the standard library's unstable sort is modelled by its result on distinct sequences, not by its comparisons.
- LookupDriver.Mdns.Browse: the vacant slot the slab hands out, and whether the proto layer accepts the start, are parameters, and so is the timeout; one that overflows the clock is `None`, a window that never shuts.
- LookupDriver.Mdns.AdvanceLookups: the slab is walked in an arbitrary order rather than by ascending key, and the budget of a sub-query inside its window is not tracked.
- LookupDriver.Mdns.LaunchEach: one loop stands for the two the code has, which differ only in stopping at a shut window; which start is refused is a parameter.
- LookupDriver.Mdns.ScanLeg: how an answer decodes to a record is a parameter, and the event queue of this model holds the lookup events only, its drop counter apart.
- UpdatePump.Pump.PushUpdates: service updates and lookup events, which share the queue, enter as opaque events; their own ordering is the concern of the core and of the lookup stage.
- TxDriver.Senders.DrainTransmits: what each sender has to send is a parameter, and that the turns of the walk are those `ServiceTurn` and `QueryTurn` make of it is a precondition, since the visitor is a function and they are methods.
- TxDriver.QueryTurn: the terminal a retired query surfaces is queued by `UpdatePump.Pump.Retire`, not in the turn.
- Sockets.Sockets.NoLostWakeup: the selector is assumed to report a socket again on a renewed registration with data queued, which is what its documentation promises.
- Resolving.TellingKeepsFresh: the freshness claim is about complete instances; nothing forces a stale snapshot to be withdrawn.
- Timeouts of the async lookup task and the cancellation of its sub-query streams.
- hick-embassy, the command channels, statistics, tracing, options and error types: accessors and plumbing over the same ideas.
