# st3 in Dafny

This project models the concurrent core of st3 and proves what it promises: two bounded
work-stealing ring queues (LIFO and FIFO), the bulk copy between them, the unbounded
block-linked injector, and the worker pool with its sleep/wake protocol on top of a
three-state park word.

## How it is built

Each concurrent component is a state machine in which every atomic access, and every access
to a slot of memory, is one step of one of any number of agents, with the agent's stale loads
kept as local values. A schedule says which agent moves and what the environment decides (a
call to start, an item of an iterator, the answer of `count_fn`, a spurious CAS failure, a
random victim). All theorems are about every schedule.

The ring queues are written once with a switch: on wrap-around words of `w` values, which is
the shipped code, and on unbounded counters. Safety, refinement and conservation are proved on
the unbounded counters; the wrap modules prove that the words simulate them.

| file | contents |
|---|---|
| `Words`, `Ring`, `Memory` | words, packing, masks; rings of slots, tallies, sweeps; raw memory behind a ring |
| `LifoMachine`, `LifoSafety`, `LifoWrap`, `LifoDeque`, `LifoTheorems` | the LIFO queue: steps, invariant, words, refinement of a deque, theorems |
| `FifoMachine`, `FifoSafety`, `FifoWrap`, `FifoDeque`, `FifoTheorems` | the same for the FIFO queue |
| `LifoCalls`, `LifoProgress`, `FifoCalls`, `FifoProgress` | whole calls: what they take, in which order they deliver, and that each ends if left alone |
| `LifoRuns`, `LifoFindings`, `FifoRuns`, `FifoFindings` | runs of the shipped words, step by step, and what the words do not promise, with exact conditions |
| `LifoWorker`, `FifoWorker` | both queues as classes that update words and raw memory in place, one caller at a time, stealing with the bulk copy |
| `Transfer` | the bulk copy against the per-item loop, and (`StealTransfer`) that a steal meets its demands |
| `InjectorMachine`, `InjectorSafety`, `InjectorTheorems` | the injector |
| `InjectorAnswers`, `InjectorProgress` | what its calls answer, and that they end or wait for a named other call |
| `Permit` | the park word |
| `PoolMachine`, `PoolSafety`, `PoolTheorems` | the pool |
| `PoolAmounts`, `PoolFairness`, `PoolSweep`, `PoolLeaving` | how many sleepers a burst wakes, how long a worker may serve one source, what it shares and takes, what a sweep looks at, and when it leaves |
| `HostedPool` | the pool with every `park` and `unpark` made of the accesses to its park words |

Invariants are local: shared objects carry bookkeeping fields that the code does not store
(who owns a side, who has a steal open, who has a ticket, who has claimed a worker), so each
step is checked against the object it touches and a rely relation covers everybody else.

## Findings

* **The documented ABA bound and `Empty`.** README.md:204-219 argues that a preemption shorter
  than one round of words is harmless. Memory is safe under it: the LIFO queue if fewer than `w`
  pops and fewer than `w` stolen items fall into one booking call (`LifoTheorems.ShippedRun`),
  although `old_head` is never reloaded; the FIFO queue if fewer than `w` items leave its front
  (`FifoTheorems.ShippedRun`). But a booking call can still answer `Empty` for a queue that holds
  an item at every moment of the call. `LifoFindings.EmptyCanBeSpurious` and
  `FifoFindings.EmptyCanBeSpurious` are runs of the shipped machine from a new queue that do so,
  with `w = 4` and a ring of two: push, push; a drain starts and loads its words; pop, push, pop,
  push, pop; the drain computes its count. (`LenIsDeque` and `LenIsQueue` say that the words count
  what the queue holds.)
  The exact condition, for both queues and any content of the ring: the answer is honest if and
  only if the items that left since the loads, modulo `w`, are fewer than `w` less the capacity
  (`EmptyIsHonestIff`). `LifoWrap.SimulatesIffFresh` is a different condition, for a step on words
  to be a step on unbounded counters at all.
* **Dropping a LIFO queue after a leaked drain** (src/lifo.rs:251-263) sweeps the slots that the
  drain has already emptied, and releases what it moved out of them a second time: it goes over
  exactly as many such slots as the drain had handed out items (`LifoTheorems.DropReleases`), so
  it is sound if and only if that number is zero (`LifoTheorems.DropIsSound`).
  `LifoFindings.LeakedDrainDropsTwice` is a run that ends there. The FIFO queue never does it
  (`FifoTheorems.DropIsExact`); it leaves the unread items of the leaked drain behind
  (`FifoTheorems.DropIsComplete`).
* The comment at src/fanout/mod.rs:590-594 does not describe `take_from_injector`; the model
  follows the code (src/fanout/mod.rs:1245-1278).

## Model

| member | source | states |
|---|---|---|
| Words.PackIsFaithful | src/lib.rs:99-109 | packing two short words loses nothing, so one compare-exchange on the long word compares both |
| Words.MaskIsMod | src/lifo.rs:104-130 | the mask of a power-of-two ring selects the position modulo the capacity |
| LifoSafety.FilledInv | src/lifo.rs:388-416 | the slot above the tail that the owner writes holds no live item, and filling it keeps the window of the ring |
| LifoSafety.GoodBooked | src/lifo.rs:165-240 | a successful booking CAS proves the never reloaded head current: no other steal is open and the booked items are there |
| LifoSafety.LootedInv | src/lifo.rs:563-587 | the next booked item is in its slot when the thief moves it out, whatever the owner has pushed meanwhile |
| LifoSafety.ReleasedInv | src/lifo.rs:637-690 | releasing the head opens only slots that were vacated |
| LifoSafety.Stable | src/lifo.rs:149-242 | what an agent holds survives every step of every other agent |
| LifoSafety.GoodNext | src/lifo.rs:149-774 | no step of any operation faults: no slot is overwritten while live, none is moved out twice, and no room computation underflows |
| LifoSafety.StepKeeps | src/lifo.rs:149-774 | every step of every agent keeps released head <= booked head <= tail and tail - released head <= capacity, and the agents' roles |
| LifoSafety.InitInv | src/lifo.rs:283-312 | new queues of any power-of-two capacity up to half the word range start inside the invariant |
| LifoDeque.StepRefines | src/lifo.rs:388-505 | each step is exactly the named move of a bounded deque with one open steal, or no move |
| LifoDeque.RunRefines | src/lifo.rs:388-774 | over every interleaving each queue runs as that deque: pushes append, pops remove the back, a booking removes exactly the front `count` items |
| LifoDeque.HandsOut | src/lifo.rs:563-587 | the item that a steal or a pop moves out is the one the deque says is due |
| LifoDeque.PopNoneIsEmpty | src/lifo.rs:460-505 | `pop` returns `None` only at a step at which the deque is empty |
| LifoDeque.NoItemsIsEmpty | src/lifo.rs:176-200 | a booking round that computes no items, from counters however old, finds the deque empty at that step |
| LifoDeque.ReadsAreSafe | src/lifo.rs:388-455 | no slot that a thief or a popper still has to read can be written by anyone, not even by its own transfer in a self-steal |
| LifoDeque.AccessIsExclusive | src/lifo.rs:637-774 | two agents never read the same slot and never both write to one queue |
| LifoWrap.AgreesPop | src/lifo.rs:460-505 | the owner's CAS on words succeeds exactly when the one on unbounded counters does, with no bound on preemption |
| LifoWrap.FreshSimulates | src/lifo.rs:165-240 | a step on words is a step on unbounded counters, unless a booking call compares a counter that went round |
| LifoWrap.SimulatesIffFresh | src/lifo.rs:165-240 | the exact condition: the words simulate the counters at a step if and only if the step is fresh |
| LifoWrap.BoundedIsFresh | README.md:204-219 | fewer than `w` pops and fewer than `w` stolen items within one booking call make all its steps fresh, including retries with the old head |
| LifoWrap.WrapRun | src/lifo.rs:149-774 | every bounded run on words is the image of a run on unbounded counters |
| LifoTheorems.StepConserves | src/lifo.rs:560-606 | each step moves an item between the outside, a slot and a thief's hand, and loses or duplicates none |
| LifoTheorems.RunConserves | src/lifo.rs:637-774 | over a network of queues with pushes, pops, drains, cross-steals and self-steals, items pushed are items consumed plus items held, as multisets |
| LifoTheorems.PushNeedsRoom | src/lifo.rs:350-416 | `push` fails exactly when there is no room at the load of the head; the spare capacity is that room and never underflows |
| LifoTheorems.RoomOverRun | src/lifo.rs:350-368 | the spare capacity an owner saw stays available under every schedule, less only what it appends itself |
| LifoTheorems.SpareIsKept | src/lifo.rs:350-368 | while fewer items are appended than the spare capacity was, every push finds room, on every schedule |
| LifoTheorems.ExtendFillsRoom | src/lifo.rs:425-455 | `extend` goes on exactly while there is room below the head it read |
| LifoTheorems.IsEmptyIsExact | src/lifo.rs:374-380 | the comparison of `is_empty`, on words, is true exactly when the deque is empty |
| LifoTheorems.EmptyUntilAppend | src/lifo.rs:369-380 | once the deque is empty, no pop and no booking succeeds until the owner appends |
| LifoTheorems.ShippedRun | src/lifo.rs:149-774 | from new queues, every bounded run of the shipped words makes no bad access, conserves items, and is the image of a safe unbounded run |
| LifoTheorems.ShippedRefines | src/lifo.rs:149-774 | in every such run the moves of each queue replay on the bounded deque from empty, and its words and slots show exactly the deque they lead to, length and items |
| LifoCalls.BooksMost | src/lifo.rs:177-217 | on words, a round whose heads agree books as many items as are wanted, shown and fit: `steal_and_pop` fits one more than the destination has room for; it gives up only if none is wanted, none is shown or none fits |
| LifoCalls.StartsAsAsked | src/lifo.rs:637-774 | a call starts for the queues, the item and the kind that its caller named, unless the owner side is in use |
| LifoCalls.StaysAsAsked | src/lifo.rs:637-774 | and keeps them until it ends |
| LifoCalls.BookedIsDelivered | src/lifo.rs:637-774 | under every schedule the booked front of the source arrives above the destination's tail complete and in order, but for the last item of a `steal_and_pop`, which is handed out; a drain hands out all of it |
| LifoCalls.PublishJoins | src/lifo.rs:637-774 | one step joins what was moved to the back of the destination |
| LifoProgress.StepNearer | src/lifo.rs:149-774 | every own step brings a call nearer to its end, spurious CAS failures apart: no call waits for another |
| LifoProgress.EndsAlone | src/lifo.rs:149-774 | from every state that any schedule can leave, a call that runs alone ends within a number of its own steps that the capacities bound |
| LifoFindings.EmptyCanBeSpurious | README.md:204-219 | a run of the shipped words from a new queue, within the documented bound, in which a drain of a queue that holds an item at every moment of the call reports `Empty` |
| LifoFindings.AbortMeansSaysEmpty | src/lifo.rs:177-217 | with a count asked for and a place for one item, a booking round gives up exactly when its words show no items; a full destination is such a place for `steal_and_pop` |
| LifoFindings.EmptyIsHonestIff | src/lifo.rs:177-185 | whatever the queue holds, showing no items means an empty deque if and only if the pops and stolen items since the loads, modulo `w`, are fewer than `w` less the capacity |
| LifoFindings.LeakedDrainDropsTwice | src/lifo.rs:251-263 | a run of the shipped words in which a drain of two items is leaked after handing out one, and dropping the queue then releases the slot of that item again |
| LifoTheorems.DropReleases | src/lifo.rs:251-263 | `drop` releases a second time exactly as many slots as a leaked drain had moved items out of, and else what that drain had left and then the deque, in order |
| LifoTheorems.DropIsSound | src/lifo.rs:251-263 | it releases nothing twice if and only if no leaked drain had moved anything out |
| LifoTheorems.DropIsExact | src/lifo.rs:251-263 | each item still in the queue is released once, no slot stays occupied, and the releases of moved-out slots on top of that are those of the leaked drain |
| LifoTheorems.DropQueue | src/lifo.rs:251-263 | the loop of `drop` on the stored words does what sweeping the unbounded positions does |
| Words.CeilLogIsLeast | src/lifo.rs:283-296 | rounding a requested capacity up gives the least power of two that is large enough |
| LifoWorker.LifoQueue.constructor | src/lifo.rs:283-312 | for any minimum capacity up to half the word range, a new empty queue whose capacity is the least power of two no less than it |
| LifoWorker.New | src/lifo.rs:283-312 | `Worker::new` fails exactly for a minimum capacity above half the word range, and otherwise gives less than twice what was asked for |
| LifoWorker.LifoQueue.SpareCapacity | src/lifo.rs:350-368 | the answer is the number of items that can be added, and never underflows |
| LifoWorker.LifoQueue.IsEmpty | src/lifo.rs:374-380 | true exactly when the deque is empty |
| LifoWorker.LifoQueue.Push | src/lifo.rs:388-416 | in place: appends the item if there is room and leaves the deque and an open drain alone otherwise |
| LifoWorker.LifoQueue.Extend | src/lifo.rs:425-455 | in place: appends exactly the longest prefix that fits |
| LifoWorker.LifoQueue.Pop | src/lifo.rs:460-505 | in place: removes and returns the newest item, `None` exactly on an empty deque |
| LifoWorker.LifoQueue.BookItems | src/lifo.rs:149-242 | undisturbed: `Busy`, `Empty` and the booked count are decided exactly, and exactly the front items are booked |
| LifoWorker.Drain.Next | src/lifo.rs:563-587 | yields the booked items oldest first and releases the head with the last one |
| LifoWorker.Steal | src/lifo.rs:637-774 | `steal` and `steal_and_pop` with the bulk copy, between two queues or within one: as many items as are wanted, there and fit, the front ones in order, the newest of them returned by `steal_and_pop`; empty-handed exactly if none is wanted, none is there, or `steal` has no room |
| FifoSafety.HeadsDifferIffOpen | src/fifo.rs:142-201 | the two heads differ exactly while a steal is open, and one agent has it open |
| FifoSafety.BookedInv | src/fifo.rs:142-201 | booking the front items keeps the ring's window |
| FifoSafety.ClaimedInv | src/fifo.rs:390-423 | a pop during an open steal claims an item outside the booked range |
| FifoSafety.CompletedInv | src/fifo.rs:607-627 | completing a steal with the worker head where pops have moved it exposes only vacated slots |
| FifoSafety.CollectedInv | src/fifo.rs:420-423 | a popped slot still holds its item when it is read, however many steals completed since |
| FifoSafety.GoodDone | src/fifo.rs:495-517 | the assertion that the stealer head is unchanged at completion holds on every schedule |
| FifoSafety.Stable | src/fifo.rs:142-201 | what an agent holds survives every step of every other agent |
| FifoSafety.GoodNext | src/fifo.rs:142-720 | no step of any operation faults or fails an assertion |
| FifoSafety.StepKeeps | src/fifo.rs:142-720 | every step of every agent keeps stealer head <= worker head <= tail, the capacity bound and the agents' roles |
| FifoDeque.StepRefines | src/fifo.rs:335-423 | each step is exactly the named move of a bounded queue with one open steal and one pop under way, or no move |
| FifoDeque.RunRefines | src/fifo.rs:335-720 | over every interleaving each ring runs as that queue |
| FifoDeque.ClaimsInOrder | src/fifo.rs:390-423 | any run of the queue claims items in the order in which they were added |
| FifoDeque.ClaimsArePrefix | src/fifo.rs:142-423 | ordered by successful head CAS, the popped and booked items are always a prefix of the pushed ones, and the ring holds the rest |
| FifoDeque.PopNoneIsEmpty | src/fifo.rs:390-400 | `pop` returns `None` only at a step at which the queue is empty |
| FifoDeque.IsEmptyIsEmpty | src/fifo.rs:322-327 | `is_empty`, on words, answers true only if the queue is empty at that step |
| FifoDeque.HandsOut | src/fifo.rs:483-520 | the item that a steal or a pop moves out is the one that is due |
| FifoDeque.ReadsAreSafe | src/fifo.rs:335-385 | no slot that still has to be read can be written by anyone, self-steals included |
| FifoDeque.AccessIsExclusive | src/fifo.rs:570-628 | two agents never read the same slot, so a pop never touches a booked range |
| FifoWrap.AgreesClaim | src/fifo.rs:402-418 | the pop CAS on words is ABA-free under every schedule |
| FifoWrap.AgreesDone | src/fifo.rs:607-627 | the completion CAS on words is ABA-free under every schedule |
| FifoWrap.OfferNeverGrows | src/fifo.rs:150-173 | words never make a booking round take more than is there |
| FifoWrap.FreshSimulates | src/fifo.rs:150-199 | every step on words but a stale booking CAS is a step on unbounded positions |
| FifoWrap.StaleDeviates | src/fifo.rs:186-199 | a booking CAS that is not fresh does what no unbounded one does: the condition is exact |
| FifoWrap.BoundedIsFresh | README.md:204-219 | fewer than `w` items leaving the front within one booking call make its CAS fresh |
| FifoWrap.WrapRun | src/fifo.rs:142-720 | every bounded run on words is the image of a run on unbounded positions |
| FifoTheorems.RunConserves | src/fifo.rs:483-539 | over a network of queues, items pushed are items consumed plus items held, as multisets |
| FifoTheorems.PushNeedsRoom | src/fifo.rs:306-355 | the room an owner computes never underflows and never exceeds the room there is |
| FifoTheorems.RoomOverRun | src/fifo.rs:306-315 | the spare capacity an owner saw stays available, less only what it appends itself |
| FifoTheorems.SpareIsKept | src/fifo.rs:306-315 | while fewer items are appended than the spare capacity was, every push finds room, whatever happens before and between its two loads |
| FifoTheorems.ExtendFillsRoom | src/fifo.rs:364-385 | `extend` goes on exactly while there is room below the head it read |
| FifoTheorems.EmptyUntilAppend | src/fifo.rs:317-327 | once the queue is empty, no pop and no booking succeeds until the owner appends |
| FifoTheorems.ShippedRun | src/fifo.rs:142-720 | from new queues, every bounded run of the shipped words makes no bad access, fails no assertion, conserves items, and is the image of a safe unbounded run |
| FifoTheorems.ShippedRefines | src/fifo.rs:142-720 | in every such run the moves of each queue replay on the bounded queue from empty, and its words and slots show exactly the queue they lead to, length and items |
| FifoCalls.BooksMost | src/fifo.rs:150-183 | on words, a round whose heads agree books as many items as are wanted, shown and fit: `steal_and_pop` fits one more than the destination has room for; it gives up only if none is wanted, none is shown or none fits |
| FifoCalls.StartsAsAsked | src/fifo.rs:570-720 | a call starts for the queues, the item and the kind that its caller named, unless the owner side is in use |
| FifoCalls.StaysAsAsked | src/fifo.rs:570-720 | and keeps them until it ends |
| FifoCalls.BookedIsDelivered | src/fifo.rs:483-720 | under every schedule the booked front of the source arrives above the destination's tail complete and in order, but for the last item of a `steal_and_pop`, which is handed out; a drain hands out all of it |
| FifoCalls.PublishJoins | src/fifo.rs:570-720 | one step joins what was moved to the back of the destination |
| FifoProgress.StepNearer | src/fifo.rs:142-720 | every own step brings a call nearer to its end, spurious CAS failures apart: no call waits for another |
| FifoProgress.EndsAlone | src/fifo.rs:142-720 | from every state that any schedule can leave, a call that runs alone ends within a number of its own steps that the capacities bound |
| FifoFindings.EmptyCanBeSpurious | README.md:204-219 | a run of the shipped words from a new queue, within the documented bound, in which a drain of a queue that holds an item at every moment of the call reports `Empty` |
| FifoFindings.AbortMeansSaysEmpty | src/fifo.rs:150-173 | with a count asked for, a place for one item and no steal open at the load, a booking round gives up exactly when its words show no items; a full destination is such a place for `steal_and_pop` |
| FifoFindings.EmptyIsHonestIff | src/fifo.rs:161-168 | whatever the queue holds, showing no items means an empty queue if and only if the items that left the front since the load, modulo `w`, are fewer than `w` less the capacity |
| FifoTheorems.DropIsExact | src/fifo.rs:210-220 | `drop` always reads live slots and releases exactly the items of the queue, in order |
| FifoTheorems.DropIsComplete | src/fifo.rs:210-220 | it leaves nothing behind if and only if no leaked drain still had items to move out |
| FifoTheorems.DropQueue | src/fifo.rs:210-220 | the loop of `drop` on the stored words does what sweeping the unbounded positions does |
| FifoWorker.FifoQueue.constructor | src/fifo.rs:240-266 | for any minimum capacity up to half the word range, a new empty queue whose capacity is the least power of two no less than it |
| FifoWorker.New | src/fifo.rs:240-266 | `Worker::new` fails exactly for a minimum capacity above half the word range, and otherwise gives less than twice what was asked for |
| FifoWorker.FifoQueue.Push | src/fifo.rs:335-355 | in place: appends the item if there is room and changes nothing otherwise |
| FifoWorker.FifoQueue.Extend | src/fifo.rs:364-385 | in place: appends exactly the longest prefix that fits |
| FifoWorker.FifoQueue.Pop | src/fifo.rs:390-423 | in place: removes and returns the oldest item, also while a steal is open, whose items it leaves alone |
| FifoWorker.FifoQueue.BookItems | src/fifo.rs:142-201 | undisturbed: `Busy`, `Empty` and the booked count are decided exactly |
| FifoWorker.Steal | src/fifo.rs:570-720 | `steal` and `steal_and_pop` with the bulk copy, between two queues or within one: as many items as are wanted, there and fit, the front ones in order, the newest of them returned by `steal_and_pop`; empty-handed exactly if none is wanted, none is there, or `steal` has no room |
| Transfer.CopiedAt | src/transfer.rs:94-117 | each destination slot receives the item of its source slot |
| Transfer.CopiedElsewhere | src/transfer.rs:94-117 | no other slot changes |
| Transfer.SourceIntact | src/transfer.rs:28-35 | a self-transfer of disjoint ranges leaves its source alone |
| Transfer.TransferScalar | src/transfer.rs:129-146 | the per-item loop on wrapped and masked words, in place, meets the specification |
| Transfer.TestDisjoint | src/transfer.rs:74-92 | the nested loop of the debug check decides all nine pairs of chunks |
| Transfer.TestIffDisjoint | src/transfer.rs:71-92 | that check passes if and only if no source slot is a destination slot: empty chunks raise no false alarm |
| Transfer.CopyChunk | src/transfer.rs:102-116 | the short loop and the block copy of one chunk have the same effect |
| Transfer.CopyChunks | src/transfer.rs:64-117 | the three chunks together meet the specification, and the check on a self-steal passes |
| Transfer.TransferBulk | src/transfer.rs:42-117 | the shipped copy leaves the same destination as the per-item loop, in bounds, for all capacities, wrapped positions and counts |
| StealTransfer.LifoTransferIsSafe | src/lifo.rs:729-755 | a LIFO steal meets the demands of the copy; in a self-steal the ranges are disjoint and the item returned by `steal_and_pop` is spared |
| StealTransfer.FifoTransferIsSafe | src/fifo.rs:662-690 | the same for a FIFO steal |
| InjectorSafety.GoodNext | src/fanout/injector.rs:167-339 | in every interleaving no block is touched after it was freed or freed twice, no value is read before it is written, and `len` does not underflow |
| InjectorSafety.TicketedInv | src/fanout/injector.rs:208-222 | a producer's successful ticket CAS fits the block it loaded separately |
| InjectorSafety.ClaimedInv | src/fanout/injector.rs:273-299 | a consumer's successful ticket CAS fits the block it loaded separately |
| InjectorSafety.SetReadBlock | src/fanout/injector.rs:294-298 | a reader that finds the DESTROY mark inherits the duty, which was left to it and nobody else |
| InjectorSafety.LeaveBlock | src/fanout/injector.rs:125-135 | marking DESTROY either passes the slot or leaves the duty to exactly its reader |
| InjectorSafety.LenIsUnclaimed | src/fanout/injector.rs:316-339 | for all index words, also ones parked on a block boundary, the arithmetic of `len` counts the unclaimed tickets and never underflows |
| InjectorSafety.StepKeeps | src/fanout/injector.rs:167-339 | every step of every producer and consumer keeps the invariant of the chain |
| InjectorTheorems.StepRefines | src/fanout/injector.rs:167-308 | a successful tail CAS appends the pushed value, a successful head CAS removes the front, and nothing else changes the queue |
| InjectorTheorems.RunIsFifo | src/fanout/injector.rs:167-308 | first in, first out in ticket order, over every interleaving |
| InjectorTheorems.PopsArePrefix | src/fanout/injector.rs:155-308 | from a new injector what was dequeued is a prefix of what was enqueued, and the rest is pending |
| InjectorTheorems.StepTicks | src/fanout/injector.rs:215-291 | each ticket is handed out once, in increasing order, and an index otherwise only moves over a boundary |
| InjectorTheorems.AnswersDue | src/fanout/injector.rs:279-299 | a value that a pop answers is the one pushed with its own ticket |
| InjectorAnswers.ClaimIsAnswered | src/fanout/injector.rs:273-304 | a pop that has won its ticket leaves the call only by answering the value due to it |
| InjectorAnswers.ValuesAreReturned | src/fanout/injector.rs:167-308 | in every run from a new injector and for every value: how often it was handed to a push is how often pops answered it, plus how often it is pending, owed by a pop that has claimed it, or in a push without a ticket |
| InjectorAnswers.AllEnded | src/fanout/injector.rs:167-308 | so once all calls have ended, what was handed over and not answered is what is pending |
| InjectorAnswers.CallAnswers | src/fanout/injector.rs:167-339 | every call stays what it was started as and ends with an answer of its own kind |
| InjectorAnswers.DoneIsReadable | src/fanout/injector.rs:222-232 | a push returns once its value is in its slot and marked as written |
| InjectorProgress.EndsAlone | src/fanout/injector.rs:167-339 | from every state that any schedule can leave, a call that runs alone ends, or comes to wait for another, within 83 of its own steps |
| InjectorProgress.WaitHasReason | src/fanout/injector.rs:86-125 | a call that waits does so for a named call that is in progress: the writer of its slot, the installer of a block, or the one that moves the head |
| InjectorProgress.SomebodyMoves | src/fanout/injector.rs:167-308 | no deadlock: while any call is in progress, the next step of some call brings it nearer to its end |
| InjectorProgress.EmptyIsSeen | src/fanout/injector.rs:254-314 | with a current head that is not on a boundary, `None` and `is_empty` are exact both ways |
| InjectorTheorems.NothingIsEmpty | src/fanout/injector.rs:254-263 | `None`, and `true` from `is_empty`, mean that the queue was empty at that step |
| InjectorTheorems.LenIsExact | src/fanout/injector.rs:316-339 | `len` returns the number of unclaimed values at its load of the head |
| InjectorTheorems.RolesAreExclusive | src/fanout/injector.rs:215-299 | no ticket is held twice, and at most one agent carries the duty to destroy a block |
| InjectorTheorems.FreedIsDone | src/fanout/injector.rs:125-135 | a freed block has had the last access of every writer and every reader |
| InjectorTheorems.QuiescentIsSettled | src/fanout/injector.rs:125-135 | once nobody is inside the queue, exactly the blocks behind the head have been freed |
| InjectorTheorems.Drop | src/fanout/injector.rs:342-367 | `drop` releases each pending value once, in order, and each remaining block once |
| Permit.RunIsSafe | src/fanout/atomic_host.rs:82-129 | `park` is never entered at `ASLEEP`; a parker blocked in the kernel has the word at `ASLEEP` or a wake on its way; there are never more returns than unparks |
| Permit.SignalIsDelivered | src/fanout/atomic_host.rs:82-129 | after an unpark's swap the park in progress or the next one returns within a bounded number of the parker's own moves, despite spurious returns |
| Permit.UnparkIsDelivered | src/fanout/atomic_host.rs:111-129 | from the swap of any unpark on, the park in progress or the next one returns within as many of the parker's own moves as it was away from returning |
| Permit.OwedIsNotStuck | src/fanout/atomic_host.rs:104-129 | a parker blocked although a signal is outstanding has a wake coming that unblocks it |
| Permit.PermitSkipsWait | src/fanout/atomic_host.rs:90-99 | a park entered with a signal outstanding returns without waiting |
| PoolSafety.GoodNext | src/fanout/mod.rs:760-1423 | every step of every thread keeps the sleep handshake and never finds the deque slot occupied |
| PoolSafety.GoodPrepare | src/fanout/mod.rs:1296-1308 | after the announcement, whatever was looked at stays looked after until the worker sleeps |
| PoolSafety.GoodSpecClear | src/fanout/mod.rs:826-834 | a local submission ends with its worker awake or about to be woken |
| PoolSafety.GoodClaim | src/fanout/mod.rs:919-932 | finding no announced sleeper proves that every worker will look again |
| PoolSafety.StepKeeps | src/fanout/mod.rs:760-1423 | the invariant of the pool holds along every run |
| PoolTheorems.StepConserves | src/fanout/mod.rs:760-787 | each step keeps every submitted job in exactly one place, through displacement, capped slots, sharing with a full deque and steal overflow |
| PoolTheorems.RunConserves | src/fanout/mod.rs:1007-1171 | in every run each submitted job is in one injector, inbox, slot, deque, private queue or hand until it runs, and runs at most once |
| PoolLeaving.JobsInAndOut | src/fanout/mod.rs:760-845 | the jobs a call takes in are those handed to it, and a job counts as run when it ends |
| PoolLeaving.NewestIsWarm | src/fanout/mod.rs:771-787 | a local submission puts the new job into the slot and the one it displaces into the inbox, or into the injector under the policy that shares displaced work |
| PoolFairness.SlotIsCapped | src/fanout/mod.rs:1001-1042 | in every run a worker starts at most `lifo_run_limit` jobs from its slot at the top of the loop between two looks at its private queue |
| PoolFairness.TopTurns | src/fanout/mod.rs:1013-1042 | below the limit the job in the slot is run, and at the limit nothing is taken from the slot and the private queue comes next |
| PoolFairness.InboxIsCapped | src/fanout/mod.rs:1075-1094 | a producer that keeps feeding the inbox makes its worker move at most `promote_every` jobs between two rounds |
| PoolFairness.PromotionComes | src/fanout/mod.rs:1038-1048 | private jobs are started only as often as the countdown says before the worker thinks of sharing |
| PoolFairness.TakesBatch | src/fanout/mod.rs:1245-1278 | a refill takes the oldest injected jobs, to the end of the batch or of the injector, and sets out to wake one sleeper for each job left, as far as there are workers |
| PoolFairness.SharesOldest | src/fanout/mod.rs:1337-1367 | under every schedule sharing moves the oldest private jobs in order, as many as intended unless the deque fills up, and sets out to wake a sleeper for each |
| PoolSweep.SharesHalf | src/fanout/mod.rs:1327-1341 | half of the private jobs are to be shared: at a refill always, on the countdown if somebody sleeps |
| PoolSweep.SweepIsExhaustive | src/fanout/mod.rs:1374-1423 | a sweep that ends with nothing has looked at the deque of every other worker, wherever it started |
| PoolSweep.LootIsHalf | src/fanout/mod.rs:1410-1413 | a steal takes the oldest jobs of a deque, at most half of it and of a batch, rounded up |
| PoolTheorems.AsleepIsIdle | src/fanout/mod.rs:1202-1217 | before shutdown, if every worker is blocked with no permit and nobody is mid-call, no job is left anywhere |
| PoolTheorems.AsleepMeansDone | src/fanout/mod.rs:760-1423 | then every job ever submitted has run exactly once, for any tuning and any number of threads |
| PoolTheorems.RestingIsEmpty | src/fanout/mod.rs:1037-1230 | a worker that is parked or has left its loop has an empty private queue and an empty deque |
| PoolTheorems.ParkedIsCovered | src/fanout/mod.rs:799-834 | a job in the slot or inbox of a parked worker means a permit, an unpark on its way, or a local submission not yet finished |
| PoolTheorems.OneRunner | src/fanout/mod.rs:435-457 | at most one thread runs a given worker |
| PoolTheorems.SearchIsCapped | src/fanout/mod.rs:1108-1127 | at most half of the workers, rounded up, hold a search slot, and the counter is the holders plus those backing out |
| PoolTheorems.ClaimNeedsAnnounce | src/fanout/mod.rs:879-932 | between two claims of one worker it has announced sleep again, so one burst wakes distinct sleepers |
| PoolAmounts.BurstWakesAll | src/fanout/mod.rs:879-890 | over every interleaving, a burst for `k` sleepers ends only after it has woken `k` workers, each claimed by itself, or at a step at which no worker but the spared one announces sleep |
| PoolAmounts.BurstStep | src/fanout/mod.rs:919-932 | each claim takes the bit of a worker that is not spared, and each wake leaves that worker a permit |
| PoolTheorems.ClaimClears | src/fanout/mod.rs:919-932 | a claim takes the announcement with it |
| PoolTheorems.ShutDownTellsAll | src/fanout/mod.rs:941-946 | when the unpark loop of `shut_down` ends, every worker was told |
| PoolLeaving.StaysUntilShutDown | src/fanout/mod.rs:1175-1215 | in every run, `run` ends only once the pool has been shut down |
| PoolLeaving.LeavesWhenTold | src/fanout/mod.rs:1180-1214 | and then it ends as soon as the worker finds nothing to do or is about to park |
| PoolTheorems.ShutDownWakesAll | src/fanout/mod.rs:941-946 | from then on no thread is ever blocked without a permit, under every schedule |
| HostedPool.RunProjects | src/fanout/atomic_host.rs:82-129 | every run of the pool on its park words is a run of the pool on permits, and at every moment a worker has a permit exactly if its word is `SIGNAL` |
| HostedPool.BlockedMeansDone | src/fanout/mod.rs:1202-1217 | no stall on the shipped park words: before shutdown, if every worker is blocked in the kernel, nobody is mid-call and no wake is pending, every submitted job has run exactly once |
| HostedPool.ShutDownFreesAll | src/fanout/mod.rs:941-946 | after the unpark loop of `shut_down`, every parked thread has a signal outstanding, a wake on its way if it is blocked in the kernel, and a park that returns within four more moves of its own |

## Left out

- Weak memory: steps interleave sequentially consistently, so Acquire/Release orderings and fences are not modelled; the order of publishing and looking is kept.
- Liveness under contention: a call on the queues that is disturbed for ever may retry for ever, and back-off lengths are not modelled; what is proved is that calls left alone end, and that the injector never deadlocks. The loop of `run` has no progress theorem beyond its budgets.
- Allocation, `Job` type erasure, `stealer_ref` transmutes, cache padding and loom shims: no logic beyond pointers.
- `size_hint`, cloning and comparing stealers, telemetry counters, `Tuning` presets, `StdHost` and clocks: trivial or facing the operating system.
- Wrap-around of the injector's index words: 63-bit tickets are unbounded here.
- Concurrency of the classes: `LifoWorker` and `FifoWorker` are the queues' own in-place form for one caller at a time. Concurrent operations, the injector, the park word and the pool are modelled on values, as state machines, which is where interleavings are; aliasing of the machines' state is not captured.
- Per-item stealing: the ring machines move stolen items one slot access at a time; that the bulk copy leaves the same destination is `Transfer.TransferBulk`, and `LifoWorker.Steal` and `FifoWorker.Steal` use it.
- PoolSafety.GoodNext: the pool's containers are atomic, with the promises proved for the rings and the injector; a steal takes its items and publishes them in two steps, and may come back with none.
- PoolTheorems.AsleepMeansDone: says nothing after `shut_down`, whose jobs may never run, and nothing about starvation while the pool is busy.
- LifoWorker.LifoQueue.Pop: one caller at a time, so its CAS never retries; the interleaved pop is part of `LifoSafety.GoodNext` and `LifoDeque.StepRefines`.
- LifoWorker.LifoQueue.BookItems: one caller at a time, so its CAS never retries with the stale head; the interleaved booking is `LifoSafety.GoodBooked`.
- LifoWorker.Steal: no owner and no other thief interferes during the copy; the interleaved steal is part of `LifoSafety.GoodNext` and `LifoDeque.RunRefines`.
- FifoWorker.FifoQueue.Pop: one caller at a time, so its CAS never retries; the interleaved pop is part of `FifoSafety.GoodNext` and `FifoDeque.StepRefines`.
- FifoWorker.FifoQueue.BookItems: one caller at a time, so its CAS never retries; the interleaved booking is part of `FifoSafety.GoodNext` and `FifoDeque.StepRefines`.
- FifoWorker.Steal: no pop moves the worker head during the copy; the interleaved steal is part of `FifoSafety.GoodDone` and `FifoDeque.RunRefines`.
