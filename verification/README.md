# Lock-free containers of the login server

The server hands packets and sessions between threads through two containers,
`CLockFreeQueue` (a Michael-Scott queue whose head and tail are 64-bit words with a 47-bit
address and a 17-bit tag, and whose end of list is a code that belongs to the queue) and
`CLockFreeStack` (a Treiber stack whose pop compares pointer and version together). All
queues of one type, and all stacks of one type, recycle their nodes through one pool, so a
thread may hold an address that has been freed, handed out again and linked elsewhere.
This project models both containers one shared access at a time and proves what holds of
every run: any number of threads, any number of containers on one pool, any schedule, any
reuse of addresses.

## How the model is built

**Queue.** `QueueMachine` is the machine of atomic steps: one program point per shared access,
with versions that do not wrap. `QueueHistory` adds the auxiliary history (published nodes,
links, swings, owners of nodes) and the invariant; `QueueFrames`, `QueueSteps` and `QueueLink`
show that every step keeps it; `QueueRuns` lifts it to runs. `QueueTheorems`,
`QueueAccounting`, `QueueOrder`, `QueueSchedule` (the size), `QueueFifo`, `QueueCalls` and
`QueueProgress` hold the results; `QueueWitnesses`, from the pieces in `QueueMoves`, the concrete
runs in which a guarantee ends. `CLockFreeQueue` holds the class `LockFreeQueues` with the
64-bit words, masks, shifts and bitwise or (`TaggedWord`, `Bits`): one method per shared
access, whose new state is the packed image of the machine's step, a loop that follows any
schedule, and `Enqueue`, `Dequeue` and `GetUseSize` with their loops, run without interference
(`QueueSolo`, and `QueueSoloFrame` for what they leave alone).

**Stack.** The same arrangement: `StackMachine`, `StackHistory`, `StackSteps`, `StackRuns`, then
`StackLifo` (linearizability), `StackProgress` (failed attempts) and `CLockFreeStack` with the
class `LockFreeStacks`: the accesses, `Push`, `Pop` and the draining destructor.

**Schedules.** A run is a sequence of events: the construction of a container, the pool
obtaining a new node, the beginning of a call (with the node that `Alloc` returns), or the next
shared access of a thread. `Legal(n, es)` says that n threads can perform es, `After(n, es)` is
the state it leads to, `HistoryOf(n, es)` the auxiliary history. The final statements in
`QueueSchedule`, `QueueFifo`, `QueueCalls`, `QueueProgress`, `StackLifo` and `StackProgress` speak
of the schedule and the memory only.

## Hypotheses, and where they are used

* Every access is atomic and all threads see accesses in one order.
* The pool: `Alloc` returns a node that is in the pool, a node in the pool keeps its fields, and
  the pool may obtain new nodes at any time.
* `Windowed` (only in class `LockFreeQueues`): fewer than 2^17 swings of a word happen between a
  thread's read of it and its comparison. Then a 64-bit comparison decides equality of
  versions, and all results about the machine hold of the words.
* `Orderly` (in `QueueOrder` and for `Fifo`): when line 98 succeeds, `bkRealTail` is not a node
  that some enqueuer holds and has not linked. Line 98 compares only the next field, so a
  node freed, allocated again and sealed with the same code passes the comparison.
  `OrderlyIffAlwaysFifo` shows that this condition is exact: a run meets it if and only if at
  every moment, in every queue, dequeued values followed by what memory holds are the
  enqueued values in order.
* `Prompt` (tail lag, bounds on rounds): when line 98 succeeds, the head has not passed
  `bkRealTail` since line 91. It implies `Orderly`.

No hypothesis on the schedule is used in `QueueTheorems`, `QueueAccounting`, `QueueSchedule`,
`QueueSoloFrame`, for `DecrementDecides`, `CallsHaveTheirEffect`, `NothingLostNorTwice`,
`ReservationFailsIff`, `VacantReturnIff` and `AccessesArePaid`, or anywhere on the stack.

## Where the code does less than it seems to

* Late success of line 98 breaks the order: a value can be linked behind a node that its
  enqueuer has not linked, and a value linked after it is dequeued first. `FifoCanFail` is such
  a run, `OrderlyIffAlwaysFifo` the exact condition.
* A `Dequeue` that has reserved an element can still return false at line 130, without giving
  its reservation back. `ReservationCanFail` is a run of three threads that ends so;
  `VacantReturnIff` and `ReservationFailsIff` say exactly when; `ReservationSucceeds` shows
  that it cannot happen in an orderly run.
* The speculative read at line 145 can follow the end code of another queue, which is not an
  address. `SharedPoolCanFault` is a run with two queues on one pool; `FaultIff` says exactly
  when; with one queue on a pool it cannot happen (`OneQueueNeverFaults`).
* A false `Dequeue` does not mean an empty queue. `FalseOnNonEmpty` is a run that shows it;
  `FailureMeaning` says what a false `Dequeue` means, `FailureOnNonEmpty` exactly when a queue
  that holds elements refuses one.

In these runs every node that is handed out again was obtained by the pool before: none is the
dummy embedded in a queue, which the pool, built with its debug codes, would not take back.

## Model

| member | source | states |
|---|---|---|
| TaggedWord.LimitsArePowers | LoginServer_Chat/CLockFreeQueue.h:92-94 | an address has 47 bits, a tag 17, a word 64 |
| TaggedWord.PackRoundTrip | LoginServer_Chat/CLockFreeQueue.h:92-94 | a packed word is below 2^64; masking and shifting give back its address and its tag, the version modulo 2^17 |
| TaggedWord.JoinIsNextVersion | LoginServer_Chat/CLockFreeQueue.h:103-107 | or-ing the shifted index onto an address is the packed word of the next version, also when the tag wraps |
| TaggedWord.PackEqualIff | LoginServer_Chat/CLockFreeQueue.h:92-107 | two words are equal exactly if the addresses are and the versions agree modulo 2^17 |
| TaggedWord.PackExactWithinWindow | LoginServer_Chat/CLockFreeQueue.h:103-146 | with fewer than 2^17 swings in between, equal words mean no swing at all |
| QueueSteps.CallEnqueueStep | LoginServer_Chat/CLockFreeQueue.h:82 | taking a node from the pool, with whatever fields it kept, keeps the whole invariant |
| QueueLink.LinkTarget | LoginServer_Chat/CLockFreeQueue.h:96-99 | a node that passes the comparison of line 98, however old the read, is the last one of this very queue or the last one hanging from another enqueuer of it, allocated later than the linker's own |
| QueueLink.PublishStep | LoginServer_Chat/CLockFreeQueue.h:98-99 | line 98 on the last node of the queue keeps the invariant and publishes the node with everything that hangs from it |
| QueueLink.GraftStep | LoginServer_Chat/CLockFreeQueue.h:98-99 | line 98 on another thread's unlinked node keeps the invariant: chains stay disjoint, and acyclic by time of allocation |
| QueueRuns.StepInv | LoginServer_Chat/CLockFreeQueue.h:79-153 | every event of every thread keeps the invariant |
| QueueRuns.RunInv | LoginServer_Chat/CLockFreeQueue.h:79-153 | the invariant holds after every legal schedule |
| QueueTheorems.ReadsUnique | LoginServer_Chat/CLockFreeQueue.h:123-127 | memory determines the contents of a queue |
| QueueTheorems.FifoByPublication | LoginServer_Chat/CLockFreeQueue.h:80-153 | in every run the values taken, followed by what memory holds behind the head, are the published values, and nothing else is held there |
| QueueTheorems.HeadNeverPassesTail | LoginServer_Chat/CLockFreeQueue.h:122-149 | the tail is reached from the head in as many links as their versions differ |
| QueueTheorems.FreedNodeIsUnreachable | LoginServer_Chat/CLockFreeQueue.h:146-149 | the node about to be freed is no head, no tail, on no queue, the unlinked node of no enqueuer (lines 83 to 103), in no chain that hangs from one, not in the pool, and freed by one thread only |
| QueueTheorems.TailMovesToSuccessor | LoginServer_Chat/CLockFreeQueue.h:101-107 | whichever line swings a tail (103, 107, 141), it moves to the node its next field names |
| QueueTheorems.SpeculativeReadIsValid | LoginServer_Chat/CLockFreeQueue.h:145-149 | when line 146 succeeds, the value copied before it is the one in the new dummy and the first not taken, and bkNext is the current successor |
| QueueTheorems.FaultIff | LoginServer_Chat/CLockFreeQueue.h:122-145 | a step reads an unmapped address exactly if it is line 145 and bkNext is the end code of some queue, which is then another queue's, the head having moved |
| QueueTheorems.OneQueueNeverFaults | LoginServer_Chat/CLockFreeQueue.h:80-153 | with one queue on the pool no step of any run reads an unmapped address |
| QueueTheorems.OnlyOwnQueueIsRelinked | LoginServer_Chat/CLockFreeQueue.h:84-98 | a step on queue A changes next fields only of the thread's own node, of A's last node, or of a node hanging from another enqueuer of A |
| QueueTheorems.CodesIdentifyQueues | LoginServer_Chat/CLockFreeQueue.h:46-49 | codes of queues are pairwise distinct and never addresses of nodes |
| QueueTheorems.NodePartition | LoginServer_Chat/CLockFreeQueue.h:82-148 | every node is in exactly one place: the pool, one thread (unlinked, hanging from an unlinked node, or about to be freed), or one position of one queue |
| QueueAccounting.SizeAccounting | LoginServer_Chat/CLockFreeQueue.h:108-117 | in every run the counter is links minus swings minus lost reservations, minus the threads between the access that changed one and the access that changes the other; reservations never exceed counted links |
| QueueAccounting.Conservation | LoginServer_Chat/CLockFreeQueue.h:98-99 | as multisets, linked values are the published ones plus those waiting behind unlinked nodes |
| QueueOrder.OrderlyRun | LoginServer_Chat/CLockFreeQueue.h:96-99 | in an orderly run publication order is link order, every unlinked chain is a single node and no reserved dequeuer can fail |
| QueueOrder.FifoByLink | LoginServer_Chat/CLockFreeQueue.h:80-153 | in an orderly run values taken plus values held are the values linked, in order |
| QueueOrder.LinkOrderIff | LoginServer_Chat/CLockFreeQueue.h:96-99 | after a run that was orderly so far, a successful line 98 keeps publication in link order if and only if its target is not held unlinked by an enqueuer |
| QueueOrder.ReservationSucceeds | LoginServer_Chat/CLockFreeQueue.h:108-132 | in an orderly run a Dequeue whose decrement was not negative never returns at line 130 |
| QueueOrder.SizeIsLengthAtRest | LoginServer_Chat/CLockFreeQueue.h:98-158 | after an orderly run the counter is the length minus uncounted links, unswung reservations and failing decrements; never below minus the last, never above the length, equal to it when all threads rest |
| QueueOrder.FailureMeaning | LoginServer_Chat/CLockFreeQueue.h:114-118 | after an orderly run a decrement is negative exactly if the counted, unreserved elements are at most as many as the dequeuers then between decrement and restore |
| QueueOrder.FailureOnNonEmpty | LoginServer_Chat/CLockFreeQueue.h:114-118 | after an orderly run a Dequeue is refused although memory holds elements exactly if they are at most as many as the threads between two related accesses; and then some other thread is |
| QueueOrder.PromptIsOrderly | LoginServer_Chat/CLockFreeQueue.h:91-98 | the stronger hypothesis implies the weaker |
| QueueOrder.TailLagAtMostOne | LoginServer_Chat/CLockFreeQueue.h:91-107 | in a prompt run the tail is the last node of its queue or the one before it |
| QueueOrder.TailIsLastIff | LoginServer_Chat/CLockFreeQueue.h:98-107 | in a prompt run the tail is the last node exactly while no thread stands between its link behind it and its swing at line 107 |
| QueueSchedule.HistoryIsSchedule | LoginServer_Chat/CLockFreeQueue.h:98-146 | the auxiliary history is exactly the successes of lines 98 and 146 and the returns of line 130 in the schedule |
| QueueSchedule.SizeOfSchedule | LoginServer_Chat/CLockFreeQueue.h:108-132 | in every run the counter is links minus dequeues minus returns at line 130, minus the threads between two related accesses; and counted links cover all reservations |
| QueueFifo.Fifo | LoginServer_Chat/CLockFreeQueue.h:80-153 | in every orderly run dequeued values, in order of line 146, followed by exactly what memory holds, are the enqueued values in order of line 98 |
| QueueFifo.DequeuedIsPrefix | LoginServer_Chat/CLockFreeQueue.h:80-153 | in every orderly run dequeued values are a prefix of enqueued values |
| QueueFifo.OrderlyIffAlwaysFifo | LoginServer_Chat/CLockFreeQueue.h:80-153 | a run is orderly if and only if after each of its prefixes, in every queue, dequeued values followed by exactly what memory holds are the enqueued values |
| QueueFifo.NothingLostNorTwice | LoginServer_Chat/CLockFreeQueue.h:82-107 | in every run, with multiplicity, linked values are those dequeued, those held and those readable behind unlinked nodes |
| QueueFifo.ReservationFailsIff | LoginServer_Chat/CLockFreeQueue.h:122-128 | a reserved Dequeue reads the end code behind the current head exactly if all linked, undequeued values wait behind unlinked nodes, and then there are some |
| QueueFifo.VacantReturnIff | LoginServer_Chat/CLockFreeQueue.h:122-132 | the return of line 130 happens exactly if the head has not moved since line 122, and then at line 124 all linked, undequeued values waited behind unlinked nodes, and there were some |
| QueueCalls.CallsHaveTheirEffect | LoginServer_Chat/CLockFreeQueue.h:80-153 | between call and return an Enqueue links its own argument exactly once, a true Dequeue takes exactly the value it returns, a false one nothing |
| QueueCalls.DecrementDecides | LoginServer_Chat/CLockFreeQueue.h:114-152 | whatever happens later, a call is refused (lines 116 and 117) if and only if its own decrement found a counter of zero or less; otherwise it stays in the loop or leaves it by lines 130 or 148 |
| QueueCalls.ReservedReturnsValue | LoginServer_Chat/CLockFreeQueue.h:114-152 | in an orderly run a call whose decrement found a positive counter returns a value if it returns |
| QueueProgress.VainRoundsArePaid | LoginServer_Chat/CLockFreeQueue.h:89-151 | in every run the rounds of a call that were in vain, with its own effect, are at most the links, tail swings and head swings on its queue since the call began |
| QueueProgress.AccessesAreRounds | LoginServer_Chat/CLockFreeQueue.h:83-152 | a call makes no accesses but those on the way to its program point and 3 or 6 for each of its rounds in vain |
| QueueProgress.AccessesArePaid | LoginServer_Chat/CLockFreeQueue.h:83-152 | in every run the steps of a thread since its call are, for Enqueue, at most 7 and 3 for each link, tail swing and head swing on the queue since then but its own effect; for Dequeue at most 8 and 6 for each |
| QueueProgress.OnlySuccessHoldsUp | LoginServer_Chat/CLockFreeQueue.h:83-152 | in a prompt run the rounds in vain of a call are at most one, plus twice the links and once the dequeues on its queue since it began, less its own effect; and its steps at most 7 and 3, or 8 and 6, times as many |
| QueueWitnesses.ReservationCanFail | LoginServer_Chat/CLockFreeQueue.h:127-132 | a run of three threads, not orderly, in which a reserved Dequeue returns at line 130 after the Enqueue it counted on returned |
| QueueWitnesses.FifoCanFail | LoginServer_Chat/CLockFreeQueue.h:96-99 | a run of three threads in which x is linked before y, y is dequeued and x is left; if they differ, the run is not orderly and dequeued values are no prefix of linked ones |
| QueueWitnesses.FalseOnNonEmpty | LoginServer_Chat/CLockFreeQueue.h:114-118 | a prompt run of three threads in which Dequeue returns false while memory holds an element |
| QueueWitnesses.SharedPoolCanFault | LoginServer_Chat/CLockFreeQueue.h:145 | a prompt run of two threads on two queues in which line 145 follows the other queue's end code |
| QueueSolo.TailRead | LoginServer_Chat/CLockFreeQueue.h:91-96 | without interference a round of Enqueue goes to line 98 if the tail is the last node and to line 103 otherwise |
| QueueSolo.LinkAtTail | LoginServer_Chat/CLockFreeQueue.h:98 | line 98 on the word just read succeeds and publishes the thread's chain |
| QueueSolo.TakeFirst | LoginServer_Chat/CLockFreeQueue.h:145-149 | lines 145 and 146 on the words just read take the first value not taken |
| CLockFreeQueue.SwingEffect | LoginServer_Chat/CLockFreeQueue.h:146 | the step at line 146 in terms of 64-bit words: the head word becomes the joined word exactly if the words are equal |
| CLockFreeQueue.TailCas | LoginServer_Chat/CLockFreeQueue.h:103-107 | the same for a tail word, at lines 103, 107 and 141 |
| CLockFreeQueue.WordsFit | LoginServer_Chat/CLockFreeQueue.h:46-48 | the code of the q-th queue is 2^64 - 1 - q, and every head and tail word of every reachable state is below 2^64 |
| CLockFreeQueue.LockFreeQueues.Construct | LoginServer_Chat/CLockFreeQueue.h:44-50 | the words of a new queue are the image of the machine's, its code the decremented counter |
| CLockFreeQueue.LockFreeQueues.LinkNode | LoginServer_Chat/CLockFreeQueue.h:98 | the compare-and-swap on the next field is the machine's step |
| CLockFreeQueue.LockFreeQueues.HelpTail | LoginServer_Chat/CLockFreeQueue.h:103 | the compare-and-swap of the tail word is the image of the machine's step |
| CLockFreeQueue.LockFreeQueues.SwingTail | LoginServer_Chat/CLockFreeQueue.h:107 | likewise |
| CLockFreeQueue.LockFreeQueues.HelpTailToo | LoginServer_Chat/CLockFreeQueue.h:141 | likewise |
| CLockFreeQueue.LockFreeQueues.RecheckHead | LoginServer_Chat/CLockFreeQueue.h:129-131 | comparing head words decides whether the head has moved |
| CLockFreeQueue.LockFreeQueues.SwingHead | LoginServer_Chat/CLockFreeQueue.h:146 | the compare-and-swap of the head word is the image of the machine's step |
| CLockFreeQueue.LockFreeQueues.FollowSchedule | LoginServer_Chat/CLockFreeQueue.h:80-158 | any windowed schedule, followed on the 64-bit words, ends in the image of the version-counted run |
| CLockFreeQueue.LockFreeQueues.EnqueueLoop | LoginServer_Chat/CLockFreeQueue.h:89-108 | from any reachable state, alone, the loop ends in one round more than the tail lags, with the node and what hangs from it published |
| CLockFreeQueue.LockFreeQueues.DequeueLoop | LoginServer_Chat/CLockFreeQueue.h:120-152 | from any reachable state, alone, the loop ends in one round more than the tail lags with the first element taken, or at once if there is none |
| CLockFreeQueue.LockFreeQueues.Enqueue | LoginServer_Chat/CLockFreeQueue.h:80-109 | alone, appends its argument and does nothing else: the new value of every field, of the other threads, of the other queues' contents and of the schedule is stated; at most two rounds after a prompt run |
| CLockFreeQueue.LockFreeQueues.Dequeue | LoginServer_Chat/CLockFreeQueue.h:112-153 | alone, fails without effect exactly if the size is not positive, else counts down, removes and returns the first element and frees the node at the head; finds none only after a run that was not orderly; the new value of every field and of all else is stated; at most two rounds after a prompt run |
| CLockFreeQueue.LockFreeQueues.EnqueueThenDequeue | LoginServer_Chat/CLockFreeQueue.h:80-153 | after an orderly run with all threads at rest, Enqueue and then Dequeue by any threads return the first of what the queue held followed by the argument, and leave the rest |
| CLockFreeQueue.LockFreeQueues.GetUseSize | LoginServer_Chat/CLockFreeQueue.h:156-159 | in any run links minus dequeues minus lost reservations minus threads between two related accesses, and never below minus the number of threads; after an orderly run at most the number of elements, and equal to it when all threads rest |
| StackSteps.PopFacts | LoginServer_Chat/CLockFreeStack.h:74-84 | when line 84 succeeds its three reads are still current |
| StackSteps.StepInv | LoginServer_Chat/CLockFreeStack.h:33-89 | every event of every thread keeps the invariant |
| StackRuns.RunInv | LoginServer_Chat/CLockFreeStack.h:33-89 | the invariant holds after every legal schedule |
| StackRuns.HoldsUnique | LoginServer_Chat/CLockFreeStack.h:76-78 | memory determines the contents of a stack |
| StackRuns.PopSwapsToSuccessor | LoginServer_Chat/CLockFreeStack.h:72-84 | when line 84 succeeds, pNextTop is the current successor of the current top, however often that address was freed and pushed again, and the stack loses exactly its top value |
| StackRuns.UntaggedPushPrepends | LoginServer_Chat/CLockFreeStack.h:60-64 | when line 64 succeeds, even after pops and new pushes of bkTop, the stack gains exactly the pushed value and the version stays |
| StackRuns.NeverFaults | LoginServer_Chat/CLockFreeStack.h:74-87 | no step of any run reads an address that is not a node |
| StackRuns.OwnershipPartition | LoginServer_Chat/CLockFreeStack.h:58-87 | every node is in exactly one place: the pool, one call, or one position of one stack |
| StackLifo.OpsAreOperations | LoginServer_Chat/CLockFreeStack.h:64-84 | the auxiliary sequence is exactly the successes of lines 64 and 84 and the reads of the dummy at line 75 |
| StackLifo.AtomicLifo | LoginServer_Chat/CLockFreeStack.h:55-89 | in every run the operations in order of effect can be replayed on an atomic stack and leave exactly what memory holds |
| StackLifo.CallsAreAtomic | LoginServer_Chat/CLockFreeStack.h:55-89 | between call and return every call performs exactly one operation: Push of its argument, Pop of the value it returns, or the finding of an empty stack if it returns false |
| StackLifo.VersionCountsPops | LoginServer_Chat/CLockFreeStack.h:74-84 | the version is the number of pops |
| StackLifo.ValuesConserved | LoginServer_Chat/CLockFreeStack.h:55-89 | pushed values are popped values plus held values, with multiplicity |
| StackProgress.FailuresArePaidByOthers | LoginServer_Chat/CLockFreeStack.h:60-84 | the failed attempts of a call are at most the successful compare-and-swaps of other threads on that stack since the call began |
| StackProgress.AccessesAreAttempts | LoginServer_Chat/CLockFreeStack.h:59-87 | the steps of a thread since its call are exactly those on the way to its program point and 3 (Push) or 4 (Pop) for each failed attempt |
| StackProgress.AccessesArePaidByOthers | LoginServer_Chat/CLockFreeStack.h:59-87 | in every run they are at most 4 and 3 for each success of another thread on the stack since the call (Push), or 6 and 4 for each (Pop) |
| CLockFreeStack.LockFreeStacks.Construct | LoginServer_Chat/CLockFreeStack.h:42-44 | a new stack is its dummy, with version 0 |
| CLockFreeStack.LockFreeStacks.SwapTop | LoginServer_Chat/CLockFreeStack.h:64 | the compare-and-swap of the pointer alone is the machine's step |
| CLockFreeStack.LockFreeStacks.SwapUnique | LoginServer_Chat/CLockFreeStack.h:84 | the compare-and-swap of pointer and version is the machine's step |
| CLockFreeStack.LockFreeStacks.FollowSchedule | LoginServer_Chat/CLockFreeStack.h:55-89 | any schedule can be followed on the fields and ends in the state of the run |
| CLockFreeStack.LockFreeStacks.Push | LoginServer_Chat/CLockFreeStack.h:55-65 | alone, puts its argument on top in one attempt with one node from the pool; the new value of every field, of the other stacks' contents and of the schedule is stated |
| CLockFreeStack.LockFreeStacks.Pop | LoginServer_Chat/CLockFreeStack.h:68-89 | alone, returns and removes the top value in one attempt and frees its node, or returns false exactly on the empty stack; all else is stated unchanged |
| CLockFreeStack.LockFreeStacks.Destroy | LoginServer_Chat/CLockFreeStack.h:48-52 | the draining loop ends after as many true Pops as there were values; the stack is its dummy with the version advanced by them, every node that held a value is in the pool, once, and all else is unchanged |

## Left out

- `MemoryPoolTLS` and `MemoryPool`: only the contract stated above; chunks, thread-local lists, the debug codes around a block, the allocation limit and a null result are not modelled.
- The two-argument queue constructor (lines 53 to 59), which assigns a pointer to a node member, and the empty queue destructor.
- A queue's embedded dummy is an ordinary node once `Dequeue` frees it at line 148. The pool with its debug codes refuses such a block (`LoginServer_Chat/MemoryPoolTLS.h`, lines 252 to 257); the runs in which it never hands the dummy out again are among those covered, as `Spares` says of the concrete ones.
- Weak memory, compiler reordering and torn reads: accesses are atomic and in one order.
- The check of the operating system's address range (stack lines 35 to 41): node addresses of queues are below 2^47.
- Wrap-around of the 64-bit stack version is not modelled; it counts without bound.
- The number of queues ever constructed is kept below the distance of codes and addresses, 2^64 - 2^47.
- The 32-bit width of `_size`: it counts without bound. In an orderly run it lies between minus the number of threads and the number of elements.
- Line 80 of the stack, which stores NULL to the caller on a false Pop, and the caller's variable in a false Dequeue.
- Destruction of a container while others use it, and the reuse of a container's own address.
- `Enqueue`: what several enqueuers interleave is said of runs, in `QueueFifo`; the method is the operation without interference. The same goes for the methods `Dequeue`, `Push`, `Pop` and `Destroy`.
- The network server, packets, ring buffer, database connector, crash dump, cpp_redis and tacopie: they use the containers or stand beside them and add no property of this kind.
