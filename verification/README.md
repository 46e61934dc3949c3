# PipelineTools core: a verified model

This project models the concurrent and the ownership-carrying core of PipelineTools in Dafny and
proves what callers rely on. `dafny verify dfyconfig.toml` checks all of it.

## What is modelled

**The lock-free queue.** `SpscQueue` is a step machine with one step per atomic load or store: the
producer in `inner_enqueue`, the consumer in `try_dequeue`, `pop` and `peek`, both on a ring of
blocks, each with program counters, locals and stale shadow indices. A step yields `Fault` where the
code would construct in a live slot, read or destroy a dead one, follow a bad index or fail an
assertion. `QueueInvariant` says what holds between any two steps, `QueueBlocks` what one change does
to a block and to the ring, `QueueProducer` and `QueueConsumer` take the program counters one by
one, and `QueueRefinement` shows that every step is a stutter or exactly one move of a FIFO queue.
`QueueRuns`, `QueueCapacity`, `QueueFilling` and `QueueProgress` draw the consequences for whole
runs. `QueueObject` is the class
itself, with the source's fields, branches and loops; the other thread runs between any two accesses
to shared memory, on a schedule that is an argument, so each contract holds for every interleaving.
`QueueLifecycle` has the construction and the destruction of the ring, `QueueArithmetic` (over
`Words`, 64-bit words as numbers) the bit tricks, `QueueSizes` why the masks are right for the
blocks of every run and how much a queue holds as built, `QueueBounds` the sizes that do not work.

**The semaphore and the blocking queue.** `Semaphore` is `LightweightSemaphore` with one waiter and
one signaller. `BlockingQueue` runs that machine and the queue's machine together; `BlockingRuns`
follows whole calls from start to return.

**Buffers.** `SharedBuffer` has any number of threads on reference-counted control blocks, one step
per access; `SharedCalls` says what whole calls do to handles and counts. `MemPool` has the pool and `unique_buffer` as classes. `PoolWorld` puts pool, unique,
released and shared buffers together, for whole runs.

**Cores.** `CpuManager` has the allocator and the worker as classes, and any number of workers over
one allocator for whole runs.

**The dataflow engine.** `Aggregator` is the bit-mask barrier as a class, with the barrier over a set
that it refines. `FlowGraph` has the flow objects, pushing values recursively through a wired graph,
proved against a function from memory to memory. `FlowPaths` shows that this function is path
composition. `Pipeline` has `add` and `execute`, `PipelineMeaning` what auto-wiring builds,
`PipelineHistory` what becomes of a source in any order of additions, `PipelineRun` and
`PipelineGraph` what executing a pipeline does, up to the loop that executes it again and again.
`QueueLink` joins two pipelines by a queue.

## What was found

- A queue constructed for 0 elements gets one block with a single slot, which can hold nothing: it
  can lose an element and then fail the consumer's assertion. From 2^63 elements on, where rounding
  up wraps to 0, it gets a block without slots. Every other size is safe
  (`QueueBounds.SafeExactlyWhenSized`).
- `signal(0)`, which the assertion in `signal` admits, wakes a waiter without giving it a permit. A
  signal lets waits outnumber permits exactly when it is one of zero permits and finds somebody
  waiting (`Semaphore.ForgesExactlyWhen`). The blocking queue never does that.
- `shared_buffer` drops the deleter, uncalled, of a buffer without data or of size 0
  (`SharedBuffer.ConstructTakesChargeExactlyWhen`).
- Starting a worker that holds exclusive cores overwrites them, and they are lost to both pools,
  exactly when the new allocation succeeds (`CpuManager.StartKeepsCoresExactlyWhen`).
- `Pipeline::add` documents an exception for a source added after a module, an aggregator or a sink.
  The code throws exactly after a module or an aggregator, so it does as documented if and only if
  one of those, or no sink, was added before the source
  (`PipelineHistory.ThrowsAsDocumentedExactlyWhen`). Otherwise the source is accepted and leads to
  exactly what is added after it, up to the first node, and not to the sinks before it
  (`PipelineHistory.SourceMeets`).

## Model

| member | source | states |
|---|---|---|
| `QueueBlocks.ShadowsAreSound` | core/src/utils/queues/moodycamel/readerwriterqueue.h:687-710 | the masked tests against stale shadow indices never report room or an element that is not there |
| `QueueBlocks.AdvanceTail` | core/src/utils/queues/moodycamel/readerwriterqueue.h:549-562 | moving `tail` on adds exactly the constructed element at the end of the block |
| `QueueBlocks.AdvanceFront` | core/src/utils/queues/moodycamel/readerwriterqueue.h:319-322 | moving `front` on removes exactly the oldest element of the block |
| `QueueBlocks.RefreshShadows` | core/src/utils/queues/moodycamel/readerwriterqueue.h:305-310 | reloading a shadow keeps the block sound and its contents the same |
| `QueueRing.GrowTail` | core/src/utils/queues/moodycamel/readerwriterqueue.h:561-562 | an element added in the tail block is added at the end of the queue, and the ring keeps its shape |
| `QueueRing.FillNext` | core/src/utils/queues/moodycamel/readerwriterqueue.h:575-592 | filling the block ahead of the tail leaves the queue's contents alone |
| `QueueRing.AdvanceTailBlock` | core/src/utils/queues/moodycamel/readerwriterqueue.h:594-595 | storing `tailBlock` puts the element of the block filled ahead at the end of the queue |
| `QueueRing.LinkAfterTail` | core/src/utils/queues/moodycamel/readerwriterqueue.h:615-616 | linking a new block in after the tail keeps one ring and the contents |
| `QueueRing.ShrinkFront` | core/src/utils/queues/moodycamel/readerwriterqueue.h:319-322 | removal from the front block takes the head of the queue and keeps the ring's shape |
| `QueueRing.RotateRing` | core/src/utils/queues/moodycamel/readerwriterqueue.h:351-354 | leaving an empty front block keeps the contents and the ring's shape |
| `QueueProducer.ConsumerUndisturbed` | core/src/utils/queues/moodycamel/readerwriterqueue.h:323-354 | while the consumer is between two accesses its locals stay right: a front block the tail has left is frozen |
| `QueueProducer.LoadFrontBlockKeeps` | core/src/utils/queues/moodycamel/readerwriterqueue.h:564-570 | the producer enters a next block only if it is not the front block |
| `QueueProducer.LoadNextTailKeeps` | core/src/utils/queues/moodycamel/readerwriterqueue.h:575-583 | the block ahead of the tail is empty, as the code asserts |
| `QueueProducer.MakeBlockKeeps` | core/src/utils/queues/moodycamel/readerwriterqueue.h:596-605 | a refused allocation changes nothing, a granted one adds an unlinked empty block |
| `QueueProducer.LinkNewKeeps` | core/src/utils/queues/moodycamel/readerwriterqueue.h:615-616 | linking the new block is invisible to the abstract queue |
| `QueueProducer.StoreTailBlockKeeps` | core/src/utils/queues/moodycamel/readerwriterqueue.h:594-595 | the store to `tailBlock` is where such an enqueue takes effect |
| `QueueConsumer.ProducerUndisturbed` | core/src/utils/queues/moodycamel/readerwriterqueue.h:545-583 | while the producer is between two accesses the consumer leaves its locals right |
| `QueueConsumer.LoadNextTailKeeps` | core/src/utils/queues/moodycamel/readerwriterqueue.h:342-348 | the block after an empty front block holds an element, as the code asserts |
| `QueueConsumer.StoreFrontBlockKeeps` | core/src/utils/queues/moodycamel/readerwriterqueue.h:351-354 | the store to `frontBlock` is invisible to the abstract queue |
| `QueueConsumer.StoreFrontKeeps` | core/src/utils/queues/moodycamel/readerwriterqueue.h:319-322 | the store to `front` removes exactly the oldest element |
| `QueueRefinement.ProducerStepKeeps` | core/src/utils/queues/moodycamel/readerwriterqueue.h:528-636 | every producer step, whatever the consumer is doing, keeps the invariant and appends its element at the one step that answers true |
| `QueueRefinement.ConsumerStepKeeps` | core/src/utils/queues/moodycamel/readerwriterqueue.h:283-373 | every consumer step, whatever the producer is doing, keeps the invariant and removes the oldest element at the one step that answers |
| `QueueRefinement.StepRefines` | core/src/utils/queues/moodycamel/readerwriterqueue.h:283-636 | no step of any interleaving faults, and each refines the FIFO queue |
| `QueueRefinement.ConsumerAnswers` | core/src/utils/queues/moodycamel/readerwriterqueue.h:376-483 | only `peek` answers with an address, only `try_dequeue` and `pop` remove, and only `try_dequeue` hands out what it removes |
| `QueueRuns.Fifo` | core/src/utils/queues/moodycamel/readerwriterqueue.h:84-102 | at every moment of every run, accepted values are removed values followed by the contents |
| `QueueRuns.NeverFaults` | core/src/utils/queues/moodycamel/readerwriterqueue.h:283-636 | no run reaches a failed assertion, a dead slot read or a live slot overwritten |
| `QueueRuns.DequeueYieldsNext` | core/src/utils/queues/moodycamel/readerwriterqueue.h:313-322 | the n-th value taken out is the n-th value accepted |
| `QueueRuns.PeekSeesTheOldest` | core/src/utils/queues/moodycamel/readerwriterqueue.h:376-417 | the address `peek` gives is that of the live, oldest element until the consumer's next call |
| `QueueRuns.EmptyAnswerIsRight` | core/src/utils/queues/moodycamel/readerwriterqueue.h:295-303 | a call that answers "empty" overlapped a moment when the queue was empty |
| `QueueCapacity.AlwaysRoomy` | core/src/utils/queues/moodycamel/readerwriterqueue.h:101-102 | blocks are never removed, so the room planned at construction is never lost |
| `QueueCapacity.RefusalIsRight` | core/src/utils/queues/moodycamel/readerwriterqueue.h:564-630 | an enqueue of either kind is refused only after a moment of the call when the tail block was full, no block ahead was free, and the queue held at least `size` elements |
| `QueueCapacity.AllocatesOnlyWhenFull` | core/src/utils/queues/moodycamel/readerwriterqueue.h:28-29 | a block is allocated, one at a time, only after such a moment of the call: a free block ahead is always used first |
| `QueueProgress.WaitFree` | core/src/utils/queues/moodycamel/readerwriterqueue.h:25-27 | in every run an enqueue takes at most 11 accesses and a dequeue, pop or peek at most 14, whatever the other thread does |
| `QueueProgress.AlwaysSafe` | core/src/utils/queues/moodycamel/readerwriterqueue.h:283-636 | in every run elements are constructed only in dead slots, read, destroyed and pointed to only in live ones, and the three assertions on indices hold |
| `QueueFilling.CapacityIsExact` | core/src/utils/queues/moodycamel/readerwriterqueue.h:501-520 | from an empty queue at rest, while the consumer rests, the n-th non-allocating enqueue succeeds if and only if n is at most the capacity, and the queue then holds what has succeeded |
| `QueueSizes.AlwaysPowerSized` | core/src/utils/queues/moodycamel/readerwriterqueue.h:597-600 | in every run from construction each block has a power of two of slots that a 64-bit word can hold |
| `QueueSizes.MasksAreRight` | core/src/utils/queues/moodycamel/readerwriterqueue.h:549 | in every run, for every block and all indices in it, adding one and masking is the next index, and the masked wrapping difference is the distance |
| `QueueSizes.ConstructedCapacity` | core/src/utils/queues/moodycamel/readerwriterqueue.h:111-152 | as built, a queue for less than twice the greatest block size is one block of the least power of two above `size`; from there on it is the fewest greatest blocks that hold `size` elements, and one more |
| `QueueSizes.DefaultCapacity` | core/src/utils/queues/moodycamel/readerwriterqueue.h:111-134 | the default queue holds exactly 15 elements |
| `QueueSizes.NewBlocksDouble` | core/src/utils/queues/moodycamel/readerwriterqueue.h:597-600 | in every run a block added is at least as large as all before it, at least twice as large until the greatest size is reached, and at most twice that size |
| `QueueLifecycle.PlanIsEnough` | core/src/utils/queues/moodycamel/readerwriterqueue.h:123-152 | the planned number and size of blocks have room for `size` elements in all but one block |
| `QueueLifecycle.PlanBlocks` | core/src/utils/queues/moodycamel/readerwriterqueue.h:123-153 | how many blocks of which size the constructor makes, whatever the size, wrap-around included |
| `QueueLifecycle.BuildRing` | core/src/utils/queues/moodycamel/readerwriterqueue.h:135-151 | the loop links the blocks into one ring of empty blocks |
| `QueueLifecycle.BuiltIsFresh` | core/src/utils/queues/moodycamel/readerwriterqueue.h:163-164 | the ring built satisfies the queue's invariant and is empty |
| `QueueLifecycle.BuiltIsRoomy` | core/src/utils/queues/moodycamel/readerwriterqueue.h:107-110 | the ring built has the promised room |
| `QueueLifecycle.DestroyElements` | core/src/utils/queues/moodycamel/readerwriterqueue.h:221-225 | the loop destroys exactly the live elements of a block, oldest first |
| `QueueLifecycle.WalkRing` | core/src/utils/queues/moodycamel/readerwriterqueue.h:216-231 | a walk along `next` passes the blocks of the ring in order, each once |
| `QueueObject.ReaderWriterQueue.constructor` | core/src/utils/queues/moodycamel/readerwriterqueue.h:111-168 | every size gets the ring the source computes for it; from 1 up to 2^63 that is a valid empty queue with room for that size |
| `QueueObject.ReaderWriterQueue.InnerEnqueue` | core/src/utils/queues/moodycamel/readerwriterqueue.h:528-636 | on every schedule of the consumer: the element joins the end, or is refused; refusal, and the one block that may be added, come only after a moment of the call with the tail block full, no free block ahead, and at least as many elements as asked for; an allocating call is refused only without memory |
| `QueueObject.ReaderWriterQueue.TryDequeue` | core/src/utils/queues/moodycamel/readerwriterqueue.h:283-373 | on every schedule of the producer: the oldest element not yet removed, or the queue was empty at some moment of the call |
| `QueueObject.ReaderWriterQueue.Pop` | core/src/utils/queues/moodycamel/readerwriterqueue.h:419-483 | like `try_dequeue`, without handing the value out |
| `QueueObject.ReaderWriterQueue.Peek` | core/src/utils/queues/moodycamel/readerwriterqueue.h:381-417 | the address of the live oldest element, or the queue was empty at some moment of the call |
| `QueueObject.ReaderWriterQueue.SizeApprox` | core/src/utils/queues/moodycamel/readerwriterqueue.h:487-499 | between calls, the wrapping and masked differences, summed over the ring, are the number of elements |
| `QueueObject.ReaderWriterQueue.MaxCapacity` | core/src/utils/queues/moodycamel/readerwriterqueue.h:510-520 | the sum of block size less one over the ring, which is the capacity of `QueueFilling.CapacityIsExact` and no less than the contents and the size asked for |
| `QueueObject.ReaderWriterQueue.Destroy` | core/src/utils/queues/moodycamel/readerwriterqueue.h:209-232 | the walk ends, frees every block once, and destroys exactly the accepted elements that were not removed |
| `QueueBounds.SafeExactlyWhenSized` | core/src/utils/queues/moodycamel/readerwriterqueue.h:107-124 | a queue constructed for `size` elements can never fault if and only if `size` is at least 1 and below 2^63 |
| `QueueArithmetic.CeilToPow2` | core/src/utils/queues/moodycamel/readerwriterqueue.h:646-657 | up to 2^63 the least power of two not below the argument; 0 for 0 and beyond 2^63 |
| `QueueArithmetic.MaskedIncrement` | core/src/utils/queues/moodycamel/readerwriterqueue.h:549 | adding one and masking is the next position modulo the block size |
| `QueueArithmetic.MaskedDistance` | core/src/utils/queues/moodycamel/readerwriterqueue.h:495 | the wrapping difference, masked, is the number of elements between the indices |
| `Semaphore.StepKeeps` | core/src/utils/queues/moodycamel/atomicops.h:703-769 | every step keeps the books: the counter never drops below -1, and there is one kernel permit, posted or on its way, exactly for a committed waiter that has been signalled |
| `Semaphore.SignalKeepsExactlyWhen` | core/src/utils/queues/moodycamel/atomicops.h:762-769 | a signal keeps the books if and only if it carries a permit or finds nobody waiting |
| `Semaphore.ForgesExactlyWhen` | core/src/utils/queues/moodycamel/atomicops.h:762-769 | after a signal some run lets successful waits outnumber permits if and only if the signal carries none and finds somebody waiting |
| `Semaphore.UndoLoopsOnlyWhilePosting` | core/src/utils/queues/moodycamel/atomicops.h:730-738 | the undo loop goes round only while a post is on its way |
| `Semaphore.NoLostWakeup` | core/src/utils/queues/moodycamel/atomicops.h:719-724 | a waiter asleep while nobody signals has no permit to wake up for |
| `Semaphore.WaitsNeverExceedSignals` | core/src/utils/queues/moodycamel/atomicops.h:746-769 | in every run with signals of at least one permit, successful waits never exceed permits given |
| `Semaphore.FinishedWaitLeavesNoTrace` | core/src/utils/queues/moodycamel/atomicops.h:725-738 | a wait that has returned, timed out or not, leaves the counter at the permits available and no stray kernel permit |
| `Semaphore.ForEverNeverGivesUp` | core/src/utils/queues/moodycamel/atomicops.h:703-760 | in every run a wait without a timeout never answers false |
| `Semaphore.OthersNeverStuck` | core/src/utils/queues/moodycamel/atomicops.h:703-760 | in every run `tryWait` and waits with a timeout can always go on, `tryWait` without sleeping |
| `Semaphore.RefusalIsRight` | core/src/utils/queues/moodycamel/atomicops.h:719-752 | a wait answers false only at a moment without an available permit |
| `Semaphore.AloneAnswers` | core/src/utils/queues/moodycamel/atomicops.h:703-744 | while nobody signals, a wait under way takes a bounded number of steps, and answers true if and only if there is a permit |
| `Semaphore.WaitCanReturn` | core/src/utils/queues/moodycamel/atomicops.h:719-738 | from every state of a wait that may give up it can return while nobody signals: with false without a permit, with true with one |
| `Semaphore.ZeroSignalForgesAPermit` | core/src/utils/queues/moodycamel/atomicops.h:762-764 | with `signal(0)` a wait succeeds without any permit |
| `BlockingQueue.PermitsAreCovered` | core/src/utils/queues/moodycamel/readerwriterqueue.h:774-791 | the elements in the queue are exactly the permits in the semaphore, in flight, owed to the waiter, and still to be signalled |
| `BlockingQueue.PermitFindsElement` | core/src/utils/queues/moodycamel/readerwriterqueue.h:845-885 | with a permit taken the inner call cannot answer "empty" |
| `BlockingQueue.MoveKeepsTogether` | core/src/utils/queues/moodycamel/readerwriterqueue.h:774-923 | every move of either thread keeps both machines together and fails no assertion |
| `BlockingQueue.NeverFails` | core/src/utils/queues/moodycamel/readerwriterqueue.h:845-923 | no run of the blocking queue fails an assertion |
| `BlockingQueue.CallAnswers` | core/src/utils/queues/moodycamel/readerwriterqueue.h:845-924 | a call that returns from the inner queue answers as it should: `try_dequeue` and the waiting calls hand out the oldest value accepted and not yet removed, `pop` removes it without handing it out, `peek` gives the address of its live slot or says there is nothing |
| `BlockingQueue.GivingUpIsRight` | core/src/utils/queues/moodycamel/readerwriterqueue.h:869-885 | a call gives up only when the queue holds nothing but an element whose enqueue has not returned |
| `BlockingQueue.AsleepMeansEmpty` | core/src/utils/queues/moodycamel/readerwriterqueue.h:856-866 | a consumer asleep beside a producer at rest faces an empty queue |
| `BlockingQueue.SizeApproxAtRest` | core/src/utils/queues/moodycamel/readerwriterqueue.h:929-931 | with both threads at rest `size_approx` is the number of elements |
| `BlockingRuns.DequeueAnswers` | core/src/utils/queues/moodycamel/readerwriterqueue.h:845-924 | in every run, every call from start to return: it waits as it should, then answers as above for the queue as it was when it began; only calls that may give up do, and have then removed nothing |
| `BlockingRuns.NeverStuck` | core/src/utils/queues/moodycamel/readerwriterqueue.h:845-924 | in every run `try_dequeue`, `pop` and `peek` never block, and a timed wait can always go on, if only by timing out |
| `BlockingRuns.NothingSeenIsRight` | core/src/utils/queues/moodycamel/readerwriterqueue.h:910-912 | a `peek` that sees nothing overlapped a moment when the queue was empty |
| `BlockingRuns.EnqueueAnswers` | core/src/utils/queues/moodycamel/readerwriterqueue.h:774-826 | in every run an enqueue answers true if and only if its value was accepted, once and during the call, and only one that may allocate comes to allocate |
| `BlockingRuns.EnqueueRefusalIsRight` | core/src/utils/queues/moodycamel/readerwriterqueue.h:774-826 | an enqueue of either kind is refused only after a moment of the call without a slot to be had and with at least `size` elements |
| `BlockingRuns.InnerRun` | core/src/utils/queues/moodycamel/readerwriterqueue.h:744-826 | the inner queue makes a run of its own, so all that holds of the lock-free queue in every run holds inside the blocking one |
| `SharedBuffer.PerformKeeps` | core/src/utils/memory/smart_buffers/shared_buffer.hpp:44-112 | no step of any thread touches a deleted control block, and every count equals the live and in-flight references |
| `SharedBuffer.ExactlyOnce` | core/src/utils/memory/smart_buffers/shared_buffer.hpp:161-244 | in every run a deleter is called or handed out at most once, never while there are references, and exactly once when all are gone |
| `SharedBuffer.NeverFaults` | core/src/utils/memory/smart_buffers/shared_buffer.hpp:225-244 | no run touches a deleted control block |
| `SharedBuffer.ReleaseExactlyWhenUnique` | core/src/utils/memory/smart_buffers/shared_buffer.hpp:154-185 | `release` hands the buffer out if and only if the handle holds the only reference |
| `SharedBuffer.ConstructTakesChargeExactlyWhen` | core/src/utils/memory/smart_buffers/shared_buffer.hpp:44-53 | the constructor takes charge of the deleter if and only if there is data and a size |
| `SharedBuffer.CopyAssignKeeps` | core/src/utils/memory/smart_buffers/shared_buffer.hpp:81-93 | the new reference is counted, and waits in the assignment, while every handle is still what it was |
| `SharedBuffer.DecrementKeeps` | core/src/utils/memory/smart_buffers/shared_buffer.hpp:225-243 | the block loses one reference, and becomes this thread's to delete if and only if it was the last |
| `SharedBuffer.DyingIsMine` | core/src/utils/memory/smart_buffers/shared_buffer.hpp:230-242 | a block being deleted has no references and no other thread deleting it |
| `SharedCalls.CallsDoWhatTheySay` | core/src/utils/memory/smart_buffers/shared_buffer.hpp:44-244 | in every run, whatever the other threads do: once a call has returned, each of its thread's handles holds what the operation should leave in it; copies share, moves empty their source, swap exchanges, reset and a unique release empty |
| `SharedCalls.CallsCountOnce` | core/src/utils/memory/smart_buffers/shared_buffer.hpp:70-244 | in every run, a call itself changes the count of a block by the one reference a copy adds, less the one that whatever drops a reference gives up |
| `SharedCalls.CallsReturn` | core/src/utils/memory/smart_buffers/shared_buffer.hpp:225-244 | every step of a thread brings its call nearer to its return, and no other thread can hold it up |
| `SharedCalls.TouchedIsAlive` | core/src/utils/memory/smart_buffers/shared_buffer.hpp:70-244 | in every run the control block that is touched has not been deleted |
| `MemPool.Pool.constructor` | core/src/utils/memory/mempool/MemPool.hpp:18-30 | all blocks, carved one block size apart, are free, in address order |
| `MemPool.Pool.Make` | core/src/utils/memory/mempool/MemPool.hpp:22-24 | construction fails if and only if the size or the count is zero |
| `MemPool.Pool.Allocate` | core/src/utils/memory/mempool/MemPool.hpp:36-50 | the block freed longest ago, with a deleter that returns it; an empty pool refuses and stays as it is |
| `MemPool.Pool.ReleaseBlock` | core/src/utils/memory/mempool/MemPool.hpp:63-66 | the block becomes the last free one |
| `MemPool.UniqueBuffer.Reset` | core/src/utils/memory/smart_buffers/unique_buffer.hpp:113-128 | the data, if any, goes to the deleter, if any, and the buffer is empty |
| `MemPool.UniqueBuffer.Release` | core/src/utils/memory/smart_buffers/unique_buffer.hpp:100-108 | everything, deleter included, goes to the caller, and nothing is freed |
| `MemPool.UniqueBuffer.StealFrom` | core/src/utils/memory/smart_buffers/unique_buffer.hpp:174-183 | everything moves over, and the other buffer is empty |
| `MemPool.UniqueBuffer.MoveFrom` | core/src/utils/memory/smart_buffers/unique_buffer.hpp:70-72 | move construction takes everything from the other buffer |
| `MemPool.UniqueBuffer.MoveAssign` | core/src/utils/memory/smart_buffers/unique_buffer.hpp:73-80 | what was held is freed, unless the assignment is from itself, which changes nothing |
| `MemPool.UniqueBuffer.Swap` | core/src/utils/memory/smart_buffers/unique_buffer.hpp:134-140 | the buffers change places, deleters included |
| `MemPool.UniqueBuffer.FromReleased` | core/src/utils/memory/smart_buffers/unique_buffer.hpp:66-67 | a released buffer becomes owned again as it was |
| `PoolWorld.StepKeeps` | core/src/utils/memory/smart_buffers/unique_buffer.hpp:70-140 | every operation, and every step of a shared buffer, keeps each block of the pool in exactly one place |
| `PoolWorld.ConversionKeeps` | core/src/utils/memory/smart_buffers/shared_buffer.hpp:61-67 | a conversion empties its buffer and gives its thread a handle to a new control block with one reference, in charge of what was in the buffer; an empty buffer makes an empty handle |
| `PoolWorld.BlockGoes` | core/src/utils/memory/smart_buffers/unique_buffer.hpp:66-140 | every operation takes the block of each buffer it is about where it should, to the pool, a unique, a released or a shared buffer, and leaves every other block where it is |
| `PoolWorld.OnePlace` | core/src/utils/memory/mempool/MemPool.hpp:36-66 | no block is in two places |
| `PoolWorld.Conservation` | core/src/utils/memory/mempool/MemPool.hpp:26-66 | in every run the free and the owned blocks are a permutation of the carved ones, and no two overlap |
| `PoolWorld.HandleOwnsItsBlock` | core/src/utils/memory/smart_buffers/shared_buffer.hpp:209-220 | in every run the block a live shared handle refers to is owned and not free |
| `PoolWorld.ReusedInOrder` | core/src/utils/memory/mempool/MemPool.hpp:36-66 | in every run blocks are handed out in the order in which they became free |
| `PoolWorld.AllComeBack` | core/src/utils/memory/mempool/MemPool.hpp:57-60 | once every buffer has been dropped, every block is free |
| `CpuManager.Manager.constructor` | core/src/utils/threads/CPUManager.cpp:23-34 | the pinned pool is the online cores, in order, each isolated one erased where it first occurs |
| `CpuManager.Manager.Allocate` | core/src/utils/threads/CPUManager.cpp:37-111 | when it fails, that a failure changes nothing, and which cores leave which pool, position by position: shared ones are the first of the pinned pool, which keeps them, exclusive ones come from the back; the recursive fallback cannot fail |
| `CpuManager.FailsExactlyWhen` | core/src/utils/threads/CPUManager.cpp:42-86 | an allocation fails if and only if there is nothing that the policy could be handed |
| `CpuManager.Manager.Deallocate` | core/src/utils/threads/CPUManager.cpp:113-149 | each core goes back to the end of the pool of its kind, shared ones to none |
| `CpuManager.FallbackIsComplete` | core/src/utils/threads/CPUManager.cpp:71-98 | the fallback gives as many isolated cores as there are, the rest pinned, and its inner allocation cannot fail |
| `CpuManager.AllocatedIds` | core/src/utils/threads/CPUManager.cpp:59-99 | an allocation has the number of cores asked for, and those of each kind are what the pool of that kind lost |
| `CpuManager.AllocateThenDeallocate` | core/src/utils/threads/CPUManager.cpp:37-149 | allocating and deallocating restores both pools as multisets |
| `CpuManager.Worker.AllocateCores` | core/src/utils/threads/Worker.cpp:4-28 | a failed allocation leaves the worker and both pools as they were; an allocation of nothing throws |
| `CpuManager.Worker.Start` | core/src/utils/threads/Worker.cpp:79-88 | the worker holds what it was allocated, and goes on without when that failed |
| `CpuManager.Worker.Stop` | core/src/utils/threads/Worker.cpp:90-96 | what the worker holds goes back, and it holds nothing |
| `CpuManager.StartKeepsCoresExactlyWhen` | core/src/utils/threads/Worker.cpp:10-27 | starting loses no core if and only if the allocation fails, is empty, or the worker held no exclusive core |
| `CpuManager.CoresConserved` | core/src/utils/threads/Worker.cpp:79-96 | in every run without restarts of workers that hold exclusive cores, each core is found equally often in its pool and in the workers' hands |
| `CpuManager.ExclusiveMeansExclusive` | core/src/utils/threads/CPUManager.cpp:59-99 | in such runs no core is held exclusively by two workers, nor held and free |
| `CpuManager.AllStopped` | core/src/utils/threads/Worker.cpp:90-96 | once all workers have stopped, both pools are restored as multisets |
| `Aggregator.MaskTest` | core/src/flow/blocks/Aggregator.hpp:27-32 | the bit test asks whether the producer has arrived |
| `Aggregator.MaskIsFull` | core/src/flow/blocks/Aggregator.hpp:37 | the comparison with 2^n - 1 asks whether everybody has arrived |
| `Aggregator.Aggregator.RegisterProducer` | core/src/flow/blocks/Aggregator.hpp:71-73 | producers are numbered in the order of registration, however many there are |
| `Aggregator.Aggregator.ProcessAny` | core/src/flow/blocks/Aggregator.hpp:26-56 | the mask stays the key set of `latest`, and each arrival does what the barrier over a set does |
| `Aggregator.Aggregator.ProcessNothing` | core/src/flow/blocks/Aggregator.hpp:26-34 | an empty input fails the cast if and only if its producer has not arrived yet; otherwise it is ignored |
| `Aggregator.ZeroMeansNobody` | core/src/flow/blocks/Aggregator.hpp:38-46 | the state is 0 if and only if nobody has arrived |
| `Aggregator.KeepsTheFirst` | core/src/flow/blocks/Aggregator.hpp:29-35 | for any sequence of arrivals, what is kept is each producer's first since the last firing |
| `Aggregator.FiresExactlyWhenAllArrived` | core/src/flow/blocks/Aggregator.hpp:34-38 | an arrival fires the barrier if and only if with it everybody has arrived since the last firing |
| `Aggregator.FiringCollectsTheFirst` | core/src/flow/blocks/Aggregator.hpp:40-46 | a firing collects each producer's first arrival since the last one, and nothing else |
| `FlowGraph.Flow.AddConsumer` | core/src/flow/Flow.hpp:38-41 | the consumer joins the end of the list under the number it gives its producer |
| `FlowGraph.Flow.Execute` | core/src/flow/Flow.hpp:44-50 | the recursion ends, and its effect on all objects is that of the function `Executed` |
| `FlowGraph.Flow.ExecuteOnNothing` | core/src/flow/Flow.hpp:44-50 | a module always rejects the empty input; an aggregator exactly when its first producer has not arrived |
| `FlowGraph.Flow.Fanout` | core/src/flow/Flow.hpp:62-70 | every consumer in turn is executed on the output |
| `FlowGraph.Flow.RoundRobinProduce` | core/src/flow/Producer.hpp:60-68 | consumer i is executed on element i, up to the shorter length |
| `FlowPaths.RoutesAreAllPaths` | core/src/flow/Flow.hpp:62-70 | the paths to a sink are all paths there are, each once, in depth-first order |
| `FlowPaths.PushIsPaths` | core/src/flow/Flow.hpp:44-72 | each sink receives, in depth-first order, what its paths from the block make of the value |
| `FlowPaths.FanoutComposes` | core/src/flow/Flow.hpp:62-70 | under fanout a sink receives, for each path to it, the composition of the functions along it |
| `FlowPaths.RoundRobinTravels` | core/src/flow/Producer.hpp:60-68 | under round robin element i travels on through consumer i, and elements or consumers left over count for nothing |
| `Pipeline.Pipeline.Add` | core/src/flow/Pipeline.hpp:60-85 | how adding an object changes lists, edges and registrations, and that it throws exactly for a source once there is a node |
| `Pipeline.Pipeline.Execute` | core/src/flow/Pipeline.hpp:90-98 | the sources are executed in turn; without sources the first node is executed on nothing, and when that fails |
| `PipelineMeaning.AutoWiring` | core/src/flow/Pipeline.hpp:42-51 | sources, nodes and sinks added in this order form a chain of nodes with all sources before and all sinks behind it |
| `PipelineHistory.SourceThrowsExactlyWhen` | core/src/flow/Pipeline.hpp:60-67 | after any history, adding a source throws if and only if a module or an aggregator was added before |
| `PipelineHistory.ThrowsAsDocumentedExactlyWhen` | core/src/flow/Pipeline.hpp:55-67 | the documented exception is met if and only if a module or an aggregator, or no sink, was added before the source |
| `PipelineHistory.SourceMeets` | core/src/flow/Pipeline.hpp:60-85 | whatever was added before and is added after it, a source leads to the sinks after it up to and including the first node, and to nothing if there was a node already |
| `PipelineHistory.LateSourceMeetsLaterSinks` | core/src/flow/Pipeline.hpp:60-85 | without nodes a source leads to exactly the sinks added after it, in order |
| `PipelineRun.PipelineIsPaths` | core/src/flow/Pipeline.hpp:90-98 | the sources' products arrive at each sink source by source, each along its paths |
| `PipelineRun.WiringFeeds` | core/src/flow/Pipeline.hpp:69-74 | when the first node is an aggregator, auto-wiring makes the i-th source its i-th producer |
| `PipelineRun.FiresOncePerExecution` | core/src/flow/Pipeline.hpp:90-98 | each execution makes an aggregator that all sources lead to pass on exactly one value, made of one product of each source, and leaves its barrier empty |
| `PipelineGraph.BuiltIsComplete` | core/src/flow/Pipeline.hpp:42-51 | sources, nodes and sinks added in this order, all with the fanout policy, make a complete pipeline |
| `PipelineGraph.CompletePipelineIsGraph` | core/src/flow/Flow.hpp:44-50 | in such a pipeline every edge leads down a rank, so that every execution ends |
| `PipelineGraph.BuiltIsReady` | core/src/flow/Pipeline.hpp:60-85 | its objects are wired as that graph says, and with empty barriers it is ready to run |
| `PipelineGraph.ExecutionDelivers` | core/src/flow/Pipeline.hpp:90-98 | with an aggregator first, one execution counts one product of each source, gives every sink one value, made of these by all nodes in turn, and changes no barrier |
| `PipelineGraph.EveryExecutionDeliversOne` | core/src/flow/Pipeline.hpp:90-98 | after any number of executions every barrier is empty and every sink has received one value for each |
| `PipelineGraph.ExecuteTimes` | core/src/flow/Mission.cpp:13-17 | the loop that executes the pipeline until it is stopped does so many executions one after the other |
| `PipelineGraph.RunPipeline` | core/src/flow/blocks/Aggregator.hpp:38-46 | however often such a pipeline is executed, the mask of every aggregator in it is 0 afterwards |
| `QueueLink.MoodycamelQueue.Push` | core/src/utils/queues/MoodycamelQueue.hpp:28-39 | the value is accepted, or the queue was full at some moment of the call |
| `QueueLink.MoodycamelQueue.PopFront` | core/src/utils/queues/MoodycamelQueue.hpp:24-26 | the oldest value, or the queue was empty at some moment of the call |
| `QueueLink.QueueSink.Process` | core/src/modules/io/queue/QueueSink.hpp:12-14 | the value is passed on, or silently dropped, the queue having been full |
| `QueueLink.QueueSource.Process` | core/src/modules/io/queue/QueueSource.hpp:17-23 | the oldest value passed on, or nothing, the queue having been empty |
| `QueueLink.LinkKeepsOrder` | core/src/modules/io/queue/QueueSource.hpp:17-23 | in every interleaving the values yielded are in order a prefix of those not dropped, and the rest is in the queue |
| `QueueLink.DropMeansFull` | core/src/modules/io/queue/QueueSink.hpp:12-14 | a value is dropped only if a queue of default size held 15 elements at some moment of the push |

## Left out

- Weak memory: fences, memory orders and cache lines; atomics are taken to be sequentially consistent, and any two steps of the two threads may be interleaved.
- Moved-from elements: a slot keeps the value last constructed in it until it is overwritten; copying, moving and throwing element types are not modelled.
- Move construction and assignment of the queues, which must not run beside other calls.
- `ReentrantGuard`: there is one producer and one consumer by construction of the machine.
- `QueueObject.ReaderWriterQueue.constructor`: leaves out a maximal block size of 2^63, for which the source's own doubling wraps. Memory is taken to be had, whatever the size; failed allocation, which throws or aborts there, is not modelled.
- `QueueObject.ReaderWriterQueue.SizeApprox`: states its result only between calls, where the source promises it exactly; beside a running call it is an approximation. The sum over all blocks is taken not to exceed 64 bits.
- `QueueObject.ReaderWriterQueue.MaxCapacity`: like `SizeApprox`, between calls.
- The kernel semaphore is a counter that is never wrong and whose wait never fails for other reasons than a timeout; a timeout may strike at any time.
- `Semaphore`, `BlockingQueue` and `SharedBuffer` are state machines over values, one step per atomic access, and not classes: a wait that blocks has no terminating sequential form, and handles of many threads have no one object that owns them. Update in place is the step from one state to the next.
- `SharedBuffer.PerformKeeps`: a handle, which only its own thread touches, is cleared in the same step as the decrement or the exchange; the observers `data`, `size`, `view` and `use_count` are not modelled, and `Send` stands for handing a handle to another thread.
- `PoolWorld.Conservation`: is about one pool that outlives its buffers, and callers that call a released deleter at most once; the pool's mutex makes its operations single steps.
- `CpuManager.Manager.Allocate`: takes no lock; in the source the fallback calls `allocate` again while holding a mutex that is not recursive.
- `CpuManager.Manager.Deallocate`: does not model the log messages about unknown or already free cores; cores are what workers hold.
- `CpuManager.Manager.constructor`: requires every isolated core to be online, without which the erasure in the source is undefined; reading and parsing the lists of cores is left out.
- `CpuManager.Worker.Start`: leaves out threads, affinity, priority and names; `stop_flag` and the cores are what is kept of a worker.
- `Aggregator.Aggregator.ProcessAny`: requires at most 30 producers, since shift and power are computed in `int`; more may register, but then the source's mask is undefined. Input and output are one type, and the order of the collected vector is open, as that of an unordered map is.
- `FlowGraph.Flow.Execute`: every block other than an aggregator always produces, every block with the fanout policy but a sink has a consumer, and blocks with the round-robin policy produce vectors. Empty results, failing casts and the underflow of the fanout loop without consumers are outside the model.
- `FlowPaths.PushIsPaths`: is about graphs of sources, modules and sinks whose modules' functions have no state of their own; aggregators are treated in `PipelineRun`.
- `Pipeline.Pipeline.Execute`: of an execution without sources only the first node's answer to the empty value is modelled; objects of unknown type, which `add` refuses, do not exist in the model.
- `QueueLink.LinkKeepsOrder`: is about the link over the lock-free queue; over the blocking queue, whose semaphore only adds refusals, see `BlockingQueue`.
- `QueueLink.MoodycamelQueue.Push`: the overload for values that cannot be copied, which throws, is left out, and so is `peek` of the adapter, which dereferences the inner answer unchecked.
- `PipelineGraph.ExecutionDelivers`: is about pipelines whose first node is an aggregator and whose blocks all have the fanout policy; what the others deliver is `PipelineRun.PipelineIsPaths`.
- `Mission` but for its loop, the HTTP server, RabbitMQ, configuration, logging, `Singleton`, number-range parsing and the scripts: input and output, or too simple.
