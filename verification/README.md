# A verified model of swap-buffer-queue

The repository is a multi-producer queue over two buffers.  Producers reserve a range of the enqueuing
buffer by a compare-and-exchange on one packed word, fill it, and acknowledge it in a length counter.  A
consumer takes the dequeuing lock, swaps the buffers, waits for the acknowledged length to reach the
reserved one, and hands out a slice, which is released, drained or put back.  Blocking operations are
built on top with a waker cell for the consumer and a waker list for the producers.

This project models that in Dafny and proves what the safety comments and the documentation rely on, for
every interleaving of any number of threads.

- **The queue protocol** (`Protocol*.dfy`) is a step system: one step per atomic access, a program counter
  per thread, and history fields that record the values in reservation order.  `ProtocolInvariant.Inv` is
  kept by every step (`ProtocolSteps.StepKeeps`); the theorems about whole executions follow from it.
  `ProtocolCalls.dfy`, `ProtocolRequests.dfy` and `ProtocolSlices.dfy` say what each answer and each use of a
  slice means, in terms of the arguments the call was started with.
  `ProtocolWitness.dfy` and `ProtocolPanicWitness.dfy` build concrete executions.
- **The packed words** (`PackedWords.dfy`, `PackedRefinement.dfy`): the bit operations of the source on
  64-bit words, and the proof that every execution computes with them what the records say.
- **The wakers** (`AtomicWaker.dfy`, `AtomicWakerWords.dfy`, `WakerList.dfy`) and their composition with the
  queue (`Synchronized*.dfy`): which wake-ups arrive, after how many moves, and exactly when one is lost;
  with what the blocking calls may end, and when they park.
- **The buffers** as imperative code: `VecBuffer.dfy`, `BufferSlice.dfy` (slices and draining iterators),
  `WriteVecBuffer.dfy` (framed bytes), `VectoredFrame.dfy` (framing io-slices in place) and
  `WriteVectoredVecBuffer.dfy` (the running total of sizes).

`dafny verify dfyconfig.toml` checks everything.

## Where the code does not do what one would expect

Each of these is kept as the code has it, shown on a concrete input, and bounded by an exact condition.

- A dequeue with pre-insertion does not notify the consumer.  When a thread other than the parked consumer
  pre-inserts values and puts them back, the consumer sleeps on with values in the open queue:
  `SynchronizedWitness.WakeUpIsLost`.  That is the only way to lose a wake-up, and nothing is reserved
  while it stays lost: `SynchronizedTheorems.StrandedExactlyByPreInsertion`,
  `SynchronizedTheorems.LostSincePreInsertion`.
- `try_reserve` truncates sizes of 2^63 and more: `PackedWords.HugeSizeIsTruncated`,
  `PackedWords.ReserveIffFits`.
- The pre-insertion guard compares each value with the whole capacity; values that do not fit together
  panic, and the panic leaves the dequeuing lock taken and the buffer full for good:
  `ProtocolPanicWitness.PanicIsReached`, `ProtocolPreInsertion.PanicsIffUnfitting`,
  `ProtocolPreInsertion.PanicLocksForever`, `ProtocolPreInsertion.PanicLeaves`.
- A dequeue that swapped a resized buffer in answers `Empty` even on a closed queue:
  `ProtocolWitness.ClosedQueueAnswersEmpty`, `ProtocolOutcomes.ClosedIffNotResized`.
- Dropping a queue dequeues once, so values stay behind in the cells exactly when both buffers hold some, or
  when the lock was left taken and one holds some: `ProtocolWitness.DropLeavesValues`,
  `ProtocolPanicWitness.DropLeavesWritten`, `ProtocolDrop.DropClearsOneBuffer`.
- A frame with a bounded end is one element short of the range it was asked for:
  `VectoredFrame.FrameIsExactIffUnbounded`, `VectoredFrame.BoundedFrameIsShort`; and when header and
  trailer share a slot, dropping the frame leaves the header there, which may be the slot of an element:
  `VectoredFrame.SharedSlotIsLost`, `VectoredFrame.DropRestoresIff`, `VectoredFrame.SharedElementIsLost`,
  `VectoredFrame.FrameKeepsElementsIff`.
- `clear` of a vectored buffer zeroes the total and then subtracts: `total_size` is off by what was live
  at the last clear: `WriteVectoredVecBuffer.TotalIsWrongAfterClear`, `WriteVectoredVecBuffer.TotalOfRun`.

## Model

| member | source | states |
|---|---|---|
| `ProtocolSteps.StepKeeps` | src/queue.rs:342-607 | every step of every thread, with close, reopen, resize, pre-insertion, draining, requeuing and spurious exchange failures, keeps the invariant the safety comments rely on |
| `ProtocolTheorems.ReachableInv` | src/queue.rs:218-233 | the invariant holds in every state of every execution from a new queue |
| `ProtocolTheorems.NewQueue` | src/queue.rs:218-233 | a new queue is open and empty, has the capacity asked for in both buffers, and has room for a value exactly if that is not larger |
| `ProtocolTheorems.Fifo` | src/queue.rs:559-603 | no access to an empty, full or foreign cell ever happens; consumed values are a prefix of the values in reservation order; a slice or iterator shows exactly what comes next |
| `ProtocolTheorems.NothingLost` | src/queue.rs:398-435 | everything reserved or published by a swap has been consumed or is still in one of the two buffers, older values in the one being dequeued |
| `ProtocolTheorems.ExclusiveAccess` | src/queue.rs:461-502 | whoever resizes, shows, drains or clears a buffer is the only holder of the dequeuing lock, the buffer is not the enqueuing one, and no thread has an unacknowledged reservation in it |
| `ProtocolTheorems.ReservationsTile` | src/queue.rs:556-602 | reservations of a generation tile the reserved part without overlap, each at the index its thread computes from the word it exchanged, also after the word recurred or the buffer was resized |
| `ProtocolTheorems.Conservation` | src/queue.rs:424-478 | acknowledged length plus positions in flight is what was reserved; a saved length is that total, or the undrained rest when nothing is in flight; the two indices differ |
| `ProtocolTheorems.SavedRangeIsLive` | src/queue.rs:455-516 | a buffer put back is recovered as the range `length - saved..length`, which holds exactly the live cells and the next values; the saved length is zero exactly for an emptied buffer |
| `ProtocolOutcomes.EmptyIsTruthful` | src/queue.rs:383-446 | `Empty` and `Closed` are decided at a step of the call at which nothing was reserved, pending, requeued or undrained; the answer is `Closed` exactly when the queue was closed then and the next buffer not resized |
| `ProtocolOutcomes.ClosedIffNotResized` | src/queue.rs:370-396 | the same condition in terms of the request: `Closed` exactly when the queue was closed at the decision and the capacity asked for, if any, was that of the buffer prepared |
| `ProtocolWitness.ClosedQueueAnswersEmpty` | src/queue.rs:437-446 | an execution that closes an empty queue, dequeues with a resize and is told `Empty` |
| `ProtocolOutcomes.RetryAtMostOnce` | src/queue.rs:424-446 | the retry recursion is one level deep and always finds values; giving up after a swap happens only to calls that resized |
| `ProtocolClosing.ClosedUntilReopened` | src/queue.rs:561-590 | between a close and the next reopen every swap keeps the flag and no reservation succeeds |
| `ProtocolClosing.ClosedStep` | src/queue.rs:398-407 | a step of a closed queue keeps it closed and publishes nothing but pre-inserted values |
| `ProtocolClosing.AtMostTwoAfterClose` | src/queue.rs:424-470 | after a close, without requeue, pre-insertion or reopen, at most two more slices are handed out, whoever dequeues |
| `ProtocolClosing.ThenClosed` | src/queue.rs:364-396 | once they have been, every `try_dequeue` returns `Closed`, or `Conflict` without the lock, and never a slice |
| `ProtocolTermination.CallSteps` | src/queue.rs:355-480 | a dequeuing call takes at most 84 steps of its own plus one for each failed exchange |
| `ProtocolTermination.SwapFailuresBounded` | src/queue.rs:401-417 | failed exchanges of the swap loop are bounded by the remaining capacity, the spurious failures and the changes of the closed flag |
| `ProtocolTermination.WholeCallSteps` | src/queue.rs:355-480 | a whole call enters at most two swap loops and takes at most 86 steps of its own, plus the capacity left at each loop, the spurious failures and the changes of the closed flag |
| `ProtocolPreInsertion.PreInsertExact` | src/queue.rs:808-823 | pre-insertion goes through exactly when the accepted values fit together, and then inserts exactly those in order; otherwise it panics when the buffer is full of the first of them |
| `ProtocolPreInsertion.GuardIsNotEnough` | src/queue.rs:814-816 | two values that each pass the guard and panic together |
| `ProtocolPreInsertion.PanicsIffUnfitting` | src/queue.rs:800-825 | a dequeuing call panics exactly when the capacity asked for is over the limit or the accepted values do not fit |
| `ProtocolPreInsertion.PanicLeaves` | src/queue.rs:800-825 | ever after such a panic the buffer that was being prepared holds exactly what the loop had written, and is never enqueued into: nothing if the capacity was refused, otherwise as many of the accepted values as it has cells |
| `ProtocolPanicWitness.PanicIsReached` | src/queue.rs:808-823 | an execution in which a pre-insertion passes the guard, writes 7 and panics |
| `ProtocolPreInsertion.PanicLocksForever` | src/queue.rs:342-349 | after such a panic every later attempt to lock returns `Conflict` |
| `ProtocolDrop.DropClearsOneBuffer` | src/queue.rs:875-879 | dropping a queue nobody else uses any more empties the cells of the buffer put back or pending, or else of the enqueuing one, and touches nothing when a panic or a forgotten slice left the lock taken; values are left in cells exactly when both buffers held some, or one did and the lock was left taken |
| `ProtocolWitness.DropLeavesValues` | src/queue.rs:875-879 | a reachable queue with a value in each buffer, and the state with one of them left that its drop ends in |
| `ProtocolWitness.DropLeadsThere` | src/queue.rs:875-879 | the drop from the one to the other, step by step |
| `ProtocolPanicWitness.DropLeavesWritten` | src/queue.rs:875-879 | the drop after that panic: it finds the lock taken and leaves in its cell a value that was never published |
| `ProtocolCalls.EnqueueResults` | src/queue.rs:548-604 | for every execution and every `try_enqueue`: `EnqueueOk` means the value was reserved exactly once, as a whole, in an open queue with room for it, is acknowledged at the place its word stands for and stays in the log for good (an empty value leaves no trace); `EnqueueClosed` and `InsufficientCapacity` mean that nothing was reserved and that the word read last was closed, or open with less room |
| `ProtocolLockFree.EnqueueSteps` | src/queue.rs:556-604 | a `try_enqueue` takes at most five steps and one for each cell, plus one for each spurious failure and each change of the enqueuing word by another thread meanwhile |
| `ProtocolRequests.SwapIsAsAsked` | src/queue.rs:370-423 | for every execution and every dequeuing call: its first swap puts in a buffer of the capacity asked for (or its own), with exactly the accepted values inserted, which enter the log there, and the rest of it as remaining capacity; the swap of a retry puts the other buffer in as it is |
| `ProtocolRequests.AddsOnlyAsked` | src/queue.rs:798-826 | a dequeuing call adds to the log nothing but the values it was asked to insert, once, at its first swap |
| `ProtocolRequests.CapacityIsCurrent` | src/queue.rs:418-423 | `capacity()` is that of the enqueuing buffer, but for the moment between a swap and its store |
| `ProtocolRequests.ConflictMeansLocked` | src/queue.rs:342-352 | `Conflict` is answered only if the lock was taken at the one look the call had at it, and the call has done nothing |
| `ProtocolRequests.PendingAfterLooks` | src/queue.rs:453-480 | `Pending` is answered only after sixty-four looks at the acknowledged length, each of which found it short |
| `ProtocolPreInsertion.PrepareExact` | src/queue.rs:800-825 | the resize closure gives the buffer exactly the capacity asked for and exactly the accepted values, or panics exactly when they do not fit, leaving the cells it had written |
| `ProtocolSlices.SliceIsTheRest` | src/queue.rs:455-471 | a slice or iterator shows all that is in the log, not consumed and not in the enqueuing buffer |
| `ProtocolSlices.SliceUse` | src/buffer.rs:353-451 | dropping a slice takes out all that is left, `next` the first of it, everything else nothing; what is not taken is still there in order, and putting it back saves exactly its length and gives the lock up |
| `ProtocolSlices.HandsOutExpected` | src/queue.rs:455-471 | a slice handed out is as long as expected and not empty |
| `ProtocolClosing.FlagIsLastSet` | src/queue.rs:74-81 | the queue is closed exactly if it has been closed and not reopened since; closing and reopening change nothing but the flag |
| `ProtocolTheorems.NeverStuck` | src/queue.rs:342-607 | every thread that has not panicked can always go on, whatever the others do |
| `PackedWords.FieldsOfPack` | src/queue.rs:39-51 | the accessors read back what was packed |
| `PackedWords.PackInjective` | src/queue.rs:64-71 | comparing words is comparing fields |
| `PackedWords.NewEnqueuingPacks` | src/queue.rs:33-36 | `new` packs index and capacity, and its assertion holds, for every capacity that fits |
| `PackedWords.ReserveExact` | src/queue.rs:54-56 | `try_reserve` on an open word, for every 64-bit size: what it keeps of the size, when it succeeds, and that only the capacity changes |
| `PackedWords.ReserveIffFits` | src/queue.rs:54-56 | `try_reserve` succeeds iff the size fits exactly for sizes below 2^63 and those whose truncation does not fit either |
| `PackedWords.HugeSizeIsTruncated` | src/queue.rs:54-56 | a size of 2^63 is "reserved" on a full buffer |
| `PackedWords.FlagIsFieldwise` | src/queue.rs:59-81 | close, reopen and the swap act on the flag alone |
| `PackedWords.DequeuingFields` | src/queue.rs:103-124 | the dequeuing word gives its fields back and equals the lock sentinel for one length only, 2^63 - 1 |
| `PackedWords.WakerBits` | src/synchronized/atomic_waker.rs:19-21 | `fetch_or` and `fetch_and` on the waker state set and clear one bit, the four values are distinct |
| `PackedRefinement.WordsRefineRecords` | src/queue.rs:342-590 | in every execution the source's bit operations on the packed words write, compare and decide exactly what the records do, no assertion stops them, and the dequeuing word is the sentinel exactly while the lock is held |
| `AtomicWaker.StepKeeps` | src/synchronized/atomic_waker.rs:32-94 | every access keeps: the state is `WAITING` exactly when nobody owns the cell, and the owner is where the state says |
| `AtomicWaker.CellIsExclusive` | src/synchronized/atomic_waker.rs:33-93 | with any number of registrars and wakers, no two threads access the cell at once, and the unwrapped waker is there |
| `AtomicWakerWords.StateWordRefines` | src/synchronized/atomic_waker.rs:33-93 | the state word computed by the source's operations never leaves its four values, each of the three assertions holds of the word read, and the word read decides the branch |
| `WakerList.FlagOrDrainer` | src/synchronized/waker_list.rs:20-49 | somebody is listed, or about to be pushed, exactly when the flag is set or one thread is committed to draining, never both; wakers unparked so far followed by the list are those registered, each once |
| `WakerList.WakeDelegates` | src/synchronized/waker_list.rs:30-39 | a `wake` that returns at once leaves the list to a thread committed to drain it |
| `SynchronizedTheorems.MoveKeeps` | src/synchronized.rs:437-482 | every move of the composed system keeps the invariant that links queue, waker cell, waker list, blocking calls and park tokens |
| `SynchronizedTheorems.NoLostWakeUpForConsumer` | src/synchronized.rs:463-482 | whenever the consumer is parked without a token, nothing is queued and the queue is open, or some thread still has to complete a wake-up that reaches it, or another thread has pre-inserted values into the empty queue and nothing has been reserved since |
| `SynchronizedTheorems.StrandedExactlyByPreInsertion` | src/queue.rs:370-436 | a wake-up is lost at a step exactly when that step is a pre-insertion by another thread, the consumer having given up without a token and nobody being about to wake it |
| `SynchronizedTheorems.LostSincePreInsertion` | src/queue.rs:370-436 | in every run, a lost wake-up goes back to one pre-insertion by another thread into the open, empty queue; ever since it has been lost, the queue open and not empty, and the log has grown by pre-inserted values only |
| `SynchronizedTheorems.NeverStrandedOtherwise` | src/synchronized.rs:463-482 | as long as only the consumer has pre-inserted, no wake-up is lost |
| `SynchronizedWitness.WakeUpIsLost` | src/queue.rs:505-517 | a run that ends with the consumer parked without a token, everybody else done, and a value in the open queue |
| `SynchronizedProgress.WakeUpArrives` | src/synchronized/atomic_waker.rs:78-94 | each move of a thread that reaches the consumer, from its reservation through the notification to the end of the wake-up, unparks the consumer or leaves somebody with strictly less to do |
| `SynchronizedProgress.WakeUpArrivesForEnqueuers` | src/synchronized/waker_list.rs:30-49 | each move of a thread that has to look at the waker list or drain it unparks a listed enqueuer or leaves somebody with strictly less to do, one waker less before the enqueuer's own while draining |
| `SynchronizedBounds.OthersKeepReaching` | src/synchronized/atomic_waker.rs:78-94 | while the consumer is parked, a move of a thread that does not reach it leaves every thread that does so, with as much left to do |
| `SynchronizedBounds.WakeUpIsBounded` | src/synchronized/atomic_waker.rs:78-94 | over any stretch of a run in which the parked consumer has no token, a thread that reaches it can be followed, to whoever takes its waker first; the moves of the thread followed and those it has left are together no more than the first one had left |
| `SynchronizedBounds.WakeUpIsBoundedForEnqueuers` | src/synchronized/waker_list.rs:30-49 | the same for a listed enqueuer: it stays listed and never falls behind, and the moves of the thread followed, those it has left and the wakers before the enqueuer's own do not add up to more than at the start |
| `SynchronizedTheorems.NoLostWakeUpForEnqueuers` | src/synchronized.rs:437-460 | whenever an enqueuer is parked without a token although its value fits, the queue is closed, or the queue has shrunk below its value, it is in the waker list and some thread has yet to look at the list or is committed to draining it |
| `SynchronizedCalls.BlockingEnqueueEnds` | src/synchronized.rs:437-460 | in every run a blocking enqueue ends only with its value accepted once and as a whole, with the queue closed at its last look, with the value larger than the whole queue right after it was told that there is no room, or at its deadline with one last `try_enqueue` of the same value |
| `SynchronizedCalls.EnqueueInRun` | src/synchronized.rs:437-460 | a `try_enqueue` inside a run, such as that last one, ends as one of the value it started with |
| `SynchronizedCalls.BlockingDequeueEnds` | src/synchronized.rs:463-491 | in every run a blocking dequeue ends only with a slice, with `Closed` or `Conflict`, or at its deadline with one last `try_dequeue`: never with `Empty` or `Pending` |
| `SynchronizedCalls.GoesOnIffNoUse` | src/synchronized.rs:446-482 | a blocking call goes on after an attempt exactly if that answered `Empty`, `Pending` or `InsufficientCapacity` |
| `SynchronizedParking.ParksAfterAttempts` | src/synchronized.rs:446-482 | a parked thread has made sixty-five attempts since it began or was last woken: sixty-four before it registered and one after |
| `SynchronizedParking.TokenIsLastUnpark` | src/synchronized.rs:494-509 | a thread has its park token exactly if it has been unparked since it last woke up |
| `SynchronizedParkWitness.EnqueuerParks` | src/synchronized.rs:437-460 | a run that ends with an enqueuer parked and listed, the only cell of the open queue being taken |
| `SynchronizedProjection.RunProjects` | src/synchronized.rs:437-482 | every run of the composed system runs through the states of an execution of the queue, with the same threads taking the steps, so that what is proved of executions holds in it |
| `SynchronizedEnabled.NobodyIsStuck` | src/synchronized.rs:437-482 | in every run every thread that has not panicked has a move, unless it waits for the mutex of the waker list, whose holder has one |
| `VecBuffer.VecBuffer.Insert` | src/buffer/vec.rs:44-46 | fills one empty cell; panics exactly out of bounds |
| `VecBuffer.VecBuffer.Remove` | src/buffer/vec.rs:61-64 | takes the value of one full cell and leaves it empty |
| `VecBuffer.VecBuffer.Clear` | src/buffer/vec.rs:34-39 | empties exactly the range |
| `VecBuffer.VecBuffer.Resize` | src/buffer/vec.rs:50-54 | as many empty cells as asked for |
| `VecBuffer.VecBuffer.InsertIter` | src/buffer.rs:112-120 | the insertion loop writes the items in order, and panics exactly on an iterator shorter than it claims or a range out of bounds, having written the items up to there |
| `VecBuffer.VecBuffer.InsertAll` | src/queue.rs:808-823 | the pre-insertion loop on a real buffer inserts what `Protocol.PreInsert` says, and panics when it does, with what it has written in the cells |
| `VecBuffer.VecBuffer.ResizeAndInsert` | src/queue.rs:800-825 | the resize closure turns the cleared buffer into the one the protocol swaps in, or panics when the protocol does and leaves the same cells; its cells are as many as asked for |
| `BufferSlice.Dequeued.Dequeue` | src/queue.rs:455-471 | from the two lengths the slice of exactly the undrained values is recovered |
| `BufferSlice.Dequeued.Next` | src/buffer.rs:441-451 | takes the first value that is left, or none |
| `BufferSlice.Dequeued.IntoSlice` | src/buffer.rs:353-361 | an iterator turned back into a slice shows what is left |
| `BufferSlice.Dequeued.Release` | src/queue.rs:482-493 | a released buffer is empty, with both lengths zero |
| `BufferSlice.Dequeued.Requeue` | src/queue.rs:505-517 | a buffer put back keeps what is left, cell for cell, and is released exactly when nothing is |
| `BufferSlice.UseOnce` | src/buffer.rs:353-361 | an iterator takes values from the front; the slice made of it shows exactly what is left; putting it back keeps that, dropping it clears that |
| `BufferSlice.UseAll` | src/buffer.rs:426-450 | any sequence of partial drains, iterator drops, slices made of iterators, requeues and slice drops yields each value once and in order, and releases the buffer exactly when all have been taken or cleared |
| `WriteVecBuffer.CopyInto` | src/write.rs:139-141 | copies the bytes over exactly their range |
| `WriteVecBuffer.WriteVecBuffer.InsertInto` | src/write/vec.rs:52-59 | writes the chunk behind the header room, panics exactly when it does not fit |
| `WriteVecBuffer.WriteVecBuffer.Resize` | src/write/vec.rs:65-70 | zeroed room for header, capacity and trailer |
| `WriteVecBuffer.WriteVecBuffer.Slice` | src/write/vec.rs:28-34 | the slice of a range frames exactly the payload of the range |
| `WriteVecBuffer.BytesSlice.WriteHeader` | src/write.rs:77-79 | writing the header leaves payload and trailer alone |
| `WriteVecBuffer.BytesSlice.WriteTrailer` | src/write.rs:84-87 | writing the trailer leaves header and payload alone |
| `WriteVecBuffer.PayloadIsConcatenation` | src/write/vec.rs:28-59 | for every header and trailer size and every order of insertions, the payload of any range is that range of the concatenated chunks, and nothing else has changed |
| `WriteVecBuffer.FramingKeepsPayload` | src/write.rs:77-122 | no number of header and trailer writes, across requeues, changes the payload |
| `VectoredFrame.VectoredSlice.MakeFrame` | src/write_vectored.rs:118-163 | when `frame` panics, which slots it replaces in what order, and what it remembers |
| `VectoredFrame.VectoredSlice.DropFrame` | src/write_vectored.rs:194-202 | dropping writes back header slot and trailer slot, or panics on an empty frame |
| `VectoredFrame.UnboundedFrame` | src/write_vectored.rs:124-163 | for every start in range and an unbounded end: the optional header, exactly the elements at the positions the range contains, the optional trailer |
| `VectoredFrame.FrameIsExactIffUnbounded` | src/write_vectored.rs:129-133 | a frame shows the range asked for exactly when the end is unbounded |
| `VectoredFrame.BoundedFrameIsShort` | src/write_vectored.rs:129-133 | a bounded end shows the range without its last element |
| `VectoredFrame.DropRestoresIff` | src/write_vectored.rs:134-202 | for every frame, dropping restores every slot exactly when header and trailer have slots of their own inside it, or the slot they share held the header already |
| `VectoredFrame.UnboundedDropRestores` | src/write_vectored.rs:194-202 | with an unbounded end and a start in range, dropping always restores every slot |
| `VectoredFrame.SharedSlotIsLost` | src/write_vectored.rs:194-202 | an empty range framed with both leaves the header behind |
| `VectoredFrame.FrameKeepsElementsIff` | src/write_vectored.rs:118-202 | for every frame, also one whose drop panics, the exact condition on slots and contents under which the slice shows the same elements afterwards |
| `VectoredFrame.SharedElementIsLost` | src/write_vectored.rs:194-202 | the empty range `1..1` framed with both replaces the only element by the header |
| `WriteVectoredVecBuffer.WriteVectoredVecBuffer.Insert` | src/write_vectored/vec.rs:71-78 | stores value and io-slice and adds its size; what a panic leaves behind |
| `WriteVectoredVecBuffer.WriteVectoredVecBuffer.Remove` | src/write_vectored/vec.rs:103-112 | takes the value and subtracts its size |
| `WriteVectoredVecBuffer.WriteVectoredVecBuffer.Clear` | src/write_vectored/vec.rs:57-63 | empties the range; the total becomes zero minus the cleared sizes, wrapped |
| `WriteVectoredVecBuffer.WriteVectoredVecBuffer.Resize` | src/write_vectored/vec.rs:85-92 | new cells and slots, and the old total |
| `WriteVectoredVecBuffer.TotalOfRun` | src/write_vectored/vec.rs:57-112 | over every run and any number of generations, `total_size` is the live sizes minus what was live at the last clear, modulo the word; it is right exactly when that is zero modulo the word |
| `WriteVectoredVecBuffer.TotalAfterRelease` | src/write_vectored/vec.rs:57-63 | releasing an undrained buffer leaves the negated sum as the total of an empty one, a drained one leaves zero |
| `WriteVectoredVecBuffer.TotalIsRightWhenDrained` | src/write_vectored/vec.rs:103-112 | when every release finds the buffer drained, `total_size` is right throughout |
| `WriteVectoredVecBuffer.TotalIsWrongAfterClear` | src/write_vectored/vec.rs:57-63 | a run whose second batch of three bytes is reported as none |
| `WriteVectoredVecBuffer.HoldsLastInserted` | src/write_vectored/vec.rs:71-112 | over every run there are as many cells as last asked for, and each holds the value last inserted there, unless it was removed or cleared or the buffer resized since |
| `WriteVectoredVecBuffer.SliceShowsValues` | src/write_vectored/vec.rs:44-54 | over every run the slice of an inserted range shows, in order, the bytes of the values last inserted there |
| `WriteVectoredVecBuffer.FramedSliceShowsValuesIff` | src/write_vectored.rs:118-202 | over every run, once such a slice has been framed and the frame dropped, it still shows them exactly when the frame has kept the elements |

## Left out

- Memory orderings: accesses are sequentially consistent; the effect of `Relaxed` and `Acquire`/`Release` is not modelled.
- Update in place in `src/queue.rs`, `src/synchronized.rs`, `src/synchronized/atomic_waker.rs` and `src/synchronized/waker_list.rs`: shared state changed by many threads at once is modelled as values and steps, not as objects and methods; aliasing does not arise there.
- Protocol.Enabled: a `try_enqueue` is started with sizes below 2^63 only; `PackedWords.ReserveIffFits` says what happens beyond.
- Protocol.PreInsert: a value is written cell by cell, as by the loop of src/buffer.rs; a byte buffer refuses a value that does not fit as a whole (`WriteVecBuffer.WriteVecBuffer.InsertInto`), so there a panic leaves the values before it only.
- SynchronizedTheorems.NoLostWakeUpForConsumer: one thread uses the blocking dequeue; two blocking consumers may replace each other's waker.
- SynchronizedTheorems.NoLostWakeUpForEnqueuers: states that a wake-up is due; `SynchronizedBounds` bounds the moves it takes, but no scheduler is modelled that lets them happen.
- Panics of user code: a value that panics while it is inserted leaves its reservation unacknowledged forever.
- Writing through the mutable view of a slice (`DerefMut`): it changes values and no bookkeeping.
- Raw memory: `UnsafeCell`, `MaybeUninit`, transmutes and lifetimes are optional cells and ownership history.
- Clocks, executors and streams: a deadline may expire at any time; polling a future is the blocking call, and dropping a future half way is not modelled.
- Backoff, spin hints, cache padding and the loom shim: no effect on values.
- VectoredFrame.VectoredSlice.MakeFrame: bounds so large that adding one or two overflows the machine word are out of range here; in the source they panic or wrap around depending on the build.
- WriteVecBuffer.WriteVecBuffer.InsertInto: a writer given as a closure is known by the bytes it leaves in its range.
- The array buffers, error types, `Debug` and `Display`, `len`, `is_empty` and `Notify` wrappers: fixed-size twins and thin accessors.
