# Verification of the abfall collector

A Dafny model of abfall's concurrent tri-colour mark-and-sweep collector and proofs about it. `dafny verify dfyconfig.toml`
checks the project.

## What is modelled

**The step system** (`Protocol.dfy`, `Invariant.dfy`). A state holds the objects with their colour, root count, size, leaf
flag (`NO_TRACE`) and pointer slots, the intrusive list, the shared gray queue, one work list and one object in progress per
thread, the busy counter, the phase and the byte count. An `Action` is one atomic operation of a collector (start, root
scan, hand-off, sweep), of a tracer (steal, pop, scan one field, blacken, merge) or of a mutator (assist, the five steps of
`GcCell::set`, the two steps of an allocation, root, clone, drop). Any number of threads interleave their actions freely.
Some fields of the state only record history: what was rooted at the scan, what was enqueued in this cycle, which handles
are out. `Inv` is kept by every action (`Preservation.dfy`, `HeapPreservation.dfy`, `CyclePreservation.dfy`).

**The heap in place** (`HeapObjects.dfy`, `Collector.dfy`). Classes `Node`, `Tracer`, `GrayQueue` and `Heap` with the fields
of the source and its loops: the batch of eight stolen with `continue`, the budget, the leftovers merged back, the list walk
for roots, the sweep that unlinks through the head or the last kept node. Each method is proved to do exactly a run of
actions of the step system: the ghost field `st` is the abstract state, `Valid` says that the objects in memory show it, and
the postconditions give the actions. A node carries a ghost flag `alive`. Every access the methods make requires it, and
`Free`, which requires it too, leaves memory of which nothing is known: what is proved of the sweep does not depend on
reading a freed header, and none is freed twice.

**Results over runs**: `Safety.dfy` (one cycle), `RunSafety.dfy` (many cycles, bookkeeping, busy handshake),
`RootCounts.dfy` (root counts from the actions alone), `Promptness.dfy` (garbage is freed), `MarkingWork.dfy` (marking is reachability, and bounded), `Counterexamples.dfy` (why
mutators need a discipline, and how work is lost at the end of marking), `HandOffRace.dfy` (the hand-off in its three
operations, and the work budget zero), `Pacing.dfy` (thresholds). **On their own**: `AllocList.dfy` (the lock-free push and concurrent
walks), `TraceTypes.dfy` (the `Trace` implementations), `Worker.dfy` (starting and stopping the background thread).

Reachability (`Reachability.dfy`) is the least set that holds the roots and is closed under edges, computed by adding successors until
nothing changes, with paths as its second definition.

## Granularity

These are assumptions about how the code is used or scheduled; the code does not enforce them by itself.

- Each atomic operation is one sequentially consistent step.
- One collector at a time. The phase is set to Idle twice at the end of a cycle (src/heap.rs:557 and src/heap.rs:418);
  `sweep_and_finish` is one unit and no cycle starts in between.
- The exit test of marking (src/heap.rs:496-497) and the store of Sweeping (src/heap.rs:390) are one step, `HandOff`, guarded
  by: shared queue empty, collector's work list empty, busy counter zero. In the code they are three operations;
  `HandOffRace.dfy` says what other threads can do in between.
- The root scan is one step (the code calls it a stop-the-world pause, src/heap.rs:406), and no mutator acts between
  hand-off and the end of the sweep.
- In `set`, the store (src/cell.rs:57) belongs to the step that leaves the busy section, or to the failed phase check.
- Reading a slot, the compare-exchange of the colour and the push onto the thread's own list are one step, `ScanField` for a
  tracer and `SetShade` for the barrier.
- An object's identity is never used again for another object.
- Every mutator thread has a context for this heap. Otherwise the barrier is skipped.
- The step system's hand-off presumes a positive `incremental_work_budget`. With zero, marking ends right after the root
  scan; the methods of `Heap` do that too, and `ZeroBudgetCycle` says what is left.
- `usize` arithmetic of the threshold wraps around as in a release build; byte counts, root counts and generations are
  unbounded integers.

## Findings

- The collector by itself does not keep every live object. It does not shade the initial pointers of an object allocated
  during marking, and `root()` does not shade its target. `UnshadedAllocationDangles` and `RootedWhiteDangles` are two runs,
  from a well-formed idle heap and with mutators that touch only reachable objects, after which a rooted object points to a
  freed one. `RunIsSafeIff` gives the exact condition for a run of any number of cycles: at each sweep the white objects that
  are rooted point only to objects the sweep keeps. `CarefulRunIsSafe` derives it from a discipline a mutator can follow:
  during marking a new object starts with no pointers, or only to shaded objects, and `root()` is called only on objects
  that are shaded, were allocated since the scan, or point to nothing white. After an unsafe sweep the behaviour of the code
  is undefined, so results over many cycles are stated for safe runs.
- Even under the discipline marking can end too early, because the failed steal, the busy test and the store of Sweeping are
  three operations. In `LateMergeLosesWork` a mutator that only assists has taken the last object from the shared queue, the
  collector's steal fails, the mutator merges what it found and leaves, and the collector then finds nobody busy and sweeps
  with an object still queued: what only that object points to is freed although a root reaches it. `SplitHandOffIff` gives the
  exact condition: no surviving edge dangles iff the white rooted objects and the objects whose tracing is unfinished (those
  left in the shared queue, when nothing comes between the busy test and the store) point only to objects the sweep keeps. An
  empty queue is enough but not necessary. `EarlySweepSafeIff` is the same for live objects.
- The threshold computation can wrap around and then grants less than the percentage (`OverflowGrantsLess`). For every old
  threshold, `ThresholdLeavesHeadroomIff` says when the promise is kept: iff nothing wraps, or else the old threshold, where
  the hysteresis keeps it, or the minimum, where it does not, is large enough anyway.
- The options' documentation says that a percentage of 0 or `usize::MAX` disables threshold-based collection
  (src/heap.rs:151-156). With a byte limit set, the initial threshold still triggers a collection
  (`SwitchedOffThresholdStillFires`). It is silent from the start iff the limit is at most the minimum (`SwitchedOffIff`, and
  over whole runs `SwitchedOffRunsIff`), and in any case from the first collection on.
- With `incremental_work_budget` zero a cycle keeps the rooted objects and nothing else and leaves them in the gray queue
  (`ZeroBudgetCycle`): nothing live is lost iff every live object is rooted, and the heap is well formed iff none is.
- `GcCell` keeps the default `NO_TRACE = false`, so a cell whose content cannot hold a pointer misses the shortcut
  (`CellsMissTheShortcut`). `NoTraceIff` says of every type whether its `NO_TRACE` is exact.

## Model

| member | source | states |
|---|---|---|
| CyclePreservation.StepPreserves | src/heap.rs:280-559 | Every action of every thread keeps the whole invariant: list and edges well formed, one collector, busy counter, each gray object in one work list and enqueued once, no black-to-white edge, root counts equal handles, bytes add up. The sweep does so when what it keeps is closed under edges |
| Collector.EmptyIsValid | src/heap.rs:262-278 | The invariant holds of a new heap with any number of threads |
| HeapPreservation.StorePreserves | src/cell.rs:44-59 | The store of `set` keeps the invariant when the new pointers are shaded or no marking is under way |
| HeapPreservation.BlackenPreserves | src/heap.rs:458-463 | Blackening an object whose fields have all been handed over keeps the invariant: the object leaves the only work list it was in and points to nothing white |
| CyclePreservation.RootScanPreserves | src/heap.rs:503-518 | The root scan enqueues each white rooted object exactly once |
| CyclePreservation.SweepPreserves | src/heap.rs:520-559 | A sweep whose survivors are closed leaves a well-formed idle heap, all white, with no edge to a freed object |
| HeapPreservation.LinkPreserves | src/heap.rs:280-311 | Linking a new white object with root count 1 keeps the invariant at any moment of a cycle |
| HeapPreservation.DropRootPreserves | src/ptr.rs:135-141 | Dropping a handle that is out finds a root count of at least one, and keeps counts equal to handles |
| Preservation.HandOffQuiet | src/heap.rs:485-501 | When the collector finds no work and the busy counter zero, no thread holds work and none is between increment and decrement |
| Safety.CycleKeepsInvariant | src/heap.rs:439-472 | Within a cycle, under any interleaving, no black object and no scanned field of an object in progress points to a white object |
| Safety.CycleSafety | src/heap.rs:503-559 | For any mutators and any interleaving, the sweep frees nothing reachable, along the edges at the sweep, from an object rooted at the scan, even if that root was dropped since |
| RunSafety.SweepIsSafeIff | src/heap.rs:534-548 | A sweep spares everything live exactly when the white rooted objects point only to objects that are marked or rooted |
| RunSafety.RunIsSafeIff | src/heap.rs:520-559 | A run of any number of cycles frees nothing live exactly when each of its sweeps meets that condition |
| RunSafety.CarefulKeepsCovered | src/heap.rs:280-317 | Under the discipline, from scan to sweep, white objects that are rooted or newborn point only to shaded ones, whatever is stored through `set` |
| RunSafety.CarefulRunIsSafe | src/cell.rs:44-59 | A run that follows the discipline is safe |
| RunSafety.NoLiveObjectIsFreed | src/ptr.rs:40-52 | In a run that follows the discipline no step frees an object reachable from a current root, and no edge of a listed object dangles |
| CounterexampleProofs.UnshadedAllocationDangles | src/heap.rs:280-317 | A concrete run from a well-formed idle heap: an object allocated during marking with a pointer to a white object keeps the pointer after its target was freed |
| CounterexampleProofs.RootedWhiteDangles | src/ptr.rs:40-52 | A concrete run: rooting a white object during marking saves it but not what it points to |
| CounterexampleProofs.LateMergeLosesWork | src/heap.rs:485-501 | A concrete run with a disciplined mutator: work merged between the failed steal and the busy test is still queued at the sweep, which frees what it points to although a root reaches it |
| RunSafety.HandlesAreRootCounts | src/gc_box.rs:91-116 | Over every safe run the root count of an object not being allocated equals the number of its handles, and every handle names a listed object with a positive count |
| RootCountProofs.RootCountsByActions | src/ptr.rs:40-141 | Over any run the root count of an object still listed is its count at the start, 1 if it was linked in the run, plus its `root` and `clone` calls, less its drops |
| RootCountProofs.HandlesByActions | src/ptr.rs:40-141 | In a safe run, once it is not being allocated, so is the number of its handles |
| RootCountProofs.FreedStaysFreed | src/heap.rs:541-543 | An object that was freed is in no later state |
| RunSafety.BytesAddUp | src/heap.rs:287-316 | Over every safe run bytes counted plus bytes linked but not yet counted equal the listed sizes, and a sweep subtracts no more than was counted |
| RunSafety.SweepTakesCountedBytes | src/heap.rs:556-558 | The subtraction does not underflow: objects still being allocated have root count 1 and are kept |
| RunSafety.GrayBookkeeping | src/trace.rs:27-78 | Over every safe run each object is enqueued at most once a cycle, each gray object is in exactly one place, and a queued object is listed and not white, and black only if it is a leaf |
| RunSafety.BusyHandshake | src/heap.rs:362-374 | Over every safe run the counter is the number of threads between increment and decrement, and in a Sweeping state all work lists are empty and nobody is shading |
| MarkingWork.WorkIsConserved | src/trace.rs:27-51 | Steal, pop and both kinds of merge neither lose nor duplicate work |
| Promptness.StepKeepsCutOff | src/cell.rs:44-59 | Objects nothing outside points to, unrooted and in no pending store, stay so under mutators that use only live objects |
| Promptness.OutOfSightIsFreed | src/heap.rs:534-548 | From any state of a cycle, what no root, no shaded object and no pending store reaches is freed by that cycle's sweep |
| Promptness.InSightIsInUse | src/heap.rs:534-548 | While all is white, what roots, shaded objects and pending stores reach is what is in use |
| Promptness.InUseIsLive | src/cell.rs:44-59 | With only live objects in pending stores, in use, meaning reachable from a root or a pending store, is the same as live |
| Promptness.DeadAtCycleStartIsFreed | src/heap.rs:503-548 | What is not in use when a cycle starts is freed by its sweep |
| Promptness.DeadIsGoneByTheNextCycle | src/heap.rs:503-548 | An object that is out of use at any moment, in the middle of a cycle say, is gone by the end of the next whole cycle |
| MarkingWork.MarkingIsReachability | src/heap.rs:439-501 | Without mutator steps, for any slicing and any interleaving of collector and assist tracers that has come to its end, black is exactly what roots reach, and exactly the roots and non-leaves among it were enqueued |
| Reachability.ReachIsLeast | src/heap.rs:439-472 | The computed reachable set is the least one that holds the roots and is closed under edges |
| Reachability.PathTo | src/heap.rs:439-472 | Each of its members is the end of a path from a root |
| Reachability.PathStaysInside | src/heap.rs:439-472 | Each path from a root ends in it |
| MarkingWork.MarkingTracesEachOnce | src/heap.rs:439-472 | Such a marking traces each live object that is rooted or not a leaf exactly once |
| MarkingWork.LeafShortcutIsSound | src/trace.rs:60-71 | Blackening leaves at once gives the same final colours as enqueueing and scanning them |
| MarkingWork.MarkingIsBounded | src/heap.rs:494-501 | Objects traced plus objects newly enqueued are bounded by twice the white ones plus the queued ones at the start and two for each allocation; stores add nothing |
| MarkingWork.SweepAfterMarking | src/heap.rs:398-420 | After an undisturbed marking the sweep keeps exactly the live objects |
| HandOffRaceProofs.ZeroBudgetCycle | src/heap.rs:439-442 | With budget zero the sweep keeps the rooted objects, white again, and leaves them all in the gray queue: the heap is well formed iff nothing was rooted, nothing live is lost iff every live object was rooted |
| HandOffRaceProofs.EarlySweepClosedIff | src/heap.rs:494-548 | Whenever Sweeping is stored, no surviving edge dangles iff the white rooted and the gray objects point only to objects the sweep keeps |
| HandOffRaceProofs.EarlySweepSafeIff | src/heap.rs:494-548 | And nothing live is freed iff the live ones among them do |
| HandOffRaceProofs.QueueLeftIff | src/heap.rs:485-501 | With nobody busy the gray objects in question are those left in the shared queue |
| HandOffRaceProofs.SplitHandOffIff | src/heap.rs:485-501 | For the failed steal, the busy test and the store of Sweeping as three operations, with anything other threads do in between |
| HandOffRaceProofs.UndisturbedIsHandOff | src/heap.rs:494-501 | With nothing in between the three are the hand-off step |
| HeapObjects.Tracer.StealFrom | src/trace.rs:32-46 | Moves the last items of the queue, up to the number asked for, in reverse order, and reports whether the queue had any |
| HeapObjects.Tracer.AppendTo | src/trace.rs:27-29 | Hands all items over in order and is left empty |
| HeapObjects.Tracer.PopWork | src/trace.rs:49-51 | Takes the last item, if any |
| HeapObjects.Tracer.Mark | src/trace.rs:60-71 | A leaf turns black, a white object gray and is pushed, any other is left alone |
| HeapObjects.Tracer.MarkHeader | src/trace.rs:73-78 | Only a white object is pushed, and it turns gray |
| HeapObjects.Tracer.HasWork | src/trace.rs:53-55 | Whether the tracer holds any item |
| HeapObjects.Node.MarkWhiteToGray | src/color.rs:68-77 | Succeeds exactly on a white object and turns it gray |
| HeapObjects.Node.Free | src/heap.rs:541-543 | Ends the object's life; only possible while it is alive, and nothing is known of its fields afterwards |
| HeapObjects.Node.SetNext | src/heap.rs:536-536 | Overwrites the `next` cell of an object that is alive |
| HeapObjects.Node.SetFields | src/cell.rs:57-57 | Overwrites the pointers of an object that is alive |
| HeapObjects.Node.constructor | src/gc_box.rs:91-98 | A new object is white, rooted once and in no list |
| HeapObjects.Node.IncRoot | src/gc_box.rs:100-102 | One more root count |
| HeapObjects.Node.DecRoot | src/gc_box.rs:104-106 | One less |
| HeapObjects.Node.MarkBlack | src/color.rs:79-81 | Black from any colour |
| HeapObjects.Node.ResetWhite | src/color.rs:84-86 | White from any colour |
| Collector.Heap.constructor | src/heap.rs:262-278 | An empty valid heap, Idle, with the minimum threshold; the worker is started exactly when the percentage is neither 0 nor the maximum and the interval is not 0 |
| Collector.Heap.StartBackgroundCollection | src/heap.rs:579-588 | Starts the worker exactly under the same option values when none runs |
| Collector.Heap.StopBackgroundCollection | src/heap.rs:590-592 | Stops the worker, and says whether one ran |
| Collector.Heap.StealWork | src/heap.rs:425-428 | One Steal step exactly when the shared queue has any item; eight items move, or all if there are fewer |
| Collector.Heap.MergeWork | src/heap.rs:431-434 | One Merge step |
| Collector.Heap.TakeWork | src/heap.rs:444-446 | One Pop step, unless the local list is empty |
| Collector.Heap.MarkField | src/trace.rs:60-71 | Marking one pointer of the object in progress is one ScanField step |
| Collector.Heap.TraceObject | src/gc_box.rs:61-66 | Tracing an object is a run of field scans, after which all its fields are scanned; a leaf has none |
| Collector.Heap.BlackenObject | src/heap.rs:458-463 | Marking the traced object black is one Blacken step |
| Collector.Heap.ProcessNext | src/heap.rs:444-465 | One turn of the loop: pop, all field scans, blacken; nothing when the local list is empty |
| Collector.Heap.DoMarkWithTracer | src/heap.rs:439-472 | A run of tracer steps that blackens as many objects as it reports, at most the budget, fewer only if the shared queue is empty, and leaves the tracer empty. Terminates, the shared queue shrinking on every `continue` |
| Collector.Heap.MergeLeftovers | src/heap.rs:466-469 | Work left in the tracer goes to the end of the shared queue, none is lost |
| Collector.Heap.DoMarkIncremental | src/heap.rs:477-483 | A slice with a tracer of its own, empty at the end, so dropping it loses nothing; complete exactly when nothing was traced |
| Collector.Heap.YieldOnceIfMarkingBusy | src/heap.rs:485-492 | Yields exactly while some thread is busy |
| Collector.Heap.DoMarkWorkFull | src/heap.rs:494-501 | With nobody busy, runs slices until the hand-off is possible; the productive ones number the objects traced divided by the budget, rounded up; with budget zero nothing is traced |
| Collector.Heap.WalkRoots | src/heap.rs:503-514 | The list walk pushes exactly the white rooted objects, in list order, and turns them gray |
| Collector.Heap.DoMarkRoots | src/heap.rs:503-518 | The walk and the merge are one RootScan step |
| Collector.Heap.SweepList | src/heap.rs:520-554 | In-place unlinking leaves the filtered list, in order and ending, all white; each removed node is freed once, nothing depends on what a freed node holds, and the bytes are the sum of their sizes |
| Collector.Heap.DoSweep | src/heap.rs:520-559 | Stores Sweeping and sweeps in any state of marking, exactly as the step system's sweep would, with the remaining bytes as result; where the hand-off was possible and what is kept is closed it is hand-off and sweep, and the heap is valid again |
| Collector.Heap.TryStartMarking | src/heap.rs:377-386 | Succeeds exactly from Idle and is then the Start step |
| Collector.Heap.TryMarkFull | src/heap.rs:398-413 | From Idle only: exactly the live objects turn black, in ceil(n / budget) productive slices, n being the live objects that are rooted or not leaves; with budget zero only the roots are scanned |
| Collector.Heap.UpdateThreshold | src/heap.rs:319-324 | Replaces the threshold by the computed one, of which Pacing.ThresholdInPlainTerms says what it is |
| Collector.Heap.SweepAndFinish | src/heap.rs:415-420 | Sweeps in any state of marking, returns the remaining bytes and updates the threshold from them |
| Collector.Heap.ForceCollect | src/heap.rs:341-349 | On any graph, cycles included: the list is the old one filtered to what roots reach, same order, objects unchanged and white, the rest freed, queue empty, phase Idle, bytes add up; with budget zero the sweep follows the root scan; nothing happens when a cycle is under way |
| Collector.Heap.Collect | src/heap.rs:351-355 | From Idle collects exactly when the threshold or the limit is on and the bytes exceed the threshold or the limit, which leaves the live part; is then the Collect step of the pacing rule, and otherwise changes nothing |
| Collector.Heap.BytesAreCounted | src/heap.rs:556-558 | The byte count of a valid heap is never negative and at most the listed sizes |
| Collector.Heap.BackgroundCycle | src/heap.rs:614-648 | Collects under the same condition, and a cycle of the worker that runs to its end leaves exactly what a forced collection leaves |
| Collector.Heap.MarkInSlices | src/heap.rs:627-643 | The worker's loop of slices ends with the hand-off possible |
| Collector.Heap.CheckIsMarkingAndIncrementBusy | src/heap.rs:362-370 | Leaves the counter one higher exactly when marking is under way |
| Collector.Heap.DecrementBusyMarking | src/heap.rs:372-374 | Leaves the counter one lower |
| Collector.Heap.EnterAssist | src/heap.rs:282-282 | Increment and phase check are the first two steps of an assist |
| Collector.Heap.LeaveAssist | src/heap.rs:284-284 | The decrement is its last step |
| Collector.Heap.Assist | src/heap.rs:281-285 | A mutator's slice is a run of tracer steps that leaves the thread with no work; while marking it traces the whole assist budget or leaves the shared queue empty |
| Collector.Heap.CompareExchangeHead | src/heap.rs:299-309 | Replaces the head exactly when it is the expected one |
| Collector.Heap.PushFront | src/heap.rs:293-311 | The push loop leaves the new node in front of the list |
| Collector.Heap.Allocate | src/heap.rs:280-317 | After the assist, which uses up its budget or empties the queue, the new object is at the front of the list, white, rooted once, and its bytes are counted; the run is the assist's steps, Link and Count |
| Collector.Heap.WriteBarrier | src/cell.rs:49-54 | Tracing the new value and merging are the shading steps and the merge of the step system |
| Collector.Heap.CellSet | src/cell.rs:44-59 | While marking, every pointer of the new value is shaded before the store; the field range then holds the new value |
| Collector.Heap.Root | src/ptr.rs:40-52 | One more root count and one more handle |
| Collector.Heap.Clone | src/ptr.rs:125-133 | The same, of a handle that is out |
| Collector.Heap.DropHandle | src/ptr.rs:135-141 | One less, from at least one |
| Collector.CycleIsExact | src/heap.rs:341-420 | The whole cycle start, scan, any tracing, hand-off, sweep, as a run of the step system, leaves exactly the live part of the heap |
| Pacing.ThresholdLeavesHeadroom | src/heap.rs:222-243 | Without wrap-around the threshold is at least live plus the percentage of live, and at least the minimum |
| Pacing.ThresholdInPlainTerms | src/heap.rs:222-243 | Where nothing wraps, with n the live bytes and the percentage of them: it becomes n, or the minimum, if n is at least the old one, or shrinking is unrestricted, or n is within the shrink percentage of the old one; otherwise the old one stays |
| Pacing.ThresholdIsBounded | src/heap.rs:222-243 | It never exceeds the largest of the old one, the minimum and n; switched off it is the maximum |
| Pacing.ThresholdLeavesHeadroomIff | src/heap.rs:222-243 | For every old threshold: the promised headroom is left iff nothing wraps around or the threshold that results otherwise, the kept one or the minimum, is large enough |
| Pacing.OverflowGrantsLess | src/heap.rs:226-226 | A concrete case in which the product wraps and the threshold grants less |
| Pacing.ThresholdIsIdempotent | src/heap.rs:222-243 | For the same live bytes a second update changes nothing |
| Pacing.ThresholdIsMonotone | src/heap.rs:222-243 | More live bytes never give a lower threshold, through the hysteresis too |
| Pacing.ThresholdStaysAboveMinimum | src/heap.rs:319-339 | Over any run, wrap-around included, the threshold stays at least the minimum |
| Pacing.CollectsWhenDue | src/heap.rs:326-355 | Every Collect of a run collects exactly when not all is switched off and the bytes exceed the threshold or the limit; afterwards they are within both or are what the collection left |
| Pacing.AmortisedPacing | src/heap.rs:222-355 | With the limit off, the headroom granted by all collections but the last, plus one byte each, is at most the bytes allocated in the whole run |
| Pacing.SecondCollectIsIdle | src/heap.rs:326-339 | Right after a collection another is due exactly when live bytes exceed the limit |
| Pacing.SwitchedOffThresholdStillFires | src/heap.rs:326-339 | Before the first collection a switched-off threshold can still trigger one below the byte limit |
| Pacing.SwitchedOffIff | src/heap.rs:326-339 | It is silent at or below the limit, whatever the bytes, iff the limit is at most the minimum |
| Pacing.SwitchedOffRunsIff | src/heap.rs:262-339 | Some run of a new heap collects at or below the limit iff the minimum is below the limit |
| Pacing.SwitchedOffAfterACollection | src/heap.rs:326-339 | From then on nothing is due until the limit is exceeded |
| AllocListProofs.StepOk | src/heap.rs:293-311 | Load, store of next, compare-exchange and walking steps of any threads keep the list well formed |
| AllocListProofs.SwapSucceedsIff | src/heap.rs:299-309 | A compare-exchange succeeds exactly when no allocation has completed since the load |
| AllocListProofs.ConcurrentAllocation | src/heap.rs:293-311 | In every interleaving, following `next` from the head visits each completed allocation exactly once and then ends |
| AllocListProofs.NoAllocationIsLost | src/heap.rs:293-311 | In every interleaving a node that was begun is in the list or in the hands of exactly one thread, so a thread at rest again has listed its node, whatever contention it met |
| AllocListProofs.PushAlone | src/heap.rs:293-311 | Undisturbed, load, store of next and compare-exchange put the node in front of the list, its next cell holding the old head |
| AllocListProofs.FinishAlone | src/heap.rs:293-311 | Left to itself a thread completes its allocation within five steps, wherever it stands and however stale its load |
| AllocListProofs.WalkSeesListAsOfLoad | src/heap.rs:565-577 | A finished walk has visited exactly the list as of its load of the head |
| AllocListProofs.WalkIsNeverStuck | src/heap.rs:565-577 | A walk always has a next cell to read, and visits no more than that list |
| TraceTypes.NoTraceMeansNoPointers | src/trace.rs:107-238 | A type with `NO_TRACE` has no value that holds a pointer |
| TraceTypes.CanHoldIff | src/trace.rs:107-238 | Whether some value of a type holds a pointer, read off the structure of any type, cells, structs and empty types included |
| TraceTypes.LosesShortcutIff | src/trace.rs:107-238 | Which types have neither `NO_TRACE` nor a value with a pointer, read off their structure |
| TraceTypes.NoTraceIff | src/trace.rs:107-238 | For every type: `NO_TRACE` iff no value holds a pointer and the type does not lose the shortcut |
| TraceTypes.CellsMissTheShortcut | src/cell.rs:68-74 | A cell is always traced, for nothing exactly when its content cannot hold a pointer |
| TraceTypes.OccurringIsHeld | src/trace.rs:151-238 | The pointers tracing comes to are exactly those held by the parts of the value: by an item at some index, by a key or a value of an entry, by a field |
| TraceTypes.ItemsInOrder | src/trace.rs:170-190 | It comes to them item by item |
| TraceTypes.EntriesInOrder | src/trace.rs:192-211 | And in a map to the key before its value |
| TraceTypes.TraceValue | src/trace.rs:151-238 | Tracing a value marks exactly the pointers its parts hold: leaves turn black, white non-leaves turn gray and are enqueued, each once and nothing else, in order of first occurrence, and no other node changes |
| TraceTypes.VtableTrace | src/gc_box.rs:61-66 | With the no-op for `NO_TRACE` types, too |
| Worker.StartStopJoinHandle.Start | src/heap.rs:40-50 | Starts only when nothing runs, with a new token |
| Worker.StartStopJoinHandle.Stop | src/heap.rs:52-64 | Takes the running thread's handle, if any |
| Worker.OnlyNewestIsLive | src/heap.rs:40-83 | Over any starts and stops a token is live exactly if it is the newest and its thread has not been stopped |
| Worker.StoppedStaysStopped | src/heap.rs:75-78 | Once `is_stopped` is true for a token it stays true, through any restarts |
| Worker.LiveUntilStop | src/heap.rs:40-64 | A running worker is left alone by starts and stopped for good by a stop |

## Left out

- Weak memory orderings, spinning and yielding: each atomic operation is one step.
- Stopping the background thread in the middle of marking (src/heap.rs:628-631): it returns to Idle with stale colours and
  queue entries, so an idle heap is then not all white. Only cycles that run to their end are modelled.
- Sweeping concurrently with allocation or stores: the plain store at the head (src/heap.rs:536) can drop a concurrent push.
  The sweep is exclusive, and `AllocList.dfy` has no sweep.
- `set` or an assist between the end of marking and the sweep, as a unit test does (src/cell.rs:110-126): the hand-off guard
  excludes it.
- Interleaving inside the methods of `Heap`: each runs undisturbed. Interleavings are covered by the step system.
- Collector.Heap.DoMarkWorkFull: starts with no thread in a busy section, because undisturbed its loop would otherwise never
  end; waiting for assisting threads is in the step system only.
- Collector.Heap.MarkInSlices: as DoMarkWorkFull, and without the stop test of the worker's loop.
- Collector.Heap.TryMarkFull: starts, when the heap is Idle, with no thread in a busy section, for the same reason.
- Collector.Heap.ForceCollect: as TryMarkFull.
- Collector.Heap.Collect: as TryMarkFull, when a collection is due.
- Collector.Heap.BackgroundCycle: as Collect, and without a stop request during marking.
- Collector.Heap.Allocate: its push loop is undisturbed; retries of the compare-exchange are in `AllocList.dfy`.
- Pacing.AmortisedPacing: sequential runs with no wrap-around only; bytes allocated while a cycle is under way are not split.
- RunSafety.NoLiveObjectIsFreed: holds under the discipline; `RunSafety.RunIsSafeIff` is the condition without it.
- Wrap-around of byte counts, root counts, the busy counter and generations.
- Thread-local contexts (src/gc.rs), the silent skip of the barrier without one.
- Raw pointers, allocation and layout, vtable casts, data races on `UnsafeCell`, `Send` and `Sync`: object references and the
  flag `alive` stand in for them. Dropping the whole heap (src/heap.rs:595-611).
- `Trace` and `Drop` code of users: a struct's trace is assumed to hand over its fields; in `TraceTypes.dfy` a pointer's
  target type is seen only as the target's leaf flag, so recursive types need no special case.
- Timers, condition variables, spawning and joining, `Arc`, examples and benches, getters and the decoding of colours and
  phases.
