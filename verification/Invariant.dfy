/** What every action keeps. */
module Invariant {
  import opened Protocol

  ghost predicate NoDuplicates<O>(list: seq<O>) {
    forall i, j | 0 <= i < j < |list| :: list[i] != list[j]
  }

  /** The list holds each object once, and no edge leaves the heap. */
  ghost predicate ShapeOk<O>(heap: map<O, Object<O>>, list: seq<O>, ever: set<O>) {
    && NoDuplicates(list)
    && (forall o | o in list :: o in heap)
    && (forall o | o in heap :: o in list)
    && heap.Keys <= ever
    && (forall o | o in heap :: Listed(heap, heap[o].fields))
    && (forall o | o in heap && heap[o].leaf :: heap[o].fields == [])
  }

  ghost predicate IsCollector<O>(pc: Pc<O>) {
    pc.Starting? || pc.Collecting? || pc.Finishing?
  }

  ghost predicate PcOk<O>(heap: map<O, Object<O>>, phase: Phase, scanned: bool, pc: Pc<O>) {
    match pc
    case Ready => true
    case Starting => phase == Marking && !scanned
    case Collecting => phase == Marking && scanned
    case Finishing => phase == Sweeping && scanned
    case AssistEntered => phase != Sweeping
    case Assisting => phase == Marking
    case SetEntered(o, at, vals) => phase != Sweeping && CanStore(heap, o, at, vals) && Listed(heap, vals)
    case SetShading(o, at, vals, done) =>
      && phase == Marking && CanStore(heap, o, at, vals) && Listed(heap, vals)
      && done <= |vals| && Shaded(heap, vals[..done])
    case SetMerged(o, at, vals) => phase == Marking && CanStore(heap, o, at, vals) && Shaded(heap, vals)
    case Counting(o, size) => o in heap && heap[o].size == size
  }

  /** Only a tracing thread holds an object in progress; the fields it has passed are shaded. */
  ghost predicate WorkOk<O>(heap: map<O, Object<O>>, th: Thread<O>) {
    && (th.local != [] ==> th.pc.Collecting? || th.pc.Assisting? || th.pc.SetShading?)
    && (th.current.Some? ==>
          && (th.pc.Collecting? || th.pc.Assisting?)
          && var c := th.current.value;
             c.o in heap && c.k <= |heap[c.o].fields| && Shaded(heap, heap[c.o].fields[..c.k]))
  }

  ghost predicate ThreadsOk<O>(heap: map<O, Object<O>>, phase: Phase, scanned: bool, threads: seq<Thread<O>>) {
    forall i | 0 <= i < |threads| :: PcOk(heap, phase, scanned, threads[i].pc) && WorkOk(heap, threads[i])
  }

  /** One collector at a time, and none while the phase is Idle. */
  ghost predicate CollectorOk<O>(threads: seq<Thread<O>>, phase: Phase, scanned: bool, collector: nat) {
    && (forall i | 0 <= i < |threads| :: IsCollector(threads[i].pc) ==> phase != Idle && i == collector)
    && (phase != Idle ==> collector < |threads| && IsCollector(threads[collector].pc))
    && (phase == Idle ==> !scanned)
    && (phase == Sweeping ==> scanned)
  }

  ghost predicate BusyOk<O>(threads: seq<Thread<O>>, busy: int) {
    busy == BusyThreads(threads)
  }

  /** Every gray object is in exactly one work list, and was put there once in this cycle. */
  ghost predicate QueueOk<O>(heap: map<O, Object<O>>, queued: multiset<O>, enqueued: multiset<O>, phase: Phase) {
    && queued <= enqueued
    && (forall o | o in enqueued :: enqueued[o] == 1 && o in heap && heap[o].color != White)
    && (forall o | o in heap && heap[o].color == Gray :: o in queued)
    && (forall o | o in queued && o in heap && heap[o].color == Black :: heap[o].leaf)
    && (forall o | o in heap && heap[o].color != White && !heap[o].leaf :: o in enqueued)
    && (phase != Marking ==> queued == multiset{})
  }

  /** No black object points to a white one; between cycles everything is white. */
  ghost predicate ColorsOk<O>(heap: map<O, Object<O>>, scanRoots: set<O>, phase: Phase) {
    && (forall o | o in heap && heap[o].color == Black :: Shaded(heap, heap[o].fields))
    && (forall o | o in scanRoots :: o in heap && heap[o].color != White)
    && (phase == Idle ==> forall o | o in heap :: heap[o].color == White)
  }

  /** Root counts are the handles that are out, plus one for each unfinished allocation. */
  ghost predicate RootsOk<O>(heap: map<O, Object<O>>, handles: multiset<O>, births: multiset<O>) {
    && (forall o | o in heap :: heap[o].roots == handles[o] + births[o])
    && (forall o | o in handles :: o in heap)
    && (forall o | o in births :: o in heap && births[o] == 1)
  }

  /** Bytes counted and uncounted add up to what is listed. */
  ghost predicate BytesOk<O>(heap: map<O, Object<O>>, list: seq<O>, bytes: int, threads: seq<Thread<O>>) {
    && (forall o | o in list :: o in heap)
    && bytes + Uncounted(threads) == SumSizes(list, heap)
  }

  ghost predicate Inv<O>(s: State<O>) {
    && ShapeOk(s.heap, s.list, s.ever)
    && ThreadsOk(s.heap, s.phase, s.scanned, s.threads)
    && CollectorOk(s.threads, s.phase, s.scanned, s.collector)
    && BusyOk(s.threads, s.busy)
    && QueueOk(s.heap, Queued(s), s.enqueued, s.phase)
    && ColorsOk(s.heap, s.scanRoots, s.phase)
    && RootsOk(s.heap, s.handles, Births(s.threads))
    && BytesOk(s.heap, s.list, s.bytes, s.threads)
  }
}
