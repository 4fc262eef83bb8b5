/**
 * The collector as a step system. Objects, their colours, the shared gray queue, one work list
 * per thread, the busy counter and the phase are the state; every atomic operation of a
 * collector or of a mutator is an action. An object identity of type O is never reused.
 */
module Protocol {
  import opened Reachability

  datatype Option<T> = None | Some(value: T)

  datatype Color = White | Gray | Black

  datatype Phase = Idle | Marking | Sweeping

  /** A header with its payload. `leaf` is NO_TRACE; a slot of `fields` may hold no pointer. */
  datatype Object<O> = Object(color: Color, roots: int, leaf: bool, size: nat, fields: seq<Option<O>>)

  /** What a thread is doing between two of its atomic operations. */
  datatype Pc<O> =
    | Ready
    | Starting                                                     // phase is Marking, roots not scanned
    | Collecting
    | Finishing                                                    // phase is Sweeping
    | AssistEntered
    | Assisting
    | SetEntered(o: O, at: nat, vals: seq<Option<O>>)
    | SetShading(o: O, at: nat, vals: seq<Option<O>>, done: nat)
    | SetMerged(o: O, at: nat, vals: seq<Option<O>>)
    | Counting(o: O, size: nat)                                    // linked, bytes not yet counted

  /** The object being traced and how many of its fields have been handed to the tracer. */
  datatype Scan<O> = Scan(o: O, k: nat)

  datatype Thread<O> = Thread(pc: Pc<O>, local: seq<O>, current: Option<Scan<O>>)

  /**
   * `scanned`, `collector`, `scanRoots`, `newborn`, `enqueued`, `handles` and `ever` record history:
   * whether the roots of this cycle have been scanned and by which thread, which objects were rooted
   * then, which were linked since, what was enqueued in this cycle, which GcRoot handles are out, and
   * every identity ever linked.
   */
  datatype State<O> = State(
    heap: map<O, Object<O>>,
    list: seq<O>,
    shared: seq<O>,
    threads: seq<Thread<O>>,
    busy: int,
    phase: Phase,
    bytes: int,
    scanned: bool,
    collector: nat,
    scanRoots: set<O>,
    newborn: set<O>,
    enqueued: multiset<O>,
    handles: multiset<O>,
    ever: set<O>)

  const BATCH_SIZE: nat := 8

  datatype Action<O> =
    // Collector
    | Start(t: nat)
    | RootScan(t: nat)
    | HandOff(t: nat)
    | Sweep(t: nat)
    // Tracing, by the collector or by an assisting mutator
    | Steal(t: nat)
    | Pop(t: nat)
    | ScanField(t: nat)
    | Blacken(t: nat)
    | Merge(t: nat)
    // Mutator assist
    | AssistEnter(t: nat)
    | AssistCheck(t: nat)
    | AssistLeave(t: nat)
    // GcCell::set
    | SetEnter(t: nat, o: O, at: nat, vals: seq<Option<O>>)
    | SetCheck(t: nat)
    | SetShade(t: nat)
    | SetMerge(t: nat)
    | SetLeave(t: nat)
    // Allocation and handles
    | Link(t: nat, o: O, leaf: bool, size: nat, fields: seq<Option<O>>)
    | Count(t: nat)
    | Root(o: O)
    | Clone(o: O)
    | Drop(o: O)

  // ----- Object graph -----

  ghost predicate Listed<O>(heap: map<O, Object<O>>, fs: seq<Option<O>>) {
    forall i | 0 <= i < |fs| && fs[i].Some? :: fs[i].value in heap
  }

  /** Every pointer in `fs` is to a listed object that is gray or black. */
  ghost predicate Shaded<O>(heap: map<O, Object<O>>, fs: seq<Option<O>>) {
    forall i | 0 <= i < |fs| && fs[i].Some? :: fs[i].value in heap && heap[fs[i].value].color != White
  }

  ghost function Pointers<O>(fs: seq<Option<O>>): set<O> {
    set f | f in fs && f.Some? :: f.value
  }

  ghost function Graph<O>(heap: map<O, Object<O>>): map<O, set<O>> {
    map o | o in heap :: Pointers(heap[o].fields)
  }

  ghost function Rooted<O>(heap: map<O, Object<O>>): set<O> {
    set o | o in heap && heap[o].roots > 0
  }

  /** Everything a mutator can still get at from a GcRoot. */
  ghost function Live<O>(heap: map<O, Object<O>>): set<O> {
    Reach(Graph(heap), Rooted(heap))
  }

  /** GcHeader::is_white: what the sweep takes. */
  ghost predicate Collectable<O>(obj: Object<O>) {
    obj.color == White && obj.roots <= 0
  }

  // ----- Folds over lists -----

  ghost function SumSizes<O>(list: seq<O>, heap: map<O, Object<O>>): (n: nat)
    requires forall o | o in list :: o in heap
  {
    if list == [] then 0 else heap[list[0]].size + SumSizes(list[1..], heap)
  }

  ghost function Filter<O>(list: seq<O>, keep: set<O>): (r: seq<O>)
    ensures forall o | o in r :: o in list && o in keep
    ensures forall o | o in list && o in keep :: o in r
  {
    if list == [] then [] else (if list[0] in keep then [list[0]] else []) + Filter(list[1..], keep)
  }

  ghost function Reverse<O>(s: seq<O>): (r: seq<O>)
    ensures |r| == |s| && multiset(r) == multiset(s)
  {
    if s == [] then [] else
      assert s == [s[0]] + s[1..];
      Reverse(s[1..]) + [s[0]]
  }

  /** Work items a thread holds: its local queue and the object it is tracing. */
  ghost function HeldBy<O>(th: Thread<O>): multiset<O> {
    multiset(th.local) + (if th.current.Some? then multiset{th.current.value.o} else multiset{})
  }

  ghost function Held<O>(threads: seq<Thread<O>>): multiset<O> {
    if threads == [] then multiset{} else HeldBy(threads[0]) + Held(threads[1..])
  }

  ghost function Queued<O>(s: State<O>): multiset<O> {
    multiset(s.shared) + Held(s.threads)
  }

  /** Between the increment of the busy counter and its decrement. */
  ghost predicate InBusySection<O>(th: Thread<O>) {
    th.pc.AssistEntered? || th.pc.Assisting? || th.pc.SetEntered? || th.pc.SetShading? || th.pc.SetMerged?
  }

  ghost function BusyBy<O>(th: Thread<O>): nat {
    if InBusySection(th) then 1 else 0
  }

  ghost function BusyThreads<O>(threads: seq<Thread<O>>): nat {
    if threads == [] then 0 else BusyBy(threads[0]) + BusyThreads(threads[1..])
  }

  /** The object a thread has linked without having counted its bytes. */
  ghost function BirthBy<O>(th: Thread<O>): multiset<O> {
    if th.pc.Counting? then multiset{th.pc.o} else multiset{}
  }

  ghost function Births<O>(threads: seq<Thread<O>>): multiset<O> {
    if threads == [] then multiset{} else BirthBy(threads[0]) + Births(threads[1..])
  }

  ghost function UncountedBy<O>(th: Thread<O>): nat {
    if th.pc.Counting? then th.pc.size else 0
  }

  ghost function Uncounted<O>(threads: seq<Thread<O>>): nat {
    if threads == [] then 0 else UncountedBy(threads[0]) + Uncounted(threads[1..])
  }

  // ----- Actions -----

  ghost predicate Is<O>(s: State<O>, t: nat, pc: Pc<O>) {
    t < |s.threads| && s.threads[t].pc == pc
  }

  ghost predicate Tracing<O>(s: State<O>, t: nat) {
    t < |s.threads| && (s.threads[t].pc.Collecting? || s.threads[t].pc.Assisting?)
  }

  ghost predicate Resting<O>(s: State<O>, t: nat) {
    t < |s.threads| && s.threads[t].current.None? && s.threads[t].local == []
  }

  ghost predicate HasCurrent<O>(s: State<O>, t: nat) {
    t < |s.threads| && s.threads[t].current.Some? && s.threads[t].current.value.o in s.heap
  }

  ghost predicate CanStore<O>(heap: map<O, Object<O>>, o: O, at: nat, vals: seq<Option<O>>) {
    o in heap && at + |vals| <= |heap[o].fields|
  }

  ghost predicate Enabled<O>(s: State<O>, a: Action<O>) {
    match a
    case Start(t) => Is(s, t, Ready) && s.phase == Idle
    case RootScan(t) => Is(s, t, Starting) && forall o | o in s.list :: o in s.heap
    // One step: the failed steal, the busy test and the store of Sweeping.
    case HandOff(t) => Is(s, t, Collecting) && Resting(s, t) && s.shared == [] && s.busy == 0
    case Sweep(t) => Is(s, t, Finishing) && forall o | o in s.list :: o in s.heap
    case Steal(t) => Tracing(s, t) && Resting(s, t) && s.shared != []
    case Pop(t) => Tracing(s, t) && s.threads[t].current.None? && s.threads[t].local != []
    case ScanField(t) =>
      && Tracing(s, t) && HasCurrent(s, t)
      && var c := s.threads[t].current.value; c.k < |s.heap[c.o].fields|
    case Blacken(t) =>
      && Tracing(s, t) && HasCurrent(s, t)
      && var c := s.threads[t].current.value; c.k == |s.heap[c.o].fields|
    case Merge(t) => Tracing(s, t) && s.threads[t].current.None?
    case AssistEnter(t) => Is(s, t, Ready) && s.phase != Sweeping
    case AssistCheck(t) => Is(s, t, AssistEntered)
    case AssistLeave(t) => Is(s, t, Assisting) && Resting(s, t)
    case SetEnter(t, o, at, vals) =>
      Is(s, t, Ready) && s.phase != Sweeping && CanStore(s.heap, o, at, vals) && Listed(s.heap, vals)
    case SetCheck(t) =>
      && t < |s.threads| && s.threads[t].pc.SetEntered?
      && CanStore(s.heap, s.threads[t].pc.o, s.threads[t].pc.at, s.threads[t].pc.vals)
    case SetShade(t) =>
      t < |s.threads| && s.threads[t].pc.SetShading? && s.threads[t].pc.done < |s.threads[t].pc.vals|
    case SetMerge(t) =>
      t < |s.threads| && s.threads[t].pc.SetShading? && s.threads[t].pc.done == |s.threads[t].pc.vals|
    case SetLeave(t) =>
      && t < |s.threads| && s.threads[t].pc.SetMerged?
      && CanStore(s.heap, s.threads[t].pc.o, s.threads[t].pc.at, s.threads[t].pc.vals)
    case Link(t, o, leaf, size, fields) =>
      && Is(s, t, Ready) && s.phase != Sweeping && o !in s.ever
      && Listed(s.heap, fields) && (leaf ==> fields == [])
    case Count(t) => t < |s.threads| && s.threads[t].pc.Counting?
    case Root(o) => s.phase != Sweeping && o in s.heap
    case Clone(o) => s.phase != Sweeping && o in s.heap && o in s.handles
    case Drop(o) => s.phase != Sweeping && o in s.heap && o in s.handles
  }

  ghost function WithThread<O>(s: State<O>, t: nat, th: Thread<O>): State<O>
    requires t < |s.threads|
  {
    s.(threads := s.threads[t := th])
  }

  ghost function WithPc<O>(s: State<O>, t: nat, pc: Pc<O>): State<O>
    requires t < |s.threads|
  {
    WithThread(s, t, s.threads[t].(pc := pc))
  }

  /** Tracer::mark: a leaf turns black at once, a white object turns gray and is enqueued. */
  ghost function Shade<O>(s: State<O>, t: nat, f: Option<O>): State<O>
    requires t < |s.threads|
  {
    if f.None? || f.value !in s.heap then s
    else if s.heap[f.value].leaf then
      s.(heap := s.heap[f.value := s.heap[f.value].(color := Black)])
    else if s.heap[f.value].color == White then
      WithThread(s, t, s.threads[t].(local := s.threads[t].local + [f.value]))
      .(heap := s.heap[f.value := s.heap[f.value].(color := Gray)], enqueued := s.enqueued + multiset{f.value})
    else s
  }

  ghost function Store<O>(heap: map<O, Object<O>>, o: O, at: nat, vals: seq<Option<O>>): map<O, Object<O>>
    requires o in heap && at + |vals| <= |heap[o].fields|
  {
    var fs := heap[o].fields;
    heap[o := heap[o].(fields := fs[..at] + vals + fs[at + |vals|..])]
  }

  /** The white rooted objects, which mark_header turns gray and enqueues. */
  ghost function Unmarked<O>(heap: map<O, Object<O>>): set<O> {
    set o | o in heap && heap[o].roots > 0 && heap[o].color == White
  }

  ghost function GrayRoots<O>(heap: map<O, Object<O>>): map<O, Object<O>> {
    map o | o in heap :: if o in Unmarked(heap) then heap[o].(color := Gray) else heap[o]
  }

  ghost function DoRootScan<O>(s: State<O>, t: nat): State<O>
    requires t < |s.threads|
  {
    var found := Filter(s.list, Unmarked(s.heap));
    WithPc(s, t, Collecting).(
      heap := GrayRoots(s.heap),
      shared := s.shared + found,
      enqueued := s.enqueued + multiset(found),
      scanned := true,
      scanRoots := Rooted(s.heap),
      newborn := {})
  }

  ghost function DoSteal<O>(s: State<O>, t: nat): State<O>
    requires t < |s.threads|
  {
    var rest := |s.shared| - if |s.shared| < BATCH_SIZE then |s.shared| else BATCH_SIZE;
    WithThread(s, t, s.threads[t].(local := Reverse(s.shared[rest..]))).(shared := s.shared[..rest])
  }

  ghost function DoMerge<O>(s: State<O>, t: nat): State<O>
    requires t < |s.threads|
  {
    WithThread(s, t, s.threads[t].(local := [])).(shared := s.shared + s.threads[t].local)
  }

  /** The objects the sweep keeps. */
  ghost function Survivors<O>(heap: map<O, Object<O>>): set<O> {
    set o | o in heap && !Collectable(heap[o])
  }

  ghost function DoSweep<O>(s: State<O>, t: nat): State<O>
    requires t < |s.threads|
    requires forall o | o in s.list :: o in s.heap
  {
    var freed := s.heap.Keys - Survivors(s.heap);
    WithPc(s, t, Ready).(
      heap := map o | o in s.heap && o !in freed :: s.heap[o].(color := White),
      list := Filter(s.list, Survivors(s.heap)),
      bytes := s.bytes - SumSizes(Filter(s.list, freed), s.heap),
      phase := Idle,
      scanned := false,
      scanRoots := {},
      newborn := {},
      enqueued := multiset{})
  }

  ghost function AddRoots<O>(s: State<O>, o: O, n: int): State<O>
    requires o in s.heap
  {
    s.(heap := s.heap[o := s.heap[o].(roots := s.heap[o].roots + n)])
  }

  ghost function DoLink<O>(s: State<O>, t: nat, o: O, obj: Object<O>): State<O>
    requires t < |s.threads|
  {
    WithPc(s, t, Counting(o, obj.size)).(
      heap := s.heap[o := obj],
      list := [o] + s.list,
      newborn := s.newborn + {o},
      ever := s.ever + {o})
  }

  ghost function DoPop<O>(s: State<O>, t: nat): State<O>
    requires t < |s.threads| && s.threads[t].local != []
  {
    var th := s.threads[t];
    var last := |th.local| - 1;
    WithThread(s, t, th.(local := th.local[..last], current := Some(Scan(th.local[last], 0))))
  }

  ghost function DoScanField<O>(s: State<O>, t: nat): State<O>
    requires HasCurrent(s, t)
    requires s.threads[t].current.value.k < |s.heap[s.threads[t].current.value.o].fields|
  {
    var c := s.threads[t].current.value;
    var shaded := Shade(s, t, s.heap[c.o].fields[c.k]);
    WithThread(shaded, t, shaded.threads[t].(current := Some(Scan(c.o, c.k + 1))))
  }

  ghost function DoBlacken<O>(s: State<O>, t: nat): State<O>
    requires HasCurrent(s, t)
  {
    var o := s.threads[t].current.value.o;
    WithThread(s, t, s.threads[t].(current := None)).(heap := s.heap[o := s.heap[o].(color := Black)])
  }

  ghost function DoAssistCheck<O>(s: State<O>, t: nat): State<O>
    requires t < |s.threads|
  {
    if s.phase == Marking then WithPc(s, t, Assisting) else WithPc(s, t, Ready).(busy := s.busy - 1)
  }

  /** The store of GcCell::set, in one step with leaving the busy section. */
  ghost function DoStore<O>(s: State<O>, t: nat, o: O, at: nat, vals: seq<Option<O>>): State<O>
    requires t < |s.threads| && CanStore(s.heap, o, at, vals)
  {
    WithPc(s, t, Ready).(busy := s.busy - 1, heap := Store(s.heap, o, at, vals))
  }

  ghost function DoSetCheck<O>(s: State<O>, t: nat): State<O>
    requires t < |s.threads| && s.threads[t].pc.SetEntered?
    requires CanStore(s.heap, s.threads[t].pc.o, s.threads[t].pc.at, s.threads[t].pc.vals)
  {
    var pc := s.threads[t].pc;
    if s.phase == Marking then WithPc(s, t, SetShading(pc.o, pc.at, pc.vals, 0))
    else DoStore(s, t, pc.o, pc.at, pc.vals)
  }

  ghost function DoSetShade<O>(s: State<O>, t: nat): State<O>
    requires t < |s.threads| && s.threads[t].pc.SetShading? && s.threads[t].pc.done < |s.threads[t].pc.vals|
  {
    var pc := s.threads[t].pc;
    WithPc(Shade(s, t, pc.vals[pc.done]), t, pc.(done := pc.done + 1))
  }

  ghost function DoSetMerge<O>(s: State<O>, t: nat): State<O>
    requires t < |s.threads| && s.threads[t].pc.SetShading?
  {
    var pc := s.threads[t].pc;
    WithPc(DoMerge(s, t), t, SetMerged(pc.o, pc.at, pc.vals))
  }

  ghost function DoSetLeave<O>(s: State<O>, t: nat): State<O>
    requires t < |s.threads| && s.threads[t].pc.SetMerged?
    requires CanStore(s.heap, s.threads[t].pc.o, s.threads[t].pc.at, s.threads[t].pc.vals)
  {
    var pc := s.threads[t].pc;
    DoStore(s, t, pc.o, pc.at, pc.vals)
  }

  ghost function DoCount<O>(s: State<O>, t: nat): State<O>
    requires t < |s.threads| && s.threads[t].pc.Counting?
  {
    var pc := s.threads[t].pc;
    WithPc(s, t, Ready).(bytes := s.bytes + pc.size, handles := s.handles + multiset{pc.o})
  }

  ghost function Do<O>(s: State<O>, a: Action<O>): State<O>
    requires Enabled(s, a)
  {
    match a
    case Start(t) => WithPc(s, t, Starting).(phase := Marking, collector := t)
    case RootScan(t) => DoRootScan(s, t)
    case HandOff(t) => WithPc(s, t, Finishing).(phase := Sweeping)
    case Sweep(t) => DoSweep(s, t)
    case Steal(t) => DoSteal(s, t)
    case Pop(t) => DoPop(s, t)
    case ScanField(t) => DoScanField(s, t)
    case Blacken(t) => DoBlacken(s, t)
    case Merge(t) => DoMerge(s, t)
    case AssistEnter(t) => WithPc(s, t, AssistEntered).(busy := s.busy + 1)
    case AssistCheck(t) => DoAssistCheck(s, t)
    case AssistLeave(t) => WithPc(s, t, Ready).(busy := s.busy - 1)
    case SetEnter(t, o, at, vals) => WithPc(s, t, SetEntered(o, at, vals)).(busy := s.busy + 1)
    case SetCheck(t) => DoSetCheck(s, t)
    case SetShade(t) => DoSetShade(s, t)
    case SetMerge(t) => DoSetMerge(s, t)
    case SetLeave(t) => DoSetLeave(s, t)
    case Link(t, o, leaf, size, fields) => DoLink(s, t, o, Object(White, 1, leaf, size, fields))
    case Count(t) => DoCount(s, t)
    case Root(o) => AddRoots(s, o, 1).(handles := s.handles + multiset{o})
    case Clone(o) => AddRoots(s, o, 1).(handles := s.handles + multiset{o})
    case Drop(o) => AddRoots(s, o, -1).(handles := s.handles - multiset{o})
  }

  // ----- Runs -----

  ghost predicate Runs<O>(s: State<O>, acts: seq<Action<O>>)
    decreases |acts|
  {
    acts != [] ==> Enabled(s, acts[0]) && Runs(Do(s, acts[0]), acts[1..])
  }

  ghost function Exec<O>(s: State<O>, acts: seq<Action<O>>): State<O>
    requires Runs(s, acts)
    decreases |acts|
  {
    if acts == [] then s else Exec(Do(s, acts[0]), acts[1..])
  }

  lemma {:induction false} RunsConcat<O>(s: State<O>, a: seq<Action<O>>, b: seq<Action<O>>)
    requires Runs(s, a) && Runs(Exec(s, a), b)
    ensures Runs(s, a + b) && Exec(s, a + b) == Exec(Exec(s, a), b)
    decreases |a|
  {
    if a == [] {
      assert a + b == b;
    } else {
      assert (a + b)[1..] == a[1..] + b;
      RunsConcat(Do(s, a[0]), a[1..], b);
    }
  }
}
