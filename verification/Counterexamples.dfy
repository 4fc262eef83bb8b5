/**
 * Why the discipline is needed: two runs, from one well-formed idle heap, in which mutators use only
 * reachable objects and a sweep still frees an object that is reachable from a root.
 */
module Counterexamples {
  import opened Reachability
  import opened Protocol
  import opened Invariant
  import opened Promptness

  /** Object 2 is rooted and points to 1, which points to the leaf 4. Thread 0 will collect, thread 1 mutates. */
  ghost function IdleHeap(): State<nat> {
    State(
      map[1 := Object(White, 0, false, 1, [Some(4)]),
          2 := Object(White, 1, false, 1, [Some(1)]),
          4 := Object(White, 0, true, 1, [])],
      [2, 1, 4], [], [Thread(Ready, [], None), Thread(Ready, [], None)], 0, Idle, 3,
      false, 0, {}, {}, multiset{}, multiset{2}, {1, 2, 4})
  }

  /** The collector starts and scans the roots. */
  ghost function RootsScanned(): seq<Action<nat>> {
    [Start(0), RootScan(0)]
  }

  /** The mutator clears the field of 2. */
  ghost function FieldCleared(): seq<Action<nat>> {
    [SetEnter(1, 2, 0, [None]), SetCheck(1), SetShade(1), SetMerge(1), SetLeave(1)]
  }

  /** The collector traces 2 and hands off to the sweep. */
  ghost function RootTraced(): seq<Action<nat>> {
    [Steal(0), Pop(0), ScanField(0), Blacken(0), HandOff(0)]
  }

  /** The mutator allocates 3 with a pointer to 1, read from 2. */
  ghost function Allocated(): seq<Action<nat>> {
    [Link(1, 3, false, 1, [Some(1)]), Count(1)]
  }

  ghost predicate StepTo<O>(s: State<O>, a: Action<O>, s': State<O>) {
    Enabled(s, a) && FromLive(s, a) && Do(s, a) == s'
  }

  /** Thread 1 is in the middle of its store. */
  ghost function Storing(m: State<nat>, pc: Pc<nat>): State<nat>
    requires |m.threads| == 2
  {
    m.(threads := m.threads[1 := Thread(pc, [], None)], busy := m.busy + 1)
  }

  /** Thread 0 is in the middle of its tracing. */
  ghost function Tracing0(m: State<nat>, local: seq<nat>, current: Option<Scan<nat>>): State<nat>
    requires |m.threads| == 2
  {
    m.(threads := m.threads[0 := Thread(Collecting, local, current)], shared := [])
  }

  /** Right after the scan. */
  ghost function AfterScan(): State<nat> {
    var s := IdleHeap();
    s.(heap := s.heap[2 := Object(Gray, 1, false, 1, [Some(1)])], shared := [2],
       threads := [Thread(Collecting, [], None), Thread(Ready, [], None)], phase := Marking,
       scanned := true, scanRoots := {2}, enqueued := multiset{2})
  }

  ghost function AfterClear(m: State<nat>): State<nat>
    requires 2 in m.heap
  {
    m.(heap := m.heap[2 := m.heap[2].(fields := [None])])
  }

  ghost function AfterTrace(m: State<nat>): State<nat>
    requires 2 in m.heap && |m.threads| > 0
  {
    m.(heap := m.heap[2 := m.heap[2].(color := Black)], shared := [], phase := Sweeping,
       threads := m.threads[0 := Thread(Finishing, [], None)])
  }

  // ----- Work that comes back too late -----

  /** Thread 1, about to allocate, starts to assist and takes object 2 from the shared queue. */
  ghost function AssistBegun(): seq<Action<nat>> {
    [AssistEnter(1), AssistCheck(1), Steal(1)]
  }

  /** It traces 2, which turns 1 gray, merges 1 into the shared queue and is no longer busy. Its budget was one object. */
  ghost function AssistEnded(): seq<Action<nat>> {
    [Pop(1), ScanField(1), Blacken(1), Merge(1), AssistLeave(1)]
  }

  /** Thread 1 is in the middle of its assist. */
  ghost function Assisted(h: map<nat, Object<nat>>, th: Thread<nat>, shared: seq<nat>, busy: int, enqueued: multiset<nat>): State<nat> {
    AfterScan().(heap := h, threads := [Thread(Collecting, [], None), th], shared := shared, busy := busy, enqueued := enqueued)
  }

  ghost function OneGray(): map<nat, Object<nat>> {
    AfterScan().heap[1 := Object(Gray, 0, false, 1, [Some(4)])]
  }

  ghost function TwoBlack(): map<nat, Object<nat>> {
    OneGray()[2 := Object(Black, 1, false, 1, [Some(1)])]
  }

  /** The collector's steal fails here. */
  ghost function StealFails(): State<nat> {
    Assisted(AfterScan().heap, Thread(Assisting, [2], None), [], 1, multiset{2})
  }

  /** And here it finds nobody busy. */
  ghost function NobodyIsBusy(): State<nat> {
    Assisted(TwoBlack(), Thread(Ready, [], None), [1], 0, multiset{2, 1})
  }
}


module CounterexampleProofs {
  import opened Reachability
  import opened Protocol
  import opened Invariant
  import opened Preservation
  import opened Safety
  import opened RunSafety
  import opened Promptness
  import opened MarkingWork
  import opened HandOffRace
  import opened HandOffRaceProofs
  import opened Counterexamples

  /** One more action at the front of a run. */
  lemma Cons<O>(s: State<O>, a: Action<O>, s': State<O>, rest: seq<Action<O>>)
    requires StepTo(s, a, s') && Runs(s', rest) && FromLiveRun(s', rest)
    ensures Runs(s, [a] + rest) && FromLiveRun(s, [a] + rest) && Exec(s, [a] + rest) == Exec(s', rest)
    ensures rest == [] ==> [a] + rest == [a]
  {
    hide Enabled, FromLive, Do;
    assert ([a] + rest)[1..] == rest;
  }

  lemma {:induction false} Append<O>(s: State<O>, a: seq<Action<O>>, b: seq<Action<O>>)
    requires Runs(s, a) && FromLiveRun(s, a) && Runs(Exec(s, a), b) && FromLiveRun(Exec(s, a), b)
    ensures Runs(s, a + b) && FromLiveRun(s, a + b) && Exec(s, a + b) == Exec(Exec(s, a), b)
    decreases |a|
  {
    hide Enabled, FromLive, Do;
    if a == [] {
      assert a + b == b;
    } else {
      assert (a + b)[1..] == a[1..] + b;
      Append(Do(s, a[0]), a[1..], b);
    }
  }

  lemma IdleShape()
    ensures var s := IdleHeap(); ShapeOk(s.heap, s.list, s.ever)
  {
  }

  lemma IdleThreads()
    ensures var s := IdleHeap();
      && ThreadsOk(s.heap, s.phase, s.scanned, s.threads) && CollectorOk(s.threads, s.phase, s.scanned, s.collector)
  {
  }

  lemma IdleFolds()
    ensures var s := IdleHeap();
      Held(s.threads) == multiset{} && Births(s.threads) == multiset{} && BusyThreads(s.threads) == 0 && Uncounted(s.threads) == 0
  {
    var s := IdleHeap();
    assert s.threads[1..] == [Thread(Ready, [], None)] && s.threads[1..][1..] == [];
  }

  lemma IdleBytes()
    ensures var s := IdleHeap(); (forall o | o in s.list :: o in s.heap) && SumSizes(s.list, s.heap) == 3
  {
    var s := IdleHeap();
    assert s.list[1..] == [1, 4] && s.list[1..][1..] == [4] && s.list[1..][1..][1..] == [];
  }

  lemma IdleMarks()
    ensures var s := IdleHeap();
      QueueOk(s.heap, multiset{}, multiset{}, Idle) && ColorsOk(s.heap, {}, Idle) && RootsOk(s.heap, s.handles, multiset{})
  {
  }

  lemma IdleHeapIsWellFormed()
    ensures Inv(IdleHeap())
  {
    hide ShapeOk, ThreadsOk, CollectorOk, QueueOk, ColorsOk, RootsOk, Held, Births, BusyThreads, Uncounted, SumSizes;
    IdleShape();
    IdleThreads();
    IdleFolds();
    IdleBytes();
    IdleMarks();
    assert multiset(IdleHeap().shared) == multiset{};
    assert Queued(IdleHeap()) == multiset{};
  }

  ghost function Begun(): State<nat> {
    IdleHeap().(threads := [Thread(Starting, [], None), Thread(Ready, [], None)], phase := Marking)
  }

  lemma ScanFinds()
    ensures Unmarked(Begun().heap) == {2} && Rooted(Begun().heap) == {2} && Filter(Begun().list, {2}) == [2]
    ensures GrayRoots(Begun().heap) == AfterScan().heap
  {
    var list := Begun().list;
    assert list[1..] == [1, 4] && list[1..][1..] == [4] && list[1..][1..][1..] == [];
  }

  lemma StartStep()
    ensures StepTo(IdleHeap(), Start(0), Begun())
  {
  }

  lemma RootScanStep()
    ensures StepTo(Begun(), RootScan(0), AfterScan())
  {
    ScanFinds();
    hide Unmarked, Rooted, Filter, GrayRoots;
    assert DoRootScan(Begun(), 0) == AfterScan();
  }

  lemma ScanRuns()
    ensures Runs(IdleHeap(), RootsScanned()) && FromLiveRun(IdleHeap(), RootsScanned())
    ensures Exec(IdleHeap(), RootsScanned()) == AfterScan()
  {
    hide StepTo, Runs, Exec, FromLiveRun;
    StartStep();
    RootScanStep();
    NoMore(AfterScan());
    Cons(Begun(), RootScan(0), AfterScan(), []);
    Cons(IdleHeap(), Start(0), Begun(), [RootScan(0)]);
    assert [Start(0)] + [RootScan(0)] == RootsScanned();
  }

  lemma SetOpens(m: State<nat>)
    requires m.phase == Marking && |m.threads| == 2 && m.threads[1] == Thread(Ready, [], None)
    requires 2 in m.heap && m.heap[2].fields == [Some(1)]
    ensures StepTo(m, SetEnter(1, 2, 0, [None]), Storing(m, SetEntered(2, 0, [None])))
    ensures StepTo(Storing(m, SetEntered(2, 0, [None])), SetCheck(1), Storing(m, SetShading(2, 0, [None], 0)))
  {
    hide Live;
  }

  lemma SetShades(m: State<nat>)
    requires m.phase == Marking && |m.threads| == 2
    ensures StepTo(Storing(m, SetShading(2, 0, [None], 0)), SetShade(1), Storing(m, SetShading(2, 0, [None], 1)))
    ensures StepTo(Storing(m, SetShading(2, 0, [None], 1)), SetMerge(1), Storing(m, SetMerged(2, 0, [None])))
  {
    hide Live;
    assert m.shared + [] == m.shared;
  }

  lemma SetCloses(m: State<nat>)
    requires |m.threads| == 2 && m.threads[1] == Thread(Ready, [], None) && 2 in m.heap && m.heap[2].fields == [Some(1)]
    ensures StepTo(Storing(m, SetMerged(2, 0, [None])), SetLeave(1), AfterClear(m))
  {
    hide Live;
    assert m.heap[2].fields[..0] + [None] + m.heap[2].fields[1..] == [None];
  }

  lemma ClearRuns(m: State<nat>)
    requires m.phase == Marking && |m.threads| == 2 && m.threads[1] == Thread(Ready, [], None)
    requires 2 in m.heap && m.heap[2].fields == [Some(1)]
    ensures Runs(m, FieldCleared()) && FromLiveRun(m, FieldCleared()) && Exec(m, FieldCleared()) == AfterClear(m)
  {
    hide Runs, Exec, FromLiveRun, StepTo, AfterClear, Storing;
    SetOpens(m);
    SetShades(m);
    SetCloses(m);
    NoMore(AfterClear(m));
    Cons(Storing(m, SetMerged(2, 0, [None])), SetLeave(1), AfterClear(m), []);
    Cons(Storing(m, SetShading(2, 0, [None], 1)), SetMerge(1), Storing(m, SetMerged(2, 0, [None])), [SetLeave(1)]);
    var last: seq<Action<nat>> := [SetMerge(1)] + [SetLeave(1)];
    Cons(Storing(m, SetShading(2, 0, [None], 0)), SetShade(1), Storing(m, SetShading(2, 0, [None], 1)), last);
    Cons(Storing(m, SetEntered(2, 0, [None])), SetCheck(1), Storing(m, SetShading(2, 0, [None], 0)), [SetShade(1)] + last);
    Cons(m, SetEnter(1, 2, 0, [None]), Storing(m, SetEntered(2, 0, [None])), [SetCheck(1)] + ([SetShade(1)] + last));
    assert FieldCleared() == [SetEnter(1, 2, 0, [None])] + ([SetCheck(1)] + ([SetShade(1)] + last));
  }

  lemma NoMore<O>(s: State<O>)
    ensures Runs(s, []) && FromLiveRun(s, []) && Exec(s, []) == s
  {
  }

  lemma TakeTwo(m: State<nat>)
    requires |m.threads| == 2 && m.threads[0] == Thread(Collecting, [], None) && m.shared == [2]
    ensures StepTo(m, Steal(0), Tracing0(m, [2], None))
    ensures StepTo(Tracing0(m, [2], None), Pop(0), Tracing0(m, [], Some(Scan(2, 0))))
  {
    assert m.shared[0..] == [2] && m.shared[..0] == [];
    assert [2][1..] == [] && Reverse([2]) == [2];
    hide Live, Reverse;
    assert [2][..0] == [];
  }

  lemma ScanTwo(m: State<nat>)
    requires |m.threads| == 2 && 2 in m.heap && m.heap[2].fields == [None]
    ensures StepTo(Tracing0(m, [], Some(Scan(2, 0))), ScanField(0), Tracing0(m, [], Some(Scan(2, 1))))
  {
    hide Live;
  }

  lemma FinishTwo(m: State<nat>)
    requires |m.threads| == 2 && m.busy == 0 && 2 in m.heap && m.heap[2].fields == [None]
    ensures var m' := m.(heap := m.heap[2 := m.heap[2].(color := Black)]);
      && StepTo(Tracing0(m, [], Some(Scan(2, 1))), Blacken(0), Tracing0(m', [], None))
      && StepTo(Tracing0(m', [], None), HandOff(0), AfterTrace(m))
  {
    hide Live;
  }

  lemma TraceRuns(m: State<nat>)
    requires |m.threads| == 2 && m.threads[0] == Thread(Collecting, [], None) && m.shared == [2] && m.busy == 0
    requires 2 in m.heap && m.heap[2].fields == [None]
    ensures Runs(m, RootTraced()) && FromLiveRun(m, RootTraced()) && Exec(m, RootTraced()) == AfterTrace(m)
  {
    hide Runs, Exec, FromLiveRun, StepTo, Tracing0, AfterTrace;
    TakeTwo(m);
    ScanTwo(m);
    FinishTwo(m);
    var m' := m.(heap := m.heap[2 := m.heap[2].(color := Black)]);
    NoMore(AfterTrace(m));
    Cons(Tracing0(m', [], None), HandOff(0), AfterTrace(m), []);
    Cons(Tracing0(m, [], Some(Scan(2, 1))), Blacken(0), Tracing0(m', [], None), [HandOff(0)]);
    var last: seq<Action<nat>> := [Blacken(0)] + [HandOff(0)];
    Cons(Tracing0(m, [], Some(Scan(2, 0))), ScanField(0), Tracing0(m, [], Some(Scan(2, 1))), last);
    Cons(Tracing0(m, [2], None), Pop(0), Tracing0(m, [], Some(Scan(2, 0))), [ScanField(0)] + last);
    Cons(m, Steal(0), Tracing0(m, [2], None), [Pop(0)] + ([ScanField(0)] + last));
    assert RootTraced() == [Steal(0)] + ([Pop(0)] + ([ScanField(0)] + last));
  }

  lemma ReachesThrough(h: map<nat, Object<nat>>, a: nat, b: nat)
    requires a in h && a in Live(h) && Some(b) in h[a].fields
    ensures b in Live(h)
  {
    assert b in Graph(h)[a];
  }

  lemma RootIsLive(h: map<nat, Object<nat>>, a: nat)
    requires a in h && h[a].roots > 0
    ensures a in Live(h)
  {
    assert a in Rooted(h);
  }

  /** `x` runs between the scan and the clearing of the field. */
  lemma RunAround(x: seq<Action<nat>>)
    requires Runs(AfterScan(), x) && FromLiveRun(AfterScan(), x)
    requires var m := Exec(AfterScan(), x);
      && m.phase == Marking && m.threads == AfterScan().threads && m.shared == [2] && m.busy == 0
      && 2 in m.heap && m.heap[2].fields == [Some(1)]
    ensures var acts := RootsScanned() + x + FieldCleared() + RootTraced();
      Runs(IdleHeap(), acts) && FromLiveRun(IdleHeap(), acts) && Exec(IdleHeap(), acts) == AfterTrace(AfterClear(Exec(AfterScan(), x)))
  {
    hide Runs, Exec, FromLiveRun, Live, IdleHeap, RootsScanned, FieldCleared, RootTraced;
    var m := Exec(AfterScan(), x);
    ScanRuns();
    Append(IdleHeap(), RootsScanned(), x);
    ClearRuns(m);
    Append(IdleHeap(), RootsScanned() + x, FieldCleared());
    TraceRuns(AfterClear(m));
    Append(IdleHeap(), RootsScanned() + x + FieldCleared(), RootTraced());
  }

  /** An object allocated during marking with a pointer to a white object: the pointer dangles after the sweep. */
  lemma UnshadedAllocationDangles()
    ensures var acts := RootsScanned() + Allocated() + FieldCleared() + RootTraced();
      && Inv(IdleHeap()) && Runs(IdleHeap(), acts) && FromLiveRun(IdleHeap(), acts)
      && var e := Exec(IdleHeap(), acts);
         && Enabled(e, Sweep(0)) && 1 in Live(e.heap)
         && 1 !in Do(e, Sweep(0)).heap && 3 in Do(e, Sweep(0)).heap && Do(e, Sweep(0)).heap[3].fields == [Some(1)]
  {
    IdleHeapIsWellFormed();
    var s := AfterScan();
    var obj := Object(White, 1, false, 1, [Some(1)]);
    var m := s.(heap := s.heap[3 := obj], list := [3] + s.list, newborn := {3}, ever := s.ever + {3},
                bytes := s.bytes + 1, handles := s.handles + multiset{3});
    AllocationRuns(s, obj, m);
    hide Inv, Runs, Exec, FromLiveRun, Live, IdleHeap, RootsScanned, FieldCleared, RootTraced, Allocated;
    RunAround(Allocated());
    var e := AfterTrace(AfterClear(m));
    RootIsLive(e.heap, 3);
    ReachesThrough(e.heap, 3, 1);
    SweepKeeps(e);
  }

  lemma LinkStep(s: State<nat>, m: State<nat>)
    requires Is(s, 1, Ready) && s.phase == Marking && 3 !in s.ever && 1 in s.heap && 1 in Live(s.heap)
    requires m == DoLink(s, 1, 3, Object(White, 1, false, 1, [Some(1)]))
    ensures StepTo(s, Link(1, 3, false, 1, [Some(1)]), m)
  {
    hide Live, DoLink;
    assert Pointers([Some(1)]) <= Live(s.heap);
  }

  lemma CountStep(s: State<nat>, m: State<nat>)
    requires Is(s, 1, Counting(3, 1)) && m == DoCount(s, 1)
    ensures StepTo(s, Action.Count(1), m)
  {
    hide Live, DoCount;
  }

  lemma AllocationRuns(s: State<nat>, obj: Object<nat>, m: State<nat>)
    requires s == AfterScan() && obj == Object(White, 1, false, 1, [Some(1)])
    requires m == s.(heap := s.heap[3 := obj], list := [3] + s.list, newborn := {3}, ever := s.ever + {3},
                     bytes := s.bytes + 1, handles := s.handles + multiset{3})
    ensures Runs(s, Allocated()) && FromLiveRun(s, Allocated()) && Exec(s, Allocated()) == m
  {
    hide Runs, Exec, FromLiveRun, Live, StepTo;
    RootIsLive(s.heap, 2);
    ReachesThrough(s.heap, 2, 1);
    var m1 := DoLink(s, 1, 3, obj);
    LinkStep(s, m1);
    assert DoCount(m1, 1) == m;
    CountStep(m1, m);
    NoMore(m);
    Cons(m1, Action.Count(1), m, []);
    Cons(s, Link(1, 3, false, 1, [Some(1)]), m1, [Action.Count(1)]);
    assert Allocated() == [Link(1, 3, false, 1, [Some(1)])] + [Action.Count(1)];
  }

  lemma SweepKeeps(e: State<nat>)
    requires Is(e, 0, Finishing) && forall o | o in e.list :: o in e.heap
    ensures Enabled(e, Sweep(0)) && Do(e, Sweep(0)).heap.Keys == Survivors(e.heap)
    ensures forall o | o in Survivors(e.heap) :: Do(e, Sweep(0)).heap[o].fields == e.heap[o].fields
  {
    hide Filter, SumSizes;
  }

  /** Rooting a white object during marking: what it points to is freed although it is reachable. */
  lemma RootedWhiteDangles()
    ensures var acts := RootsScanned() + [Root(1)] + FieldCleared() + RootTraced();
      && Inv(IdleHeap()) && Runs(IdleHeap(), acts) && FromLiveRun(IdleHeap(), acts)
      && var e := Exec(IdleHeap(), acts);
         && Enabled(e, Sweep(0)) && 4 in Live(e.heap)
         && 4 !in Do(e, Sweep(0)).heap && 1 in Do(e, Sweep(0)).heap && Do(e, Sweep(0)).heap[1].fields == [Some(4)]
  {
    IdleHeapIsWellFormed();
    var s := AfterScan();
    var m := s.(heap := s.heap[1 := s.heap[1].(roots := 1)], handles := s.handles + multiset{1});
    RootRuns(s, m);
    hide Inv, Runs, Exec, FromLiveRun, Live, IdleHeap, RootsScanned, FieldCleared, RootTraced;
    RunAround([Root(1)]);
    var e := AfterTrace(AfterClear(m));
    RootIsLive(e.heap, 1);
    ReachesThrough(e.heap, 1, 4);
    SweepKeeps(e);
  }

  lemma RootRuns(s: State<nat>, m: State<nat>)
    requires s == AfterScan() && m == s.(heap := s.heap[1 := s.heap[1].(roots := 1)], handles := s.handles + multiset{1})
    ensures Runs(s, [Root(1)]) && FromLiveRun(s, [Root(1)]) && Exec(s, [Root(1)]) == m
  {
    hide Runs, Exec, FromLiveRun, Live;
    RootIsLive(s.heap, 2);
    ReachesThrough(s.heap, 2, 1);
    assert Do(s, Root(1)) == m;
    NoMore(m);
    Cons(s, Root(1), m, []);
    assert [Action<nat>.Root(1)] + [] == [Root(1)];
  }

  // ----- Work that comes back too late -----

  lemma AssistStarts()
    ensures StepTo(AfterScan(), AssistEnter(1), Assisted(AfterScan().heap, Thread(AssistEntered, [], None), [2], 1, multiset{2}))
    ensures StepTo(Assisted(AfterScan().heap, Thread(AssistEntered, [], None), [2], 1, multiset{2}), AssistCheck(1),
                   Assisted(AfterScan().heap, Thread(Assisting, [], None), [2], 1, multiset{2}))
  {
    hide Live;
  }

  lemma AssistSteals()
    ensures StepTo(Assisted(AfterScan().heap, Thread(Assisting, [], None), [2], 1, multiset{2}), Steal(1), StealFails())
  {
    assert [2][0..] == [2] && [2][..0] == [] && [2][1..] == [] && Reverse([2]) == [2];
    hide Live, Reverse;
  }

  lemma AssistPops()
    ensures StepTo(StealFails(), Pop(1), Assisted(AfterScan().heap, Thread(Assisting, [], Some(Scan(2, 0))), [], 1, multiset{2}))
  {
    hide Live;
    assert [2][..0] == [];
  }

  lemma AssistScans()
    ensures StepTo(Assisted(AfterScan().heap, Thread(Assisting, [], Some(Scan(2, 0))), [], 1, multiset{2}), ScanField(1),
                   Assisted(OneGray(), Thread(Assisting, [1], Some(Scan(2, 1))), [], 1, multiset{2, 1}))
  {
    hide Live;
    assert multiset{2} + multiset{1} == multiset{2, 1};
    assert [] + [1] == [1];
  }

  lemma AssistBlackens()
    ensures StepTo(Assisted(OneGray(), Thread(Assisting, [1], Some(Scan(2, 1))), [], 1, multiset{2, 1}), Blacken(1),
                   Assisted(TwoBlack(), Thread(Assisting, [1], None), [], 1, multiset{2, 1}))
  {
    hide Live;
  }

  lemma AssistFinishes()
    ensures StepTo(Assisted(TwoBlack(), Thread(Assisting, [1], None), [], 1, multiset{2, 1}), Merge(1),
                   Assisted(TwoBlack(), Thread(Assisting, [], None), [1], 1, multiset{2, 1}))
    ensures StepTo(Assisted(TwoBlack(), Thread(Assisting, [], None), [1], 1, multiset{2, 1}), AssistLeave(1), NobodyIsBusy())
  {
    hide Live;
  }

  lemma AssistBegins()
    ensures Runs(AfterScan(), AssistBegun()) && FromLiveRun(AfterScan(), AssistBegun())
    ensures Exec(AfterScan(), AssistBegun()) == StealFails()
  {
    hide Runs, Exec, FromLiveRun, StepTo, AfterScan, Assisted, StealFails;
    AssistStarts();
    AssistSteals();
    NoMore(StealFails());
    Cons(Assisted(AfterScan().heap, Thread(Assisting, [], None), [2], 1, multiset{2}), Steal(1), StealFails(), []);
    Cons(Assisted(AfterScan().heap, Thread(AssistEntered, [], None), [2], 1, multiset{2}), AssistCheck(1),
         Assisted(AfterScan().heap, Thread(Assisting, [], None), [2], 1, multiset{2}), [Steal(1)]);
    Cons(AfterScan(), AssistEnter(1), Assisted(AfterScan().heap, Thread(AssistEntered, [], None), [2], 1, multiset{2}),
         [AssistCheck(1)] + [Steal(1)]);
    assert AssistBegun() == [AssistEnter(1)] + ([AssistCheck(1)] + [Steal(1)]);
  }

  lemma AssistEnds()
    ensures Runs(StealFails(), AssistEnded()) && FromLiveRun(StealFails(), AssistEnded())
    ensures Exec(StealFails(), AssistEnded()) == NobodyIsBusy()
  {
    hide Runs, Exec, FromLiveRun, StepTo, AfterScan, Assisted, StealFails, NobodyIsBusy, OneGray, TwoBlack;
    AssistPops();
    AssistScans();
    AssistBlackens();
    AssistFinishes();
    NoMore(NobodyIsBusy());
    var last: seq<Action<nat>> := [Merge(1)] + [AssistLeave(1)];
    Cons(Assisted(TwoBlack(), Thread(Assisting, [], None), [1], 1, multiset{2, 1}), AssistLeave(1), NobodyIsBusy(), []);
    Cons(Assisted(TwoBlack(), Thread(Assisting, [1], None), [], 1, multiset{2, 1}), Merge(1),
         Assisted(TwoBlack(), Thread(Assisting, [], None), [1], 1, multiset{2, 1}), [AssistLeave(1)]);
    Cons(Assisted(OneGray(), Thread(Assisting, [1], Some(Scan(2, 1))), [], 1, multiset{2, 1}), Blacken(1),
         Assisted(TwoBlack(), Thread(Assisting, [1], None), [], 1, multiset{2, 1}), last);
    Cons(Assisted(AfterScan().heap, Thread(Assisting, [], Some(Scan(2, 0))), [], 1, multiset{2}), ScanField(1),
         Assisted(OneGray(), Thread(Assisting, [1], Some(Scan(2, 1))), [], 1, multiset{2, 1}), [Blacken(1)] + last);
    Cons(StealFails(), Pop(1), Assisted(AfterScan().heap, Thread(Assisting, [], Some(Scan(2, 0))), [], 1, multiset{2}),
         [ScanField(1)] + ([Blacken(1)] + last));
    assert AssistEnded() == [Pop(1)] + ([ScanField(1)] + ([Blacken(1)] + last));
  }

  /** A run that neither links nor roots follows the discipline. */
  lemma {:induction false} PlainRunIsCareful<O>(s: State<O>, acts: seq<Action<O>>)
    requires Runs(s, acts) && forall a | a in acts :: !a.Link? && !a.Root?
    ensures CarefulRun(s, acts)
    decreases |acts|
  {
    hide Enabled, Do;
    if acts != [] {
      assert acts[0] in acts;
      assert forall a | a in acts[1..] :: a in acts;
      PlainRunIsCareful(Do(s, acts[0]), acts[1..]);
    }
  }

  /**
   * Work that comes back between the failed steal and the busy test is lost: a mutator that assists, and breaks no
   * rule, hands object 1 back, the collector sweeps with 1 still queued, and the leaf 4 is freed although 2 reaches it.
   */
  lemma LateMergeLosesWork()
    ensures var before := RootsScanned() + AssistBegun();
      && Inv(IdleHeap()) && CarefulRun(IdleHeap(), before + AssistEnded()) && FromLiveRun(IdleHeap(), before + AssistEnded())
      && Runs(IdleHeap(), before)
      && var s, e := Exec(IdleHeap(), before), HandedOff(NobodyIsBusy(), 0);
         && SplitHandOff(s, 0, AssistEnded(), [], e) && e.shared == [1]
         && Enabled(e, Sweep(0)) && 4 in Live(e.heap)
         && 4 !in Do(e, Sweep(0)).heap && 1 in Do(e, Sweep(0)).heap && Do(e, Sweep(0)).heap[1].fields == [Some(4)]
  {
    hide Inv, Runs, Exec, FromLiveRun, CarefulRun, Live, IdleHeap, AfterScan, RootsScanned, AssistBegun, AssistEnded,
         SplitHandOff, StealFails, NobodyIsBusy, Enabled, Do, HandedOff;
    NobodyIsBusyHasThreads();
    var e := HandedOff(NobodyIsBusy(), 0);
    IdleHeapIsWellFormed();
    LateSweep(e);
    PlainActions();
    ScanRuns();
    AssistBegins();
    AssistEnds();
    Append(IdleHeap(), RootsScanned(), AssistBegun());
    Append(IdleHeap(), RootsScanned() + AssistBegun(), AssistEnded());
    PlainRunIsCareful(IdleHeap(), RootsScanned() + AssistBegun() + AssistEnded());
    LateHandOff(e);
  }

  lemma PlainActions()
    ensures forall a | a in RootsScanned() + AssistBegun() + AssistEnded() :: !a.Link? && !a.Root?
  {
  }

  lemma NobodyIsBusyHasThreads()
    ensures |NobodyIsBusy().threads| == 2
  {
  }

  lemma LateHandOff(e: State<nat>)
    requires Runs(StealFails(), AssistEnded()) && Exec(StealFails(), AssistEnded()) == NobodyIsBusy()
    requires e == HandedOff(NobodyIsBusy(), 0)
    ensures SplitHandOff(StealFails(), 0, AssistEnded(), [], e)
  {
    hide Enabled, Do;
    assert Runs(NobodyIsBusy(), []) && Exec(NobodyIsBusy(), []) == NobodyIsBusy();
  }

  lemma LateSweep(e: State<nat>)
    requires e == HandedOff(NobodyIsBusy(), 0)
    ensures Enabled(e, Sweep(0)) && 4 in Live(e.heap) && e.shared == [1]
    ensures 4 !in Do(e, Sweep(0)).heap && 1 in Do(e, Sweep(0)).heap && Do(e, Sweep(0)).heap[1].fields == [Some(4)]
  {
    hide Live, Filter, SumSizes;
    RootIsLive(e.heap, 2);
    ReachesThrough(e.heap, 2, 1);
    ReachesThrough(e.heap, 1, 4);
    SweepKeeps(e);
  }
}
