/** The root scan, the sweep, and the theorem that every action keeps the invariant. */
module CyclePreservation {
  import opened Protocol
  import opened Invariant
  import opened Preservation
  import opened HeapPreservation

  // ----- Lists -----

  lemma {:induction false} FilterKeepsDistinct<O>(list: seq<O>, keep: set<O>)
    requires NoDuplicates(list)
    ensures NoDuplicates(Filter(list, keep))
  {
    if list != [] {
      var tail := list[1..];
      assert forall i | 0 <= i < |tail| :: tail[i] == list[i + 1];
      FilterKeepsDistinct(tail, keep);
      assert list[0] !in tail;
    }
  }

  lemma {:induction false} DistinctCounts<O>(list: seq<O>)
    requires NoDuplicates(list)
    ensures forall o | o in list :: multiset(list)[o] == 1
  {
    if list != [] {
      var tail := list[1..];
      assert forall i | 0 <= i < |tail| :: tail[i] == list[i + 1];
      DistinctCounts(tail);
      assert list == [list[0]] + tail;
      assert list[0] !in tail;
    }
  }

  lemma {:induction false} SumSizesSplit<O>(list: seq<O>, h: map<O, Object<O>>, keep: set<O>, drop: set<O>)
    requires forall o | o in list :: o in h
    requires forall o | o in list :: o in keep <==> o !in drop
    ensures SumSizes(list, h) == SumSizes(Filter(list, keep), h) + SumSizes(Filter(list, drop), h)
  {
    if list != [] {
      SumSizesSplit(list[1..], h, keep, drop);
      var k, d := Filter(list[1..], keep), Filter(list[1..], drop);
      assert ([list[0]] + k)[1..] == k && ([list[0]] + d)[1..] == d;
      assert [] + k == k && [] + d == d;
    }
  }

  // ----- Root scan -----

  lemma RootScanDarkens<O>(h: map<O, Object<O>>)
    ensures Darker(h, GrayRoots(h))
    ensures forall o | o in Rooted(h) :: o in GrayRoots(h) && GrayRoots(h)[o].color != White
  {
  }

  lemma RootScanThreads<O>(h: map<O, Object<O>>, threads: seq<Thread<O>>, collector: nat, t: nat, th: Thread<O>)
    requires ThreadsOk(h, Marking, false, threads) && CollectorOk(threads, Marking, false, collector)
    requires t < |threads| && threads[t].pc.Starting? && th == threads[t].(pc := Collecting)
    ensures ThreadsOk(h, Marking, true, threads[t := th]) && CollectorOk(threads[t := th], Marking, true, collector)
  {
    var changed := threads[t := th];
    forall i | 0 <= i < |changed| ensures PcOk(h, Marking, true, changed[i].pc) && WorkOk(h, changed[i]) {
      assert PcOk(h, Marking, false, threads[i].pc) && WorkOk(h, threads[i]);
      assert IsCollector(threads[t].pc);
    }
  }

  lemma FoundRoots<O>(h: map<O, Object<O>>, list: seq<O>, ever: set<O>)
    requires ShapeOk(h, list, ever)
    ensures var found := multiset(Filter(list, Unmarked(h)));
      (forall o | o in found :: o in Unmarked(h) && found[o] == 1) && (forall o | o in Unmarked(h) :: o in found)
  {
    FilterKeepsDistinct(list, Unmarked(h));
    DistinctCounts(Filter(list, Unmarked(h)));
  }

  lemma RootScanQueue<O>(h: map<O, Object<O>>, queued: multiset<O>, enqueued: multiset<O>, found: multiset<O>)
    requires QueueOk(h, queued, enqueued, Marking)
    requires (forall o | o in found :: o in Unmarked(h) && found[o] == 1) && (forall o | o in Unmarked(h) :: o in found)
    ensures QueueOk(GrayRoots(h), queued + found, enqueued + found, Marking)
  {
    var h', q, e := GrayRoots(h), queued + found, enqueued + found;
    assert forall o | o in Unmarked(h) :: o !in enqueued;
    forall o | o in e ensures e[o] == 1 && o in h' && h'[o].color != White {
      if o in found {
        assert o in Unmarked(h);
      } else {
        assert o in enqueued;
      }
    }
    forall o | o in h' && h'[o].color == Gray ensures o in q {
      assert o in queued || o in found;
    }
    forall o | o in q && o in h' && h'[o].color == Black ensures h'[o].leaf {
      assert o in queued;
    }
  }

  lemma RootScanColors<O>(h: map<O, Object<O>>, scanRoots: set<O>)
    requires ColorsOk(h, scanRoots, Marking)
    ensures ColorsOk(GrayRoots(h), Rooted(h), Marking)
  {
    RootScanDarkens(h);
    DarkerColors(h, GrayRoots(h), scanRoots);
  }

  lemma StartingFacts<O>(s: State<O>, t: nat)
    requires Inv(s) && Is(s, t, Starting)
    ensures s.phase == Marking && !s.scanned && t == s.collector
  {
    ThreadFacts(s, t);
    assert IsCollector(s.threads[t].pc);
  }

  lemma RootScanPreserves<O>(s: State<O>, t: nat)
    requires Inv(s) && Is(s, t, Starting)
    ensures Inv(DoRootScan(s, t))
  {
    hide ShapeOk, ThreadsOk, CollectorOk, QueueOk, ColorsOk, RootsOk, BytesOk, BusyOk, PcOk, WorkOk, Filter,
         GrayRoots, Rooted, Unmarked, Darker, Held, Births;
    StartingFacts(s, t);
    var th := s.threads[t].(pc := Collecting);
    var h' := GrayRoots(s.heap);
    var found := Filter(s.list, Unmarked(s.heap));
    var s' := DoRootScan(s, t);
    RootScanDarkens(s.heap);
    DarkerFrame(s, h');
    RootScanThreads(s.heap, s.threads, s.collector, t, th);
    DarkerThreads(s.heap, h', Marking, true, s'.threads);
    CollectorFolds(s.heap, s.list, s.bytes, s.busy, s.threads, t, th);
    DarkerBytes(s.heap, h', s.list, s.bytes, s'.threads);
    FoundRoots(s.heap, s.list, s.ever);
    RootScanQueue(s.heap, Queued(s), s.enqueued, multiset(found));
    assert Queued(s') == Queued(s) + multiset(found);
    RootScanColors(s.heap, s.scanRoots);
  }

  // ----- Sweep -----

  /** What the sweep keeps points only to what it keeps. */
  ghost predicate SurvivorsClosed<O>(heap: map<O, Object<O>>) {
    forall o | o in Survivors(heap) :: forall i | 0 <= i < |heap[o].fields| && heap[o].fields[i].Some? ::
      heap[o].fields[i].value in Survivors(heap)
  }

  ghost function Swept<O>(h: map<O, Object<O>>): map<O, Object<O>> {
    map o | o in h && o !in h.Keys - Survivors(h) :: h[o].(color := White)
  }

  lemma SweptFacts<O>(h: map<O, Object<O>>)
    ensures Swept(h).Keys == Survivors(h)
    ensures forall o | o in Swept(h) :: o in h && Swept(h)[o] == h[o].(color := White)
  {
  }

  lemma SweepShape<O>(h: map<O, Object<O>>, list: seq<O>, ever: set<O>)
    requires ShapeOk(h, list, ever) && SurvivorsClosed(h)
    ensures ShapeOk(Swept(h), Filter(list, Survivors(h)), ever)
  {
    SweptFacts(h);
    FilterKeepsDistinct(list, Survivors(h));
  }

  lemma SweepThreads<O>(h: map<O, Object<O>>, scanned: bool, threads: seq<Thread<O>>, handles: multiset<O>, collector: nat, t: nat, th: Thread<O>)
    requires ThreadsOk(h, Sweeping, scanned, threads) && CollectorOk(threads, Sweeping, scanned, collector)
    requires RootsOk(h, handles, Births(threads))
    requires t < |threads| && threads[t].pc.Finishing? && th == threads[t].(pc := Ready)
    ensures ThreadsOk(Swept(h), Idle, false, threads[t := th]) && CollectorOk(threads[t := th], Idle, false, collector)
  {
    SweptFacts(h);
    var changed := threads[t := th];
    forall i | 0 <= i < |changed| ensures PcOk(Swept(h), Idle, false, changed[i].pc) && WorkOk(Swept(h), changed[i]) {
      assert PcOk(h, Sweeping, scanned, threads[i].pc) && WorkOk(h, threads[i]);
      assert IsCollector(threads[t].pc);
      if threads[i].pc.Counting? {
        BirthIsRooted(h, handles, threads, i);
      }
    }
  }

  /** An object still being allocated has a root count of at least one, so the sweep keeps it. */
  lemma BirthIsRooted<O>(h: map<O, Object<O>>, handles: multiset<O>, threads: seq<Thread<O>>, t: nat)
    requires RootsOk(h, handles, Births(threads)) && t < |threads| && threads[t].pc.Counting?
    ensures threads[t].pc.o in h && h[threads[t].pc.o].roots >= 1
  {
    FoldsContain(threads, t);
    assert threads[t].pc.o in BirthBy(threads[t]);
    assert threads[t].pc.o in Births(threads);
  }

  lemma SweepRoots<O>(h: map<O, Object<O>>, handles: multiset<O>, births: multiset<O>)
    requires RootsOk(h, handles, births)
    ensures RootsOk(Swept(h), handles, births)
  {
    SweptFacts(h);
  }

  lemma SweepBytes<O>(h: map<O, Object<O>>, list: seq<O>, bytes: int, threads: seq<Thread<O>>)
    requires BytesOk(h, list, bytes, threads)
    ensures BytesOk(Swept(h), Filter(list, Survivors(h)), bytes - SumSizes(Filter(list, h.Keys - Survivors(h)), h), threads)
  {
    SweptFacts(h);
    SumSizesSplit(list, h, Survivors(h), h.Keys - Survivors(h));
    SumSizesFrame(Filter(list, Survivors(h)), h, Swept(h));
  }

  lemma SweepMarks<O>(h: map<O, Object<O>>, queued: multiset<O>, enqueued: multiset<O>)
    requires QueueOk(h, queued, enqueued, Sweeping)
    ensures QueueOk(Swept(h), queued, multiset{}, Idle) && ColorsOk(Swept(h), {}, Idle)
  {
    SweptFacts(h);
  }

  lemma FinishingFacts<O>(s: State<O>, t: nat)
    requires Inv(s) && Is(s, t, Finishing)
    ensures s.phase == Sweeping && t == s.collector && forall o | o in s.list :: o in s.heap
  {
    ThreadFacts(s, t);
    assert IsCollector(s.threads[t].pc);
  }

  lemma SweepPreserves<O>(s: State<O>, t: nat)
    requires Inv(s) && Is(s, t, Finishing) && SurvivorsClosed(s.heap)
    requires forall o | o in s.list :: o in s.heap
    ensures Inv(DoSweep(s, t))
  {
    hide ShapeOk, ThreadsOk, CollectorOk, QueueOk, ColorsOk, RootsOk, BytesOk, BusyOk, SurvivorsClosed, Survivors, Filter,
         Held, Births, SumSizes;
    FinishingFacts(s, t);
    var th := s.threads[t].(pc := Ready);
    var list' := Filter(s.list, Survivors(s.heap));
    var bytes' := s.bytes - SumSizes(Filter(s.list, s.heap.Keys - Survivors(s.heap)), s.heap);
    SweepShape(s.heap, s.list, s.ever);
    SweepThreads(s.heap, s.scanned, s.threads, s.handles, s.collector, t, th);
    SweepMarks(s.heap, Queued(s), s.enqueued);
    SweepRoots(s.heap, s.handles, Births(s.threads));
    SweepBytes(s.heap, s.list, s.bytes, s.threads);
    CollectorFolds(Swept(s.heap), list', bytes', s.busy, s.threads, t, th);
  }

  // ----- Every action -----

  lemma CollectorStepPreserves<O>(s: State<O>, a: Action<O>)
    requires Inv(s) && Enabled(s, a)
    requires a.Start? || a.RootScan? || a.HandOff? || a.Sweep?
    requires a.Sweep? ==> SurvivorsClosed(s.heap)
    ensures Inv(Do(s, a))
  {
    hide Inv, SurvivorsClosed, WithPc, DoRootScan, DoSweep;
    match a
    case Start(t) => StartPreserves(s, t);
    case RootScan(t) => RootScanPreserves(s, t);
    case HandOff(t) => HandOffPreserves(s, t);
    case Sweep(t) => SweepPreserves(s, t);
  }

  lemma TracerStepPreserves<O>(s: State<O>, a: Action<O>)
    requires Inv(s) && Enabled(s, a)
    requires a.Steal? || a.Pop? || a.ScanField? || a.Blacken? || a.Merge? || a.AssistEnter? || a.AssistCheck? || a.AssistLeave?
    ensures Inv(Do(s, a))
  {
    hide Inv, WithPc, DoSteal, DoPop, DoScanField, DoBlacken, DoMerge, DoAssistCheck;
    match a
    case Steal(t) => StealPreserves(s, t);
    case Pop(t) => PopPreserves(s, t);
    case ScanField(t) => ScanFieldPreserves(s, t);
    case Blacken(t) => BlackenPreserves(s, t);
    case Merge(t) => MergePreserves(s, t);
    case AssistEnter(t) => AssistEnterPreserves(s, t);
    case AssistCheck(t) => AssistCheckPreserves(s, t);
    case AssistLeave(t) => AssistLeavePreserves(s, t);
  }

  lemma MutatorStepPreserves<O>(s: State<O>, a: Action<O>)
    requires Inv(s) && Enabled(s, a)
    requires a.SetEnter? || a.SetCheck? || a.SetShade? || a.SetMerge? || a.SetLeave?
          || a.Link? || a.Count? || a.Root? || a.Clone? || a.Drop?
    ensures Inv(Do(s, a))
  {
    hide Inv, WithPc, DoSetCheck, DoSetShade, DoSetMerge, DoSetLeave, DoLink, DoCount, AddRoots;
    match a
    case SetEnter(t, o, at, vals) => SetEnterPreserves(s, t, o, at, vals);
    case SetCheck(t) => SetCheckPreserves(s, t);
    case SetShade(t) => SetShadePreserves(s, t);
    case SetMerge(t) => SetMergePreserves(s, t);
    case SetLeave(t) => SetLeavePreserves(s, t);
    case Link(t, o, leaf, size, fields) => LinkPreserves(s, t, o, Object(White, 1, leaf, size, fields));
    case Count(t) => CountPreserves(s, t);
    case Root(o) => AddRootPreserves(s, o);
    case Clone(o) => AddRootPreserves(s, o);
    case Drop(o) => DropRootPreserves(s, o);
  }

  /** Every action keeps the invariant; the sweep does when what it keeps is closed under edges. */
  lemma StepPreserves<O>(s: State<O>, a: Action<O>)
    requires Inv(s) && Enabled(s, a)
    requires a.Sweep? ==> SurvivorsClosed(s.heap)
    ensures Inv(Do(s, a))
  {
    hide Inv, Do, Enabled, SurvivorsClosed;
    if a.Start? || a.RootScan? || a.HandOff? || a.Sweep? {
      CollectorStepPreserves(s, a);
    } else if a.SetEnter? || a.SetCheck? || a.SetShade? || a.SetMerge? || a.SetLeave? ||
              a.Link? || a.Count? || a.Root? || a.Clone? || a.Drop? {
      MutatorStepPreserves(s, a);
    } else {
      TracerStepPreserves(s, a);
    }
  }
}
