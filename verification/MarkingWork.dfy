/** Marking computes reachability however its work is sliced and shared out, and does a bounded amount of it. */
module MarkingWork {
  import opened Reachability
  import opened Protocol
  import opened Invariant
  import opened Preservation
  import opened HeapPreservation
  import opened CyclePreservation
  import opened Safety
  import opened RunSafety
  import opened Promptness

  ghost predicate IsTracing<O>(a: Action<O>) {
    a.Steal? || a.Pop? || a.ScanField? || a.Blacken? || a.Merge? || a.AssistEnter? || a.AssistCheck? || a.AssistLeave?
  }

  ghost predicate TracingOnly<O>(acts: seq<Action<O>>) {
    forall a | a in acts :: IsTracing(a)
  }

  // ----- What tracing leaves alone -----

  /** Tracing changes nothing of an object but its colour. */
  ghost predicate SameButColor<O>(h: map<O, Object<O>>, h': map<O, Object<O>>) {
    h'.Keys == h.Keys && forall o | o in h :: h'[o] == h[o].(color := h'[o].color)
  }

  lemma SameButColorGraph<O>(h: map<O, Object<O>>, h': map<O, Object<O>>)
    requires SameButColor(h, h')
    ensures Graph(h') == Graph(h) && Rooted(h') == Rooted(h)
  {
  }

  ghost predicate TracingFrame<O>(s: State<O>, s': State<O>) {
    && SameButColor(s.heap, s'.heap) && s'.list == s.list && s'.phase == s.phase && s'.bytes == s.bytes
    && s'.scanned == s.scanned && s'.scanRoots == s.scanRoots && s'.collector == s.collector
    && s.enqueued <= s'.enqueued
  }

  lemma ShadeTracingFrame<O>(s: State<O>, t: nat, f: Option<O>)
    requires t < |s.threads|
    ensures TracingFrame(s, Shade(s, t, f))
  {
  }

  lemma TracingStepFrame<O>(s: State<O>, a: Action<O>)
    requires Enabled(s, a) && IsTracing(a)
    ensures TracingFrame(s, Do(s, a))
  {
    hide Enabled, Do, TracingFrame;
    if a.ScanField? {
      ScanFieldFrame(s, a.t);
    } else if a.Blacken? {
      BlackenFrame(s, a.t);
    } else if a.Steal? || a.Pop? || a.Merge? {
      QueueFrame(s, a);
    } else {
      AssistFrame(s, a);
    }
  }

  lemma ScanFieldFrame<O>(s: State<O>, t: nat)
    requires Enabled(s, ScanField(t))
    ensures TracingFrame(s, Do(s, ScanField(t)))
  {
    hide Shade;
    var c := s.threads[t].current.value;
    ShadeTracingFrame(s, t, s.heap[c.o].fields[c.k]);
  }

  lemma BlackenFrame<O>(s: State<O>, t: nat)
    requires Enabled(s, Blacken(t))
    ensures TracingFrame(s, Do(s, Blacken(t)))
  {
  }

  lemma QueueFrame<O>(s: State<O>, a: Action<O>)
    requires Enabled(s, a) && (a.Steal? || a.Pop? || a.Merge?)
    ensures TracingFrame(s, Do(s, a))
  {
    hide Reverse;
  }

  lemma AssistFrame<O>(s: State<O>, a: Action<O>)
    requires Enabled(s, a) && (a.AssistEnter? || a.AssistCheck? || a.AssistLeave?)
    ensures TracingFrame(s, Do(s, a))
  {
  }

  // ----- Only reachable objects are marked -----

  /** Everything marked is in `r`, a set closed under edges; leaves are enqueued only as roots. */
  ghost predicate MarkedWithin<O>(heap: map<O, Object<O>>, enqueued: multiset<O>, scanRoots: set<O>, r: set<O>) {
    && Closed(Graph(heap), r)
    && (forall o | o in heap && heap[o].color != White :: o in r)
    && (forall o | o in scanRoots :: o in enqueued)
    && (forall o | o in enqueued && o in heap && heap[o].leaf :: o in scanRoots)
  }

  lemma ShadeWithin<O>(s: State<O>, t: nat, f: Option<O>, r: set<O>)
    requires t < |s.threads| && MarkedWithin(s.heap, s.enqueued, s.scanRoots, r)
    requires f.Some? ==> f.value in r
    ensures MarkedWithin(Shade(s, t, f).heap, Shade(s, t, f).enqueued, s.scanRoots, r)
  {
    ShadeTracingFrame(s, t, f);
    SameButColorGraph(s.heap, Shade(s, t, f).heap);
  }

  lemma ScanFieldWithin<O>(s: State<O>, t: nat, r: set<O>)
    requires Inv(s) && HasCurrent(s, t) && MarkedWithin(s.heap, s.enqueued, s.scanRoots, r)
    requires s.threads[t].current.value.k < |s.heap[s.threads[t].current.value.o].fields|
    ensures MarkedWithin(DoScanField(s, t).heap, DoScanField(s, t).enqueued, s.scanRoots, r)
  {
    CurrentIsShaded(s, t);
    hide Inv, Shade;
    var c := s.threads[t].current.value;
    var f := s.heap[c.o].fields[c.k];
    if f.Some? {
      assert f.value in Pointers(s.heap[c.o].fields);
      assert c.o in Graph(s.heap) && c.o in r;
      assert Graph(s.heap)[c.o] <= r;
    }
    hide MarkedWithin;
    ShadeWithin(s, t, f, r);
  }

  lemma RaiseWithin<O>(h: map<O, Object<O>>, x: O, enqueued: multiset<O>, scanRoots: set<O>, r: set<O>)
    requires x in h && h[x].color != White && MarkedWithin(h, enqueued, scanRoots, r)
    ensures MarkedWithin(h[x := h[x].(color := Black)], enqueued, scanRoots, r)
  {
    SameButColorGraph(h, h[x := h[x].(color := Black)]);
  }

  lemma BlackenWithin<O>(s: State<O>, t: nat, r: set<O>)
    requires Inv(s) && HasCurrent(s, t) && MarkedWithin(s.heap, s.enqueued, s.scanRoots, r)
    ensures MarkedWithin(DoBlacken(s, t).heap, DoBlacken(s, t).enqueued, s.scanRoots, r)
  {
    hide Inv, MarkedWithin;
    CurrentIsShaded(s, t);
    RaiseWithin(s.heap, s.threads[t].current.value.o, s.enqueued, s.scanRoots, r);
  }

  lemma TracingStepWithin<O>(s: State<O>, a: Action<O>, r: set<O>)
    requires Inv(s) && Enabled(s, a) && IsTracing(a) && MarkedWithin(s.heap, s.enqueued, s.scanRoots, r)
    ensures MarkedWithin(Do(s, a).heap, Do(s, a).enqueued, Do(s, a).scanRoots, r)
  {
    hide Inv, MarkedWithin, Do, Enabled;
    if a.ScanField? {
      ScanFieldStepWithin(s, a.t, r);
    } else if a.Blacken? {
      BlackenStepWithin(s, a.t, r);
    } else {
      HeapStays(s, a);
      NothingEnqueued(s, a);
    }
    ScanRootsSame(s, a);
  }

  lemma ScanFieldStepWithin<O>(s: State<O>, t: nat, r: set<O>)
    requires Inv(s) && Enabled(s, ScanField(t)) && MarkedWithin(s.heap, s.enqueued, s.scanRoots, r)
    ensures MarkedWithin(Do(s, ScanField(t)).heap, Do(s, ScanField(t)).enqueued, s.scanRoots, r)
  {
    hide Inv, MarkedWithin, DoScanField;
    ScanFieldWithin(s, t, r);
  }

  lemma BlackenStepWithin<O>(s: State<O>, t: nat, r: set<O>)
    requires Inv(s) && Enabled(s, Blacken(t)) && MarkedWithin(s.heap, s.enqueued, s.scanRoots, r)
    ensures MarkedWithin(Do(s, Blacken(t)).heap, Do(s, Blacken(t)).enqueued, s.scanRoots, r)
  {
    hide Inv, MarkedWithin, DoBlacken;
    BlackenWithin(s, t, r);
  }

  lemma NothingEnqueued<O>(s: State<O>, a: Action<O>)
    requires Enabled(s, a) && IsTracing(a) && !a.ScanField? && !a.Blacken?
    ensures Do(s, a).enqueued == s.enqueued
  {
    hide Reverse;
  }

  lemma ScanRootsSame<O>(s: State<O>, a: Action<O>)
    requires Enabled(s, a) && IsTracing(a)
    ensures Do(s, a).scanRoots == s.scanRoots
  {
    hide Do, Enabled;
    TracingStepFrame(s, a);
  }

  lemma {:induction false} TracingRun<O>(s: State<O>, acts: seq<Action<O>>, r: set<O>)
    requires Inv(s) && Runs(s, acts) && TracingOnly(acts) && MarkedWithin(s.heap, s.enqueued, s.scanRoots, r)
    ensures var e := Exec(s, acts);
      Inv(e) && TracingFrame(s, e) && MarkedWithin(e.heap, e.enqueued, e.scanRoots, r)
    decreases |acts|
  {
    hide Inv, MarkedWithin, IsTracing;
    if acts != [] {
      var a := acts[0];
      assert a in acts;
      TracingStepPreservesAll(s, a, r);
      TracingRun(Do(s, a), acts[1..], r);
    }
  }

  lemma TracingStepPreservesAll<O>(s: State<O>, a: Action<O>, r: set<O>)
    requires Inv(s) && Enabled(s, a) && IsTracing(a) && MarkedWithin(s.heap, s.enqueued, s.scanRoots, r)
    ensures Inv(Do(s, a)) && TracingFrame(s, Do(s, a)) && MarkedWithin(Do(s, a).heap, Do(s, a).enqueued, Do(s, a).scanRoots, r)
  {
    hide Inv, MarkedWithin, Do, Enabled, TracingFrame;
    TracingStepFrame(s, a);
    TracingStepWithin(s, a, r);
    StepPreserves(s, a);
  }

  // ----- The end of marking -----

  lemma QuietMeansBlack<O>(s: State<O>)
    requires Inv(s) && Queued(s) == multiset{}
    ensures forall o | o in s.heap :: s.heap[o].color != Gray
    ensures forall o | o in s.heap && s.heap[o].color == Black && !s.heap[o].leaf :: o in s.enqueued
    ensures forall o | o in s.enqueued :: o in s.heap && s.heap[o].color != White
  {
    hide ShapeOk, ThreadsOk, CollectorOk, BusyOk, ColorsOk, RootsOk, BytesOk;
    assert forall o | o in s.heap && s.heap[o].color == Gray :: o in Queued(s);
  }

  lemma BlackIsClosed<O>(s: State<O>)
    requires Inv(s) && forall o | o in s.heap :: s.heap[o].color != Gray
    ensures Closed(Graph(s.heap), set o | o in s.heap && s.heap[o].color == Black)
  {
    hide ShapeOk, ThreadsOk, CollectorOk, BusyOk, QueueOk, RootsOk, BytesOk, Held, Births;
    assert ColorsOk(s.heap, s.scanRoots, s.phase);
    forall o | o in s.heap && s.heap[o].color == Black
      ensures forall x | x in Pointers(s.heap[o].fields) :: x in s.heap && s.heap[x].color == Black
    {
      ShadedPointers(s.heap, s.heap[o].fields);
    }
  }

  lemma BlackReaches<O>(s: State<O>)
    requires Inv(s) && forall o | o in s.heap :: s.heap[o].color != Gray
    ensures forall o | o in Reach(Graph(s.heap), s.scanRoots) :: o in s.heap && s.heap[o].color == Black
  {
    hide Inv;
    ScanRootsShaded(s);
    BlackIsClosed(s);
    var black := set o | o in s.heap && s.heap[o].color == Black;
    ReachIsLeast(Graph(s.heap), s.scanRoots, black);
  }

  /** When the collector may hand off, black is exactly `r`, and exactly the roots and non-leaves of `r` were enqueued. */
  lemma QuietMeansExact<O>(s: State<O>, t: nat, r: set<O>)
    requires Inv(s) && Enabled(s, HandOff(t)) && MarkedWithin(s.heap, s.enqueued, s.scanRoots, r)
    requires r == Reach(Graph(s.heap), s.scanRoots)
    ensures forall o | o in s.heap :: s.heap[o].color == if o in r then Black else White
    ensures forall o | o in s.heap :: o in s.enqueued <==> o in r && (o in s.scanRoots || !s.heap[o].leaf)
    ensures Queued(s) == multiset{}
  {
    hide Inv;
    HandOffQuiet(s, t);
    QuietMeansBlack(s);
    BlackReaches(s);
  }

  ghost function Started<O>(s: State<O>, t: nat): State<O>
    requires t < |s.threads|
  {
    WithPc(s, t, Starting).(phase := Marking, collector := t)
  }

  /** The state right after an undisturbed root scan. */
  ghost function Scanned<O>(s: State<O>, t: nat): State<O>
    requires t < |s.threads|
  {
    DoRootScan(Started(s, t), t)
  }

  lemma ScannedInTwoSteps<O>(s: State<O>, t: nat)
    requires Is(s, t, Ready) && s.phase == Idle && forall o | o in s.list :: o in s.heap
    ensures Enabled(s, Start(t)) && Enabled(Do(s, Start(t)), RootScan(t))
    ensures Scanned(s, t) == Do(Do(s, Start(t)), RootScan(t))
  {
    hide DoRootScan;
  }

  lemma ScanStartsMarking<O>(s: State<O>, t: nat)
    requires Inv(s) && Is(s, t, Ready) && s.phase == Idle
    ensures var m := Scanned(s, t);
      && Inv(m) && m.phase == Marking && m.scanRoots == Rooted(s.heap)
      && SameButColor(s.heap, m.heap) && m.list == s.list && m.bytes == s.bytes
      && MarkedWithin(m.heap, m.enqueued, m.scanRoots, Live(s.heap))
      && Queued(m) == m.enqueued
  {
    hide Inv, MarkedWithin, Queued, Live, Filter, GrayRoots, Unmarked, Rooted, AllWhite, SameButColor;
    StartPreserves(s, t);
    RootScanPreserves(Started(s, t), t);
    IdleHasNoWork(s);
    IdleIsWhite(s, s.heap.Keys);
    FoundAll(s);
    RootsWithin(s.heap, Filter(s.list, Unmarked(s.heap)));
    assert multiset{} + multiset(Filter(s.list, Unmarked(s.heap))) == multiset(Filter(s.list, Unmarked(s.heap)));
    ScanQueuesRoots(s, t);
  }

  lemma RootsWithin<O>(h: map<O, Object<O>>, found: seq<O>)
    requires AllWhite(h, h.Keys)
    requires (forall o | o in Rooted(h) :: o in found) && (forall o | o in found :: o in Rooted(h))
    ensures MarkedWithin(GrayRoots(h), multiset(found), Rooted(h), Live(h))
    ensures SameButColor(h, GrayRoots(h))
  {
    SameButColorGraph(h, GrayRoots(h));
    assert Rooted(h) <= Live(h);
  }

  lemma ScanQueuesRoots<O>(s: State<O>, t: nat)
    requires t < |s.threads| && s.shared == [] && Held(s.threads) == multiset{} && s.enqueued == multiset{}
    ensures Queued(Scanned(s, t)) == Scanned(s, t).enqueued
  {
    hide Filter, Unmarked, GrayRoots, HeldBy, Held;
    SamePcKeepsWork(s.threads[t], Collecting);
    HeldSame(s.threads, t, s.threads[t].(pc := Collecting));
    PlusNothing(Filter(s.list, Unmarked(s.heap)));
    assert Scanned(s, t).threads == s.threads[t := s.threads[t].(pc := Collecting)];
  }

  lemma SamePcKeepsWork<O>(th: Thread<O>, pc: Pc<O>)
    ensures HeldBy(th.(pc := pc)) == HeldBy(th)
  {
  }

  lemma PlusNothing<O>(found: seq<O>)
    ensures multiset([] + found) + multiset{} == multiset{} + multiset(found)
  {
    assert [] + found == found;
  }

  lemma IdleHasNoWork<O>(s: State<O>)
    requires Inv(s) && s.phase == Idle
    ensures Queued(s) == multiset{} && s.enqueued == multiset{} && s.shared == [] && Held(s.threads) == multiset{}
  {
    IdleIsWhite(s, s.heap.Keys);
    forall o ensures o !in s.enqueued {
      assert o in s.heap ==> s.heap[o].color == White;
    }
    if s.shared != [] {
      SharedIsQueued(s.shared, Held(s.threads));
    }
    assert Held(s.threads) <= Queued(s);
  }

  lemma FoundAll<O>(s: State<O>)
    requires Inv(s) && s.phase == Idle
    ensures forall o | o in s.list :: o in s.heap
    ensures forall o | o in Rooted(s.heap) :: o in Filter(s.list, Unmarked(s.heap))
    ensures forall o | o in Filter(s.list, Unmarked(s.heap)) :: o in Rooted(s.heap)
  {
  }

  /**
   * Slicing does not matter: from an idle heap, a root scan and any interleaving of tracer steps, of the
   * collector and of assisting mutators, that has come to an end has blackened exactly the live objects.
   */
  lemma MarkingIsReachability<O>(s: State<O>, t: nat, acts: seq<Action<O>>, u: nat)
    requires Inv(s) && Is(s, t, Ready) && s.phase == Idle
    requires Runs(Scanned(s, t), acts) && TracingOnly(acts) && Enabled(Exec(Scanned(s, t), acts), HandOff(u))
    ensures var e := Exec(Scanned(s, t), acts);
      && SameButColor(s.heap, e.heap)
      && (forall o | o in e.heap :: e.heap[o].color == if o in Live(s.heap) then Black else White)
      && (forall o | o in e.heap :: o in e.enqueued <==> o in Live(s.heap) && (s.heap[o].roots > 0 || !s.heap[o].leaf))
  {
    hide Inv, Scanned, MarkedWithin, Enabled, Live, TracingOnly;
    ScanStartsMarking(s, t);
    var m := Scanned(s, t);
    TracingRun(m, acts, Live(s.heap));
    var e := Exec(m, acts);
    SameButColorGraph(s.heap, m.heap);
    SameButColorGraph(m.heap, e.heap);
    LiveDef(s.heap);
    QuietMeansExact(e, u, Live(s.heap));
  }

  lemma LiveDef<O>(h: map<O, Object<O>>)
    ensures Live(h) == Reach(Graph(h), Rooted(h))
  {
  }

  /** Same heap, but no object is marked as a leaf: every marked object goes through a work list. */
  ghost function WithoutLeaves<O>(h: map<O, Object<O>>): map<O, Object<O>> {
    map o | o in h :: h[o].(leaf := false)
  }

  lemma SameGraphWithoutLeaves<O>(h: map<O, Object<O>>)
    ensures Graph(WithoutLeaves(h)) == Graph(h) && Rooted(WithoutLeaves(h)) == Rooted(h) && WithoutLeaves(h).Keys == h.Keys
    ensures Live(WithoutLeaves(h)) == Live(h)
  {
    var h' := WithoutLeaves(h);
    assert Graph(h') == Graph(h) && Rooted(h') == Rooted(h);
  }

  lemma WithoutLeavesShape<O>(h: map<O, Object<O>>, list: seq<O>, ever: set<O>, phase: Phase, scanned: bool, threads: seq<Thread<O>>)
    requires ShapeOk(h, list, ever) && ThreadsOk(h, phase, scanned, threads)
    ensures ShapeOk(WithoutLeaves(h), list, ever) && ThreadsOk(WithoutLeaves(h), phase, scanned, threads)
  {
    var h' := WithoutLeaves(h);
    forall i | 0 <= i < |threads| ensures PcOk(h', phase, scanned, threads[i].pc) && WorkOk(h', threads[i]) {
      assert PcOk(h, phase, scanned, threads[i].pc) && WorkOk(h, threads[i]);
    }
  }

  lemma WithoutLeavesMarks<O>(h: map<O, Object<O>>, handles: multiset<O>, births: multiset<O>)
    requires QueueOk(h, multiset{}, multiset{}, Idle) && ColorsOk(h, {}, Idle) && RootsOk(h, handles, births)
    ensures var h' := WithoutLeaves(h);
      QueueOk(h', multiset{}, multiset{}, Idle) && ColorsOk(h', {}, Idle) && RootsOk(h', handles, births)
  {
  }

  lemma WithoutLeavesBytes<O>(h: map<O, Object<O>>, list: seq<O>, bytes: int, threads: seq<Thread<O>>)
    requires BytesOk(h, list, bytes, threads)
    ensures BytesOk(WithoutLeaves(h), list, bytes, threads)
  {
    SumSizesFrame(list, h, WithoutLeaves(h));
  }

  lemma NoScanRootsWhenIdle<O>(s: State<O>)
    requires Inv(s) && s.phase == Idle
    ensures s.scanRoots == {}
  {
    IdleIsWhite(s, s.heap.Keys);
    ScanRootsShaded(s);
    hide Inv;
  }

  lemma WithoutLeavesIsWellFormed<O>(s: State<O>)
    requires Inv(s) && s.phase == Idle
    ensures Inv(s.(heap := WithoutLeaves(s.heap)))
  {
    hide ShapeOk, ThreadsOk, CollectorOk, QueueOk, ColorsOk, RootsOk, BytesOk, BusyOk, Held, Births, WithoutLeaves;
    IdleHasNoWork(s);
    NoScanRootsWhenIdle(s);
    WithoutLeavesShape(s.heap, s.list, s.ever, s.phase, s.scanned, s.threads);
    WithoutLeavesMarks(s.heap, s.handles, Births(s.threads));
    WithoutLeavesBytes(s.heap, s.list, s.bytes, s.threads);
  }

  /** The NO_TRACE shortcut is sound: blackening leaves at once marks what enqueueing and scanning them would. */
  lemma LeafShortcutIsSound<O>(s: State<O>, t: nat, acts: seq<Action<O>>, u: nat, acts': seq<Action<O>>, u': nat)
    requires Inv(s) && Is(s, t, Ready) && s.phase == Idle
    requires Runs(Scanned(s, t), acts) && TracingOnly(acts) && Enabled(Exec(Scanned(s, t), acts), HandOff(u))
    requires var s' := s.(heap := WithoutLeaves(s.heap));
      Runs(Scanned(s', t), acts') && TracingOnly(acts') && Enabled(Exec(Scanned(s', t), acts'), HandOff(u'))
    ensures var e, e' := Exec(Scanned(s, t), acts), Exec(Scanned(s.(heap := WithoutLeaves(s.heap)), t), acts');
      e.heap.Keys == e'.heap.Keys && forall o | o in e.heap :: e.heap[o].color == e'.heap[o].color
  {
    hide Inv, Scanned, Enabled, TracingOnly, Runs, Exec;
    var s' := s.(heap := WithoutLeaves(s.heap));
    WithoutLeavesIsWellFormed(s);
    SameGraphWithoutLeaves(s.heap);
    MarkingIsReachability(s, t, acts, u);
    MarkingIsReachability(s', t, acts', u');
  }

  // ----- How much work marking does -----

  ghost function Whites<O>(h: map<O, Object<O>>): set<O> {
    set o | o in h && h[o].color == White
  }

  /** Objects traced to the end in this cycle. */
  ghost function Finished<O>(s: State<O>): int {
    |s.enqueued| - |Queued(s)|
  }

  /** An upper bound on what marking has left to do: two steps for a white object, one for a queued one. */
  ghost function Measure<O>(s: State<O>): nat {
    2 * |Whites(s.heap)| + |Queued(s)|
  }

  ghost predicate InMarkingPhase<O>(a: Action<O>) {
    !a.Start? && !a.RootScan? && !a.HandOff? && !a.Sweep?
  }

  /** What one action does to the two counts. */
  ghost predicate StepAccounts<O>(s: State<O>, a: Action<O>, s': State<O>) {
    && Finished(s') == Finished(s) + (if a.Blacken? then 1 else 0)
    && Measure(s') + (|s'.enqueued| - |s.enqueued|) + (if a.Blacken? then 1 else 0)
         <= Measure(s) + (if a.Link? then 2 else 0)
    && |s.enqueued| <= |s'.enqueued|
  }

  lemma LeavesWhite<O>(h: map<O, Object<O>>, x: O, c: Color)
    requires x in h && c != White
    ensures var h' := h[x := h[x].(color := c)];
      Whites(h') == Whites(h) - {x} && |Whites(h')| == |Whites(h)| - (if h[x].color == White then 1 else 0)
  {
    var h' := h[x := h[x].(color := c)];
    assert Whites(h') == Whites(h) - {x};
  }

  lemma ShadeAccounts<O>(s: State<O>, t: nat, f: Option<O>)
    requires t < |s.threads|
    ensures var s' := Shade(s, t, f);
      && Finished(s') == Finished(s) && |s.enqueued| <= |s'.enqueued|
      && Measure(s') + (|s'.enqueued| - |s.enqueued|) <= Measure(s)
  {
    hide Held, HeldBy, Whites;
    if f.Some? && f.value in s.heap {
      var x := f.value;
      if s.heap[x].leaf {
        LeavesWhite(s.heap, x, Black);
      } else if s.heap[x].color == White {
        LeavesWhite(s.heap, x, Gray);
        PushHeld(s.threads, t, x);
        assert multiset(s.shared) + (Held(s.threads) + multiset{x}) == Queued(s) + multiset{x};
      }
    }
  }

  lemma ScanFieldAccounts<O>(s: State<O>, t: nat)
    requires HasCurrent(s, t) && s.threads[t].current.value.k < |s.heap[s.threads[t].current.value.o].fields|
    ensures var s' := DoScanField(s, t);
      && Finished(s') == Finished(s) && |s.enqueued| <= |s'.enqueued|
      && Measure(s') + (|s'.enqueued| - |s.enqueued|) <= Measure(s)
  {
    hide Shade, Held, HeldBy;
    var c := s.threads[t].current.value;
    var m := Shade(s, t, s.heap[c.o].fields[c.k]);
    ShadeView(s, t, s.heap[c.o].fields[c.k]);
    ShadeCurrent(s, t, s.heap[c.o].fields[c.k]);
    ShadeAccounts(s, t, s.heap[c.o].fields[c.k]);
    SameObjectSameHold(m.threads[t], Scan(c.o, c.k + 1));
    HeldSame(m.threads, t, m.threads[t].(current := Some(Scan(c.o, c.k + 1))));
  }

  lemma ShadeCurrent<O>(s: State<O>, t: nat, f: Option<O>)
    requires t < |s.threads|
    ensures Shade(s, t, f).threads[t].current == s.threads[t].current
  {
  }

  lemma SetShadeAccounts<O>(s: State<O>, t: nat)
    requires t < |s.threads| && s.threads[t].pc.SetShading? && s.threads[t].pc.done < |s.threads[t].pc.vals|
    ensures var s' := DoSetShade(s, t);
      && Finished(s') == Finished(s) && |s.enqueued| <= |s'.enqueued|
      && Measure(s') + (|s'.enqueued| - |s.enqueued|) <= Measure(s)
  {
    hide Shade, Held, HeldBy;
    var pc := s.threads[t].pc;
    ShadeView(s, t, pc.vals[pc.done]);
    ShadeAccounts(s, t, pc.vals[pc.done]);
    var m := Shade(s, t, pc.vals[pc.done]);
    SamePcKeepsWork(m.threads[t], pc.(done := pc.done + 1));
    HeldSame(m.threads, t, m.threads[t].(pc := pc.(done := pc.done + 1)));
  }

  lemma BlackenAccounts<O>(s: State<O>, t: nat)
    requires HasCurrent(s, t)
    ensures var s' := DoBlacken(s, t);
      Finished(s') == Finished(s) + 1 && s'.enqueued == s.enqueued && Measure(s') + 1 <= Measure(s)
  {
    var c := s.threads[t].current.value;
    LeavesWhite(s.heap, c.o, Black);
    ReleaseHeld(s.threads, t, c);
    var s' := DoBlacken(s, t);
    hide Held;
    assert Queued(s) == Queued(s') + multiset{c.o};
  }

  lemma StoreAccounts<O>(s: State<O>, t: nat, o: O, at: nat, vals: seq<Option<O>>)
    requires t < |s.threads| && CanStore(s.heap, o, at, vals)
    ensures Finished(DoStore(s, t, o, at, vals)) == Finished(s) && Measure(DoStore(s, t, o, at, vals)) == Measure(s)
    ensures DoStore(s, t, o, at, vals).enqueued == s.enqueued
  {
    var s' := DoStore(s, t, o, at, vals);
    StoreRewrites(s.heap, o, at, vals);
    assert Whites(s'.heap) == Whites(s.heap);
    SamePcKeepsWork(s.threads[t], Ready);
    HeldSame(s.threads, t, s'.threads[t]);
  }

  lemma WhitesGrow<O>(h: map<O, Object<O>>, o: O, obj: Object<O>)
    requires o !in h && obj.color == White
    ensures |Whites(h[o := obj])| == |Whites(h)| + 1
  {
    assert Whites(h[o := obj]) == Whites(h) + {o};
  }

  lemma LinkAccounts<O>(s: State<O>, t: nat, o: O, obj: Object<O>)
    requires t < |s.threads| && o !in s.heap && obj.color == White
    ensures Finished(DoLink(s, t, o, obj)) == Finished(s) && Measure(DoLink(s, t, o, obj)) == Measure(s) + 2
    ensures DoLink(s, t, o, obj).enqueued == s.enqueued
  {
    hide Held, HeldBy, Whites;
    WhitesGrow(s.heap, o, obj);
    PcAccounts(s, t, Counting(o, obj.size));
  }

  lemma AddRootsAccounts<O>(s: State<O>, o: O, n: int)
    requires o in s.heap
    ensures Whites(AddRoots(s, o, n).heap) == Whites(s.heap)
  {
  }

  lemma PcAccounts<O>(s: State<O>, t: nat, pc: Pc<O>)
    requires t < |s.threads|
    ensures Held(WithPc(s, t, pc).threads) == Held(s.threads)
  {
    SamePcKeepsWork(s.threads[t], pc);
    HeldSame(s.threads, t, s.threads[t].(pc := pc));
  }

  lemma SetMergeMovesWork<O>(s: State<O>, t: nat)
    requires t < |s.threads| && s.threads[t].pc.SetShading?
    ensures Queued(DoSetMerge(s, t)) == Queued(s)
  {
    hide Held, HeldBy;
    MergeMovesWork(s, t);
    var pc := s.threads[t].pc;
    PcAccounts(DoMerge(s, t), t, SetMerged(pc.o, pc.at, pc.vals));
  }

  /** Moving work about loses and duplicates none of it. */
  lemma WorkIsConserved<O>(s: State<O>, a: Action<O>)
    requires Enabled(s, a) && (a.Steal? || a.Merge? || a.Pop? || a.SetMerge?)
    ensures Queued(Do(s, a)) == Queued(s)
  {
    hide DoSteal, DoPop, DoMerge, DoSetMerge, Queued;
    match a
    case Steal(t) => StealMovesWork(s, t);
    case Pop(t) => PopMovesWork(s, t);
    case Merge(t) => MergeMovesWork(s, t);
    case SetMerge(t) => SetMergeMovesWork(s, t);
  }

  lemma TracerAccounts<O>(s: State<O>, a: Action<O>)
    requires Inv(s) && Enabled(s, a) && (IsTracing(a) || a.SetShade? || a.SetMerge?)
    ensures StepAccounts(s, a, Do(s, a))
  {
    hide Inv, DoScanField, DoBlacken, DoSetShade, Queued, Held, Whites, Reverse;
    match a
    case Steal(t) => StealMovesWork(s, t);
    case Pop(t) => PopMovesWork(s, t);
    case Merge(t) => MergeMovesWork(s, t);
    case ScanField(t) => ScanFieldAccounts(s, t);
    case Blacken(t) => BlackenAccounts(s, t);
    case SetShade(t) => SetShadeAccounts(s, t);
    case SetMerge(t) => SetMergeMovesWork(s, t);
    case _ => AssistAccounts(s, a);
  }

  lemma AssistAccounts<O>(s: State<O>, a: Action<O>)
    requires Enabled(s, a) && (a.AssistEnter? || a.AssistCheck? || a.AssistLeave?)
    ensures Queued(Do(s, a)) == Queued(s) && Do(s, a).heap == s.heap && Do(s, a).enqueued == s.enqueued
  {
    hide Held;
    PcAccounts(s, a.t, Do(s, a).threads[a.t].pc);
  }

  lemma SetAccounts<O>(s: State<O>, a: Action<O>)
    requires Enabled(s, a) && (a.SetEnter? || a.SetCheck? || a.SetLeave?)
    ensures StepAccounts(s, a, Do(s, a))
  {
    hide DoStore, Held, Whites, Listed;
    match a
    case SetEnter(t, o, at, vals) => PcAccounts(s, t, SetEntered(o, at, vals));
    case SetCheck(t) =>
      var pc := s.threads[t].pc;
      if s.phase == Marking {
        PcAccounts(s, t, SetShading(pc.o, pc.at, pc.vals, 0));
      } else {
        StoreAccounts(s, t, pc.o, pc.at, pc.vals);
      }
    case SetLeave(t) => StoreAccounts(s, t, s.threads[t].pc.o, s.threads[t].pc.at, s.threads[t].pc.vals);
  }

  lemma LinkStepAccounts<O>(s: State<O>, t: nat, o: O, leaf: bool, size: nat, fields: seq<Option<O>>)
    requires Inv(s) && Enabled(s, Link(t, o, leaf, size, fields))
    ensures StepAccounts(s, Link(t, o, leaf, size, fields), Do(s, Link(t, o, leaf, size, fields)))
  {
    hide Inv, DoLink, Queued, Whites, Listed;
    LinkFacts(s, t, o, Object(White, 1, leaf, size, fields));
    LinkAccounts(s, t, o, Object(White, 1, leaf, size, fields));
  }

  lemma HandleAccounts<O>(s: State<O>, a: Action<O>)
    requires Enabled(s, a) && (a.Count? || a.Root? || a.Clone? || a.Drop?)
    ensures StepAccounts(s, a, Do(s, a))
  {
    hide Held, Whites;
    match a
    case Count(t) => PcAccounts(s, t, Ready);
    case Root(o) => AddRootsAccounts(s, o, 1);
    case Clone(o) => AddRootsAccounts(s, o, 1);
    case Drop(o) => AddRootsAccounts(s, o, -1);
  }

  lemma MutationAccounts<O>(s: State<O>, a: Action<O>)
    requires Inv(s) && Enabled(s, a) && (IsMutation(a) || a.Count?)
    ensures StepAccounts(s, a, Do(s, a))
  {
    hide Inv, Do, Enabled, StepAccounts;
    if a.SetEnter? || a.SetCheck? || a.SetLeave? {
      SetAccounts(s, a);
    } else if a.Link? {
      LinkStepAccounts(s, a.t, a.o, a.leaf, a.size, a.fields);
    } else {
      HandleAccounts(s, a);
    }
  }

  ghost function Blackenings<O>(acts: seq<Action<O>>): nat {
    if acts == [] then 0 else (if acts[0].Blacken? then 1 else 0) + Blackenings(acts[1..])
  }

  ghost function Links<O>(acts: seq<Action<O>>): nat {
    if acts == [] then 0 else (if acts[0].Link? then 1 else 0) + Links(acts[1..])
  }

  /**
   * Marking terminates: over any stretch of a marking phase, the objects traced plus the objects newly
   * enqueued are bounded by what was white or queued at its start and two for each allocation. Stores,
   * however many, add nothing.
   */
  lemma {:induction false} MarkingIsBounded<O>(s: State<O>, acts: seq<Action<O>>)
    requires Inv(s) && Runs(s, acts) && forall a | a in acts :: InMarkingPhase(a)
    ensures var e := Exec(s, acts);
      && Inv(e) && |s.enqueued| <= |e.enqueued|
      && Measure(e) + Blackenings(acts) + (|e.enqueued| - |s.enqueued|) <= Measure(s) + 2 * Links(acts)
      && Finished(e) == Finished(s) + Blackenings(acts)
    decreases |acts|
  {
    hide Inv, Measure, Finished;
    if acts != [] {
      var a := acts[0];
      assert a in acts;
      assert forall b | b in acts[1..] :: b in acts;
      StepAccounted(s, a);
      StepPreserves(s, a);
      MarkingIsBounded(Do(s, a), acts[1..]);
    }
  }

  lemma StepAccounted<O>(s: State<O>, a: Action<O>)
    requires Inv(s) && Enabled(s, a) && InMarkingPhase(a)
    ensures StepAccounts(s, a, Do(s, a))
  {
    hide Inv, Enabled, Do, StepAccounts;
    if IsMutation(a) || a.Count? {
      MutationAccounts(s, a);
    } else {
      TracerAccounts(s, a);
    }
  }

  /** Each object is enqueued at most once, so the objects enqueued can be counted as a set. */
  lemma EnqueuedAsSet<O>(s: State<O>, x: set<O>)
    requires Inv(s) && (forall o | o in s.enqueued :: o in x) && (forall o | o in x :: o in s.enqueued)
    ensures |s.enqueued| == |x|
  {
    assert forall o | o in s.enqueued :: s.enqueued[o] == 1;
    hide Inv;
    assert s.enqueued == multiset(x);
  }

  /** Tracing lowers the measure by at least the number of objects finished. */
  lemma TracingIsProgress<O>(s: State<O>, acts: seq<Action<O>>)
    requires Inv(s) && Runs(s, acts) && TracingOnly(acts)
    ensures Measure(Exec(s, acts)) + Blackenings(acts) <= Measure(s)
    ensures Finished(Exec(s, acts)) == Finished(s) + Blackenings(acts)
  {
    hide Inv, Measure, Finished;
    assert forall a | a in acts :: IsTracing(a);
    NoLinks(acts);
    MarkingIsBounded(s, acts);
  }

  lemma {:induction false} NoLinks<O>(acts: seq<Action<O>>)
    requires TracingOnly(acts)
    ensures Links(acts) == 0
  {
    if acts != [] {
      assert acts[0] in acts;
      assert forall a | a in acts[1..] :: a in acts;
      NoLinks(acts[1..]);
    }
  }

  /** What a cycle has to trace: the live objects that are rooted or may hold pointers. */
  ghost function ToTrace<O>(h: map<O, Object<O>>): set<O> {
    set o | o in h && o in Live(h) && (h[o].roots > 0 || !h[o].leaf)
  }

  /** However it is sliced and shared out, a complete marking traces each object of `ToTrace` exactly once. */
  lemma MarkingTracesEachOnce<O>(s: State<O>, t: nat, acts: seq<Action<O>>, u: nat)
    requires Inv(s) && Is(s, t, Ready) && s.phase == Idle
    requires Runs(Scanned(s, t), acts) && TracingOnly(acts) && Enabled(Exec(Scanned(s, t), acts), HandOff(u))
    ensures Blackenings(acts) == |ToTrace(s.heap)|
  {
    hide Inv, Scanned, Enabled, Live, TracingOnly, Queued, MarkedWithin;
    MarkingIsReachability(s, t, acts, u);
    ScanStartsMarking(s, t);
    TracingIsProgress(Scanned(s, t), acts);
    var e := Exec(Scanned(s, t), acts);
    TracingKeepsInv(s, t, acts);
    QuietAtHandOff(e, u);
    EnqueuedAsSet(e, ToTrace(s.heap));
  }

  lemma QuietAtHandOff<O>(e: State<O>, u: nat)
    requires Inv(e) && Enabled(e, HandOff(u))
    ensures Queued(e) == multiset{} && forall o | o in e.enqueued :: o in e.heap
  {
    hide Inv;
    HandOffQuiet(e, u);
    QuietMeansBlack(e);
  }

  lemma TracingKeepsInv<O>(s: State<O>, t: nat, acts: seq<Action<O>>)
    requires Inv(s) && Is(s, t, Ready) && s.phase == Idle && Runs(Scanned(s, t), acts) && TracingOnly(acts)
    ensures Inv(Exec(Scanned(s, t), acts))
  {
    hide Inv, Scanned, MarkedWithin, Live, TracingOnly, Queued;
    ScanStartsMarking(s, t);
    TracingRun(Scanned(s, t), acts, Live(s.heap));
  }

  /** After a complete undisturbed marking the sweep keeps exactly the live objects, a closed set. */
  lemma SweepAfterMarking<O>(s: State<O>, t: nat, acts: seq<Action<O>>, u: nat)
    requires Inv(s) && Is(s, t, Ready) && s.phase == Idle
    requires Runs(Scanned(s, t), acts) && TracingOnly(acts) && Enabled(Exec(Scanned(s, t), acts), HandOff(u))
    ensures var e := Exec(Scanned(s, t), acts);
      Inv(e) && Survivors(e.heap) == Live(s.heap) && SurvivorsClosed(e.heap) && SameButColor(s.heap, e.heap)
  {
    hide Inv, Scanned, Enabled, Live, TracingOnly;
    MarkingIsReachability(s, t, acts, u);
    TracingKeepsInv(s, t, acts);
    LiveIsListed(s);
    LiveFacts(s.heap);
  }

  lemma LiveFacts<O>(h: map<O, Object<O>>)
    ensures forall o | o in h && h[o].roots > 0 :: o in Live(h)
    ensures forall o, i | o in Live(h) && o in h && 0 <= i < |h[o].fields| && h[o].fields[i].Some? :: h[o].fields[i].value in Live(h)
  {
    forall o | o in h && h[o].roots > 0 ensures o in Live(h) {
      assert o in Rooted(h);
    }
    forall o, i | o in Live(h) && o in h && 0 <= i < |h[o].fields| && h[o].fields[i].Some?
      ensures h[o].fields[i].value in Live(h)
    {
      assert h[o].fields[i].value in Graph(h)[o];
    }
  }
}
