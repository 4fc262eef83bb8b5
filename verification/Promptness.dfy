/** Garbage does not linger: what is unreachable when a cycle starts is freed by that cycle's sweep. */
module Promptness {
  import opened Reachability
  import opened Protocol
  import opened Invariant
  import opened Preservation
  import opened HeapPreservation
  import opened CyclePreservation
  import opened Safety
  import opened RunSafety

  /** The pointers a GcCell::set in progress is about to store. */
  ghost function Pending<O>(pc: Pc<O>): seq<Option<O>> {
    if pc.SetEntered? || pc.SetShading? || pc.SetMerged? then pc.vals else []
  }

  /** Mutators store, root and build new objects from reachable objects only. */
  ghost predicate FromLive<O>(s: State<O>, a: Action<O>) {
    match a
    case Link(t, o, leaf, size, fields) => Pointers(fields) <= Live(s.heap)
    case Root(o) => o in Live(s.heap)
    case SetEnter(t, o, at, vals) => Pointers(vals) <= Live(s.heap)
    case _ => true
  }

  ghost predicate FromLiveRun<O>(s: State<O>, acts: seq<Action<O>>)
    decreases |acts|
  {
    acts != [] ==> Enabled(s, acts[0]) && FromLive(s, acts[0]) && FromLiveRun(Do(s, acts[0]), acts[1..])
  }

  /** Nothing outside `u` points into it, nothing in it is rooted, and no store is about to reach it. */
  ghost predicate CutOff<O>(heap: map<O, Object<O>>, threads: seq<Thread<O>>, ever: set<O>, u: set<O>) {
    && u <= ever
    && (forall o | o in u && o in heap :: heap[o].roots <= 0)
    && (forall o | o in heap && o !in u :: Pointers(heap[o].fields) !! u)
    && (forall t | 0 <= t < |threads| :: Pointers(Pending(threads[t].pc)) !! u)
  }

  ghost predicate AllWhite<O>(heap: map<O, Object<O>>, u: set<O>) {
    forall o | o in u && o in heap :: heap[o].color == White
  }

  lemma CutOffIsDead<O>(s: State<O>, u: set<O>)
    requires Inv(s) && CutOff(s.heap, s.threads, s.ever, u)
    ensures Live(s.heap) !! u
  {
    EdgesListed(s);
    hide Inv;
    var rest := s.heap.Keys - u;
    forall o | o in rest && o in Graph(s.heap) ensures Graph(s.heap)[o] <= rest {
      assert Listed(s.heap, s.heap[o].fields);
    }
    ReachIsLeast(Graph(s.heap), Rooted(s.heap), rest);
  }

  // ----- Cut-off objects stay cut off -----

  /** Same fields and root counts, wherever an object is still listed. */
  ghost predicate SameEdges<O>(h: map<O, Object<O>>, h': map<O, Object<O>>) {
    forall o | o in h' :: o in h && h'[o].fields == h[o].fields && h'[o].roots == h[o].roots
  }

  lemma CutOffFrame<O>(s: State<O>, s': State<O>, u: set<O>)
    requires CutOff(s.heap, s.threads, s.ever, u) && SameEdges(s.heap, s'.heap) && s'.ever == s.ever
    requires |s'.threads| == |s.threads|
    requires forall t | 0 <= t < |s.threads| :: Pending(s'.threads[t].pc) == Pending(s.threads[t].pc) || Pending(s'.threads[t].pc) == []
    ensures CutOff(s'.heap, s'.threads, s'.ever, u)
  {
    forall t | 0 <= t < |s'.threads| ensures Pointers(Pending(s'.threads[t].pc)) !! u {
      assert Pointers(Pending(s.threads[t].pc)) !! u;
    }
  }

  lemma StoreCutOff<O>(s: State<O>, t: nat, u: set<O>, o: O, at: nat, vals: seq<Option<O>>)
    requires t < |s.threads| && CutOff(s.heap, s.threads, s.ever, u)
    requires CanStore(s.heap, o, at, vals) && Pointers(vals) !! u
    ensures CutOff(DoStore(s, t, o, at, vals).heap, DoStore(s, t, o, at, vals).threads, s.ever, u)
  {
    var s' := DoStore(s, t, o, at, vals);
    StoreRewrites(s.heap, o, at, vals);
    forall x | x in s'.heap && x !in u ensures Pointers(s'.heap[x].fields) !! u {
      forall f | f in s'.heap[x].fields && f.Some? ensures f.value !in u {
        if f in s.heap[x].fields {
          assert f.value in Pointers(s.heap[x].fields);
        } else {
          assert f in vals && f.value in Pointers(vals);
        }
      }
    }
    forall i | 0 <= i < |s'.threads| ensures Pointers(Pending(s'.threads[i].pc)) !! u {
      assert Pointers(Pending(s.threads[i].pc)) !! u;
    }
  }

  lemma LinkCutOff<O>(s: State<O>, t: nat, u: set<O>, o: O, obj: Object<O>)
    requires t < |s.threads| && CutOff(s.heap, s.threads, s.ever, u)
    requires o !in s.ever && Pointers(obj.fields) !! u
    ensures CutOff(DoLink(s, t, o, obj).heap, DoLink(s, t, o, obj).threads, DoLink(s, t, o, obj).ever, u)
  {
    var s' := DoLink(s, t, o, obj);
    forall i | 0 <= i < |s'.threads| ensures Pointers(Pending(s'.threads[i].pc)) !! u {
      assert Pointers(Pending(s.threads[i].pc)) !! u;
    }
  }

  lemma EnterCutOff<O>(s: State<O>, t: nat, u: set<O>, pc: Pc<O>)
    requires t < |s.threads| && CutOff(s.heap, s.threads, s.ever, u) && Pointers(Pending(pc)) !! u
    ensures CutOff(s.heap, WithPc(s, t, pc).threads, s.ever, u)
  {
    var s' := WithPc(s, t, pc);
    forall i | 0 <= i < |s'.threads| ensures Pointers(Pending(s'.threads[i].pc)) !! u {
      assert Pointers(Pending(s.threads[i].pc)) !! u;
    }
  }

  lemma RootsCutOff<O>(s: State<O>, u: set<O>, o: O, n: int)
    requires o in s.heap && CutOff(s.heap, s.threads, s.ever, u) && (n > 0 ==> o !in u)
    ensures CutOff(AddRoots(s, o, n).heap, s.threads, s.ever, u)
  {
    var h' := AddRoots(s, o, n).heap;
    forall x | x in h' && x !in u ensures Pointers(h'[x].fields) !! u {
      assert h'[x].fields == s.heap[x].fields;
    }
  }

  lemma PendingCutOff<O>(s: State<O>, t: nat, u: set<O>)
    requires t < |s.threads| && CutOff(s.heap, s.threads, s.ever, u)
    ensures Pointers(Pending(s.threads[t].pc)) !! u
  {
  }

  ghost predicate IsMutation<O>(a: Action<O>) {
    a.SetEnter? || a.SetCheck? || a.SetLeave? || a.Link? || a.Root? || a.Clone? || a.Drop?
  }

  lemma MutationKeepsCutOff<O>(s: State<O>, a: Action<O>, u: set<O>)
    requires Inv(s) && Enabled(s, a) && FromLive(s, a) && IsMutation(a)
    requires CutOff(s.heap, s.threads, s.ever, u)
    ensures CutOff(Do(s, a).heap, Do(s, a).threads, Do(s, a).ever, u)
  {
    hide Inv, Live, CutOff, DoStore, DoLink;
    CutOffIsDead(s, u);
    match a
    case SetEnter(t, o, at, vals) => EnterCutOff(s, t, u, SetEntered(o, at, vals));
    case SetCheck(t) =>
      PendingCutOff(s, t, u);
      var pc := s.threads[t].pc;
      if s.phase == Marking {
        EnterCutOff(s, t, u, SetShading(pc.o, pc.at, pc.vals, 0));
      } else {
        StoreCutOff(s, t, u, pc.o, pc.at, pc.vals);
        StoreEver(s, t, pc.o, pc.at, pc.vals);
      }
    case SetLeave(t) =>
      PendingCutOff(s, t, u);
      var pc := s.threads[t].pc;
      StoreCutOff(s, t, u, pc.o, pc.at, pc.vals);
      StoreEver(s, t, pc.o, pc.at, pc.vals);
    case Link(t, o, leaf, size, fields) => LinkCutOff(s, t, u, o, Object(White, 1, leaf, size, fields));
    case Root(o) => RootsCutOff(s, u, o, 1);
    case Clone(o) =>
      HandleMeansRooted(s, o);
      RootedIsLive(s.heap, o);
      RootsCutOff(s, u, o, 1);
    case Drop(o) => RootsCutOff(s, u, o, -1);
  }

  lemma StoreEver<O>(s: State<O>, t: nat, o: O, at: nat, vals: seq<Option<O>>)
    requires t < |s.threads| && CanStore(s.heap, o, at, vals)
    ensures DoStore(s, t, o, at, vals).ever == s.ever
  {
  }

  lemma RootedIsLive<O>(h: map<O, Object<O>>, o: O)
    requires o in h && h[o].roots > 0
    ensures o in Live(h)
  {
    assert o in Rooted(h);
  }

  /** Collector and tracer steps change neither edges nor root counts, and no pending store. */
  ghost predicate SameMutatorView<O>(s: State<O>, s': State<O>) {
    && SameEdges(s.heap, s'.heap) && s'.ever == s.ever && |s'.threads| == |s.threads|
    && forall t | 0 <= t < |s.threads| ::
         Pending(s'.threads[t].pc) == Pending(s.threads[t].pc) || Pending(s'.threads[t].pc) == []
  }

  lemma ShadeView<O>(s: State<O>, t: nat, f: Option<O>)
    requires t < |s.threads|
    ensures SameMutatorView(s, Shade(s, t, f))
    ensures Shade(s, t, f).threads[t].pc == s.threads[t].pc
  {
  }

  lemma CollectorView<O>(s: State<O>, a: Action<O>)
    requires Enabled(s, a) && (a.Start? || a.RootScan? || a.HandOff? || a.Sweep? || a.Count? || a.Blacken?)
    ensures SameMutatorView(s, Do(s, a))
  {
    hide Enabled, Do, SameMutatorView;
    if a.RootScan? || a.Sweep? || a.Blacken? {
      HeapView(s, a);
    } else {
      PhaseView(s, a);
    }
  }

  lemma HeapView<O>(s: State<O>, a: Action<O>)
    requires Enabled(s, a) && (a.RootScan? || a.Sweep? || a.Blacken?)
    ensures SameMutatorView(s, Do(s, a))
  {
    hide SumSizes, Filter;
  }

  lemma PhaseView<O>(s: State<O>, a: Action<O>)
    requires Enabled(s, a) && (a.Start? || a.HandOff? || a.Count? || a.AssistEnter? || a.AssistCheck? || a.AssistLeave?)
    ensures SameMutatorView(s, Do(s, a))
  {
    hide SameMutatorView, Pending;
    NothingPending(s, a);
    PcView(s, a.t, Do(s, a).threads[a.t].pc, Do(s, a));
  }

  lemma NothingPending<O>(s: State<O>, a: Action<O>)
    requires Enabled(s, a) && (a.Start? || a.HandOff? || a.Count? || a.AssistEnter? || a.AssistCheck? || a.AssistLeave?)
    ensures a.t < |Do(s, a).threads| && Pending(Do(s, a).threads[a.t].pc) == []
  {
  }

  lemma PcView<O>(s: State<O>, t: nat, pc: Pc<O>, s': State<O>)
    requires t < |s.threads| && s'.threads == s.threads[t := s.threads[t].(pc := pc)] && Pending(pc) == []
    requires s'.heap == s.heap && s'.ever == s.ever
    ensures SameMutatorView(s, s')
  {
  }

  lemma WorkView<O>(s: State<O>, a: Action<O>)
    requires Enabled(s, a)
    requires a.Steal? || a.Pop? || a.Merge? || a.AssistEnter? || a.AssistCheck? || a.AssistLeave? || a.SetMerge?
    ensures SameMutatorView(s, Do(s, a))
  {
    hide Enabled, Do, SameMutatorView;
    if a.Steal? || a.Pop? || a.Merge? || a.SetMerge? {
      QueueView(s, a);
    } else {
      PhaseView(s, a);
    }
  }

  lemma QueueView<O>(s: State<O>, a: Action<O>)
    requires Enabled(s, a) && (a.Steal? || a.Pop? || a.Merge? || a.SetMerge?)
    ensures SameMutatorView(s, Do(s, a))
  {
    hide Reverse;
  }

  lemma ShadingView<O>(s: State<O>, a: Action<O>)
    requires Enabled(s, a) && (a.ScanField? || a.SetShade?)
    ensures SameMutatorView(s, Do(s, a))
  {
    hide Shade;
    if a.ScanField? {
      ShadeView(s, a.t, s.heap[s.threads[a.t].current.value.o].fields[s.threads[a.t].current.value.k]);
    } else {
      ShadeView(s, a.t, s.threads[a.t].pc.vals[s.threads[a.t].pc.done]);
    }
  }

  lemma StepKeepsCutOff<O>(s: State<O>, a: Action<O>, u: set<O>)
    requires Inv(s) && Enabled(s, a) && FromLive(s, a)
    requires CutOff(s.heap, s.threads, s.ever, u)
    ensures CutOff(Do(s, a).heap, Do(s, a).threads, Do(s, a).ever, u)
  {
    hide Inv, Do, Enabled, CutOff, FromLive;
    if IsMutation(a) {
      MutationKeepsCutOff(s, a, u);
    } else {
      if a.ScanField? || a.SetShade? {
        ShadingView(s, a);
      } else if a.Steal? || a.Pop? || a.Merge? || a.AssistEnter? || a.AssistCheck? || a.AssistLeave? || a.SetMerge? {
        WorkView(s, a);
      } else {
        CollectorView(s, a);
      }
      CutOffFrame(s, Do(s, a), u);
    }
  }

  // ----- Cut-off white objects stay white -----

  lemma ShadeSpares<O>(s: State<O>, t: nat, f: Option<O>, u: set<O>)
    requires t < |s.threads| && AllWhite(s.heap, u) && (f.Some? ==> f.value !in u)
    ensures AllWhite(Shade(s, t, f).heap, u)
  {
  }

  lemma CurrentIsShaded<O>(s: State<O>, t: nat)
    requires Inv(s) && HasCurrent(s, t)
    ensures s.heap[s.threads[t].current.value.o].color != White
  {
    var o := s.threads[t].current.value.o;
    assert o in HeldBy(s.threads[t]);
    QueuedIsShaded(s, t, o);
  }

  lemma ScanFieldSpares<O>(s: State<O>, t: nat, u: set<O>)
    requires Inv(s) && HasCurrent(s, t) && CutOff(s.heap, s.threads, s.ever, u) && AllWhite(s.heap, u)
    requires s.threads[t].current.value.k < |s.heap[s.threads[t].current.value.o].fields|
    ensures AllWhite(DoScanField(s, t).heap, u)
  {
    CurrentIsShaded(s, t);
    hide Inv, Shade;
    var c := s.threads[t].current.value;
    var f := s.heap[c.o].fields[c.k];
    if f.Some? {
      assert f.value in Pointers(s.heap[c.o].fields);
    }
    ShadeSpares(s, t, f, u);
  }

  lemma SetShadeSpares<O>(s: State<O>, t: nat, u: set<O>)
    requires t < |s.threads| && CutOff(s.heap, s.threads, s.ever, u) && AllWhite(s.heap, u)
    requires s.threads[t].pc.SetShading? && s.threads[t].pc.done < |s.threads[t].pc.vals|
    ensures AllWhite(DoSetShade(s, t).heap, u)
  {
    PendingCutOff(s, t, u);
    hide CutOff, Shade;
    var f := s.threads[t].pc.vals[s.threads[t].pc.done];
    if f.Some? {
      assert f.value in Pointers(s.threads[t].pc.vals);
    }
    ShadeSpares(s, t, f, u);
  }

  lemma RootScanSpares<O>(s: State<O>, t: nat, u: set<O>)
    requires t < |s.threads| && CutOff(s.heap, s.threads, s.ever, u) && AllWhite(s.heap, u)
    ensures AllWhite(DoRootScan(s, t).heap, u)
  {
    hide Filter;
  }

  lemma StoreSpares<O>(s: State<O>, t: nat, o: O, at: nat, vals: seq<Option<O>>, u: set<O>)
    requires t < |s.threads| && CanStore(s.heap, o, at, vals) && AllWhite(s.heap, u)
    ensures AllWhite(DoStore(s, t, o, at, vals).heap, u)
  {
  }

  lemma MutationSpares<O>(s: State<O>, a: Action<O>, u: set<O>)
    requires Enabled(s, a) && AllWhite(s.heap, u)
    requires a.SetCheck? || a.SetLeave? || a.Link? || a.Root? || a.Clone? || a.Drop? || a.Sweep?
    ensures AllWhite(Do(s, a).heap, u)
  {
    hide Filter, SumSizes, Listed, DoStore;
    match a
    case SetCheck(t) => StoreSpares(s, t, s.threads[t].pc.o, s.threads[t].pc.at, s.threads[t].pc.vals, u);
    case SetLeave(t) => StoreSpares(s, t, s.threads[t].pc.o, s.threads[t].pc.at, s.threads[t].pc.vals, u);
    case _ =>
  }

  lemma StepSpares<O>(s: State<O>, a: Action<O>, u: set<O>)
    requires Inv(s) && Enabled(s, a)
    requires CutOff(s.heap, s.threads, s.ever, u) && AllWhite(s.heap, u)
    ensures AllWhite(Do(s, a).heap, u)
  {
    hide Inv, CutOff, DoScanField, DoSetShade, DoRootScan, DoSweep, DoSteal, DoPop, DoMerge, DoAssistCheck, DoSetCheck,
         DoSetMerge, DoSetLeave, DoLink, DoCount, AddRoots, Listed;
    match a
    case ScanField(t) => ScanFieldSpares(s, t, u);
    case SetShade(t) => SetShadeSpares(s, t, u);
    case RootScan(t) => RootScanSpares(s, t, u);
    case Blacken(t) => CurrentIsShaded(s, t);
    case _ =>
      if a.SetCheck? || a.SetLeave? || a.Link? || a.Root? || a.Clone? || a.Drop? || a.Sweep? {
        MutationSpares(s, a, u);
      } else {
        HeapStays(s, a);
      }
  }

  lemma {:induction false} RunSpares<O>(s: State<O>, acts: seq<Action<O>>, u: set<O>)
    requires Inv(s) && FromLiveRun(s, acts) && Runs(s, acts) && NoSweep(acts)
    requires CutOff(s.heap, s.threads, s.ever, u) && AllWhite(s.heap, u)
    ensures var e := Exec(s, acts); Inv(e) && CutOff(e.heap, e.threads, e.ever, u) && AllWhite(e.heap, u)
    decreases |acts|
  {
    hide Inv, CutOff, AllWhite, FromLive;
    if acts != [] {
      var a := acts[0];
      assert a in acts;
      assert NoSweep(acts[1..]);
      StepKeepsCutOff(s, a, u);
      StepSpares(s, a, u);
      StepPreserves(s, a);
      RunSpares(Do(s, a), acts[1..], u);
    }
  }

  // ----- Garbage is freed -----

  lemma CutOffWhitesAreSwept<O>(s: State<O>, t: nat, u: set<O>)
    requires Inv(s) && Enabled(s, Sweep(t))
    requires CutOff(s.heap, s.threads, s.ever, u) && AllWhite(s.heap, u)
    ensures u !! Do(s, Sweep(t)).heap.Keys
  {
    SweepFreesOnlyDoomed(s, t);
  }

  /** What the tracer may still reach: from roots, from shaded objects, and from stores in progress. */
  ghost function InSight<O>(s: State<O>): set<O> {
    Reach(Graph(s.heap), Rooted(s.heap) + (set o | o in s.heap && s.heap[o].color != White)
                         + (set t, x | 0 <= t < |s.threads| && x in Pointers(Pending(s.threads[t].pc)) :: x))
  }

  lemma OutOfSightIsCutOff<O>(s: State<O>)
    requires Inv(s)
    ensures var u := s.heap.Keys - InSight(s);
      CutOff(s.heap, s.threads, s.ever, u) && AllWhite(s.heap, u)
  {
    hide Inv, InSight, Pending, CutOff, Pointers;
    EverListed(s);
    InSightFacts(s);
    ClosedIsCutOff(s.heap, s.threads, s.ever, InSight(s));
  }

  /** What lies outside a set that holds the roots and the pending stores and is closed under edges is cut off. */
  lemma ClosedIsCutOff<O>(heap: map<O, Object<O>>, threads: seq<Thread<O>>, ever: set<O>, r: set<O>)
    requires heap.Keys <= ever
    requires forall o | o in heap && o in r :: Pointers(heap[o].fields) <= r
    requires forall t | 0 <= t < |threads| :: Pointers(Pending(threads[t].pc)) <= r
    requires forall o | o in heap && heap[o].roots > 0 :: o in r
    ensures CutOff(heap, threads, ever, heap.Keys - r)
  {
    hide Pending, Pointers;
  }

  lemma EverListed<O>(s: State<O>)
    requires Inv(s)
    ensures s.heap.Keys <= s.ever
  {
  }

  lemma InSightFacts<O>(s: State<O>)
    ensures forall o | o in s.heap && o in InSight(s) :: Pointers(s.heap[o].fields) <= InSight(s)
    ensures forall t | 0 <= t < |s.threads| :: Pointers(Pending(s.threads[t].pc)) <= InSight(s)
    ensures forall o | o in s.heap && (s.heap[o].roots > 0 || s.heap[o].color != White) :: o in InSight(s)
  {
    hide Pending;
    forall o | o in s.heap && o in InSight(s) ensures Pointers(s.heap[o].fields) <= InSight(s) {
      assert Graph(s.heap)[o] <= InSight(s);
    }
    assert Rooted(s.heap) <= InSight(s);
  }

  /**
   * From any state of a cycle: what cannot be reached from a root, from a shaded object or from a store
   * in progress is freed by the sweep of that cycle.
   */
  lemma OutOfSightIsFreed<O>(s: State<O>, acts: seq<Action<O>>, t: nat)
    requires Inv(s) && FromLiveRun(s, acts) && Runs(s, acts) && NoSweep(acts)
    requires Enabled(Exec(s, acts), Sweep(t))
    ensures (s.heap.Keys - InSight(s)) !! Do(Exec(s, acts), Sweep(t)).heap.Keys
  {
    hide Inv, CutOff, AllWhite, InSight, Do;
    var u := s.heap.Keys - InSight(s);
    OutOfSightIsCutOff(s);
    RunSpares(s, acts, u);
    CutOffWhitesAreSwept(Exec(s, acts), t, u);
  }

  /** What is reachable from a root or from a value that a GcCell::set in progress is about to store. */
  ghost function InUse<O>(s: State<O>): set<O> {
    Reach(Graph(s.heap), Rooted(s.heap) + (set t, x | 0 <= t < |s.threads| && x in Pointers(Pending(s.threads[t].pc)) :: x))
  }

  /** When what is about to be stored is live, as with no store in progress, that is just what is live. */
  lemma InUseIsLive<O>(s: State<O>)
    requires forall t | 0 <= t < |s.threads| :: Pointers(Pending(s.threads[t].pc)) <= Live(s.heap)
    ensures InUse(s) == Live(s.heap)
  {
    hide Pending;
    var roots := Rooted(s.heap) + (set t, x | 0 <= t < |s.threads| && x in Pointers(Pending(s.threads[t].pc)) :: x);
    ReachIsLeast(Graph(s.heap), roots, Live(s.heap));
    ReachIsLeast(Graph(s.heap), Rooted(s.heap), InUse(s));
  }

  /** While everything is white, as between cycles, what is in sight is just what is in use. */
  lemma InSightIsInUse<O>(s: State<O>)
    requires AllWhite(s.heap, s.heap.Keys)
    ensures InSight(s) == InUse(s)
  {
    hide Pending;
    assert (set o | o in s.heap && s.heap[o].color != White) == {};
    var roots := Rooted(s.heap) + (set t, x | 0 <= t < |s.threads| && x in Pointers(Pending(s.threads[t].pc)) :: x);
    assert Rooted(s.heap) + {} + (set t, x | 0 <= t < |s.threads| && x in Pointers(Pending(s.threads[t].pc)) :: x) == roots;
  }

  lemma InUseFacts<O>(s: State<O>)
    ensures forall o | o in s.heap && o in InUse(s) :: Pointers(s.heap[o].fields) <= InUse(s)
    ensures forall t | 0 <= t < |s.threads| :: Pointers(Pending(s.threads[t].pc)) <= InUse(s)
    ensures forall o | o in s.heap && s.heap[o].roots > 0 :: o in InUse(s)
  {
    hide Pending;
    forall o | o in s.heap && o in InUse(s) ensures Pointers(s.heap[o].fields) <= InUse(s) {
      assert Graph(s.heap)[o] <= InUse(s);
    }
    assert Rooted(s.heap) <= InUse(s);
  }

  lemma DeadIsCutOff<O>(s: State<O>)
    requires Inv(s)
    ensures CutOff(s.heap, s.threads, s.ever, s.heap.Keys - InUse(s))
  {
    hide Inv, InUse, Pending, CutOff, Pointers;
    EverListed(s);
    InUseFacts(s);
    ClosedIsCutOff(s.heap, s.threads, s.ever, InUse(s));
  }

  lemma IdleIsWhite<O>(s: State<O>, u: set<O>)
    requires Inv(s) && s.phase == Idle
    ensures AllWhite(s.heap, u)
  {
  }

  /** What is unreachable when a cycle starts is freed by that cycle's sweep. */
  lemma DeadAtCycleStartIsFreed<O>(s: State<O>, acts: seq<Action<O>>, t: nat)
    requires Inv(s) && s.phase == Idle
    requires FromLiveRun(s, acts) && Runs(s, acts) && NoSweep(acts)
    requires Enabled(Exec(s, acts), Sweep(t))
    ensures (s.heap.Keys - InUse(s)) !! Do(Exec(s, acts), Sweep(t)).heap.Keys
  {
    hide Inv, CutOff, AllWhite, InUse, Do;
    var u := s.heap.Keys - InUse(s);
    DeadIsCutOff(s);
    IdleIsWhite(s, u);
    RunSpares(s, acts, u);
    CutOffWhitesAreSwept(Exec(s, acts), t, u);
  }

  lemma {:induction false} DeadStaysDead<O>(s: State<O>, acts: seq<Action<O>>, u: set<O>)
    requires Inv(s) && FromLiveRun(s, acts) && SafeRun(s, acts) && Runs(s, acts)
    requires CutOff(s.heap, s.threads, s.ever, u)
    ensures var e := Exec(s, acts); Inv(e) && CutOff(e.heap, e.threads, e.ever, u)
    decreases |acts|
  {
    hide Inv, CutOff, FromLive, RootedWhitesCovered, Live;
    if acts != [] {
      StepKeepsCutOff(s, acts[0], u);
      SafeStep(s, acts[0]);
      DeadStaysDead(Do(s, acts[0]), acts[1..], u);
    }
  }

  /**
   * An object that dies at any moment, in the middle of a cycle say, is gone after the next whole cycle:
   * `first` runs on to a point between cycles, `second` from there to a sweep.
   */
  lemma DeadIsGoneByTheNextCycle<O>(s: State<O>, first: seq<Action<O>>, second: seq<Action<O>>, t: nat)
    requires Inv(s)
    requires FromLiveRun(s, first) && SafeRun(s, first) && Runs(s, first) && Exec(s, first).phase == Idle
    requires FromLiveRun(Exec(s, first), second) && Runs(Exec(s, first), second) && NoSweep(second)
    requires Enabled(Exec(Exec(s, first), second), Sweep(t))
    ensures (s.heap.Keys - InUse(s)) !! Do(Exec(Exec(s, first), second), Sweep(t)).heap.Keys
  {
    hide Inv, CutOff, AllWhite, InUse, Do;
    var u := s.heap.Keys - InUse(s);
    DeadIsCutOff(s);
    DeadStaysDead(s, first, u);
    var m := Exec(s, first);
    IdleIsWhite(m, u);
    RunSpares(m, second, u);
    CutOffWhitesAreSwept(Exec(m, second), t, u);
  }
}
