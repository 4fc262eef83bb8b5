/** What the invariant buys: nothing that is still needed is ever swept. */
module Safety {
  import opened Reachability
  import opened Protocol
  import opened Invariant
  import opened Preservation
  import opened HeapPreservation
  import opened CyclePreservation

  // ----- One cycle, no assumption on the mutators -----

  /** No black object, and no part of an object already handed to a tracer, points to a white object. */
  ghost predicate TriColour<O>(s: State<O>) {
    && (forall o | o in s.heap && s.heap[o].color == Black :: forall x | x in Pointers(s.heap[o].fields) ::
          x in s.heap && s.heap[x].color != White)
    && (forall t | 0 <= t < |s.threads| && s.threads[t].current.Some? && s.threads[t].current.value.o in s.heap ::
          var c := s.threads[t].current.value;
          c.k <= |s.heap[c.o].fields| && forall x | x in Pointers(s.heap[c.o].fields[..c.k]) ::
            x in s.heap && s.heap[x].color != White)
  }

  lemma ShadedPointers<O>(h: map<O, Object<O>>, fs: seq<Option<O>>)
    requires Shaded(h, fs)
    ensures forall x | x in Pointers(fs) :: x in h && h[x].color != White
  {
  }

  lemma InvGivesTriColour<O>(s: State<O>)
    requires Inv(s)
    ensures TriColour(s)
  {
    forall o | o in s.heap && s.heap[o].color == Black
      ensures forall x | x in Pointers(s.heap[o].fields) :: x in s.heap && s.heap[x].color != White
    {
      ShadedPointers(s.heap, s.heap[o].fields);
    }
    forall t | 0 <= t < |s.threads| && s.threads[t].current.Some? && s.threads[t].current.value.o in s.heap
      ensures var c := s.threads[t].current.value;
        c.k <= |s.heap[c.o].fields| && forall x | x in Pointers(s.heap[c.o].fields[..c.k]) ::
          x in s.heap && s.heap[x].color != White
    {
      ThreadFacts(s, t);
      var c := s.threads[t].current.value;
      ShadedPointers(s.heap, s.heap[c.o].fields[..c.k]);
    }
  }

  ghost predicate NoSweep<O>(acts: seq<Action<O>>) {
    forall a | a in acts :: !a.Sweep?
  }

  /** Within a cycle any interleaving of mutators and tracers keeps the invariant. */
  lemma {:induction false} CycleKeepsInvariant<O>(s: State<O>, acts: seq<Action<O>>)
    requires Inv(s) && Runs(s, acts) && NoSweep(acts)
    ensures Inv(Exec(s, acts)) && TriColour(Exec(s, acts))
    decreases |acts|
  {
    hide Inv, TriColour;
    if acts == [] {
      InvGivesTriColour(s);
    } else {
      assert acts[0] in acts;
      assert NoSweep(acts[1..]);
      StepPreserves(s, acts[0]);
      CycleKeepsInvariant(Do(s, acts[0]), acts[1..]);
    }
  }

  /** At the sweep everything not white is black, and what black objects reach is black. */
  lemma SweepTakesNoShaded<O>(s: State<O>, roots: set<O>)
    requires Inv(s) && s.phase == Sweeping
    requires forall o | o in roots :: o in s.heap && s.heap[o].color != White
    ensures Reach(Graph(s.heap), roots) <= Survivors(s.heap)
  {
    var black := set o | o in s.heap && s.heap[o].color == Black;
    assert forall o | o in s.heap && s.heap[o].color != White :: o in black by {
      hide ThreadsOk, CollectorOk, BusyOk, RootsOk, BytesOk, ShapeOk, ColorsOk;
      assert forall o | o in s.heap && s.heap[o].color == Gray :: o in Queued(s);
    }
    forall o | o in black && o in Graph(s.heap) ensures Graph(s.heap)[o] <= black {
      ShadedPointers(s.heap, s.heap[o].fields);
    }
    ReachIsLeast(Graph(s.heap), roots, black);
  }

  lemma SweepFreesOnlyDoomed<O>(s: State<O>, t: nat)
    requires Inv(s) && Enabled(s, Sweep(t))
    ensures Do(s, Sweep(t)).heap.Keys == Survivors(s.heap) && s.phase == Sweeping
  {
    FinishingFacts(s, t);
    SweptFacts(s.heap);
  }

  /** From the scan to the sweep of a cycle the record of scanned roots stands. */
  lemma {:induction false} ScanRootsStand<O>(s: State<O>, acts: seq<Action<O>>)
    requires Inv(s) && s.scanned && Runs(s, acts) && NoSweep(acts)
    ensures Exec(s, acts).scanned && Exec(s, acts).scanRoots == s.scanRoots && Inv(Exec(s, acts))
    decreases |acts|
  {
    hide Inv;
    if acts != [] {
      var a := acts[0];
      assert a in acts;
      assert NoSweep(acts[1..]);
      StepPreserves(s, a);
      ScanRootsStep(s, a);
      ScanRootsStand(Do(s, a), acts[1..]);
    }
  }

  lemma ScanOnce<O>(s: State<O>, t: nat)
    requires Inv(s) && Enabled(s, RootScan(t))
    ensures !s.scanned
  {
    hide Inv;
    StartingFacts(s, t);
  }

  lemma TracerRecord<O>(s: State<O>, a: Action<O>)
    requires Enabled(s, a) && (a.Steal? || a.Pop? || a.ScanField? || a.Blacken? || a.Merge?)
    ensures Do(s, a).scanned == s.scanned && Do(s, a).scanRoots == s.scanRoots
  {
    hide Reverse;
  }

  lemma SetRecord<O>(s: State<O>, a: Action<O>)
    requires Enabled(s, a) && (a.SetEnter? || a.SetCheck? || a.SetShade? || a.SetMerge? || a.SetLeave?)
    ensures Do(s, a).scanned == s.scanned && Do(s, a).scanRoots == s.scanRoots
  {
    hide Store, Listed;
  }

  lemma OtherRecord<O>(s: State<O>, a: Action<O>)
    requires Enabled(s, a)
    requires a.Start? || a.HandOff? || a.AssistEnter? || a.AssistCheck? || a.AssistLeave? || a.Count?
    ensures Do(s, a).scanned == s.scanned && Do(s, a).scanRoots == s.scanRoots
  {
  }

  lemma HeapRecord<O>(s: State<O>, a: Action<O>)
    requires Enabled(s, a) && (a.Link? || a.Root? || a.Clone? || a.Drop?)
    ensures Do(s, a).scanned == s.scanned && Do(s, a).scanRoots == s.scanRoots
  {
    hide Listed;
  }

  lemma ScanRootsStep<O>(s: State<O>, a: Action<O>)
    requires Inv(s) && s.scanned && Enabled(s, a) && !a.Sweep?
    ensures Do(s, a).scanned && Do(s, a).scanRoots == s.scanRoots
  {
    hide Inv, Do, Enabled;
    if a.RootScan? {
      ScanOnce(s, a.t);
    } else if a.Steal? || a.Pop? || a.ScanField? || a.Blacken? || a.Merge? {
      TracerRecord(s, a);
    } else if a.SetEnter? || a.SetCheck? || a.SetShade? || a.SetMerge? || a.SetLeave? {
      SetRecord(s, a);
    } else if a.Link? || a.Root? || a.Clone? || a.Drop? {
      HeapRecord(s, a);
    } else {
      OtherRecord(s, a);
    }
  }

  /** Everything but shading, storing, linking, counting roots and sweeping leaves the heap alone. */
  lemma HeapStays<O>(s: State<O>, a: Action<O>)
    requires Enabled(s, a)
    requires a.Start? || a.HandOff? || a.Steal? || a.Pop? || a.Merge? || a.AssistEnter? || a.AssistCheck? || a.AssistLeave?
          || a.SetEnter? || a.SetMerge? || a.Count?
    ensures Do(s, a).heap == s.heap
  {
    hide Reverse, Listed, CanStore, DoSteal, DoPop, DoMerge, DoAssistCheck, DoSetMerge, DoCount;
    match a
    case Steal(t) => StealStays(s, t);
    case Pop(t) => PopStays(s, t);
    case Merge(t) => MergeStays(s, t);
    case AssistCheck(t) => AssistCheckStays(s, t);
    case SetMerge(t) => MergeStays(s, t);
    case Count(t) => CountStays(s, t);
    case _ =>
  }

  lemma StealStays<O>(s: State<O>, t: nat)
    requires t < |s.threads|
    ensures DoSteal(s, t).heap == s.heap
  {
  }

  lemma PopStays<O>(s: State<O>, t: nat)
    requires t < |s.threads| && s.threads[t].local != []
    ensures DoPop(s, t).heap == s.heap
  {
  }

  lemma MergeStays<O>(s: State<O>, t: nat)
    requires t < |s.threads|
    ensures DoMerge(s, t).heap == s.heap
    ensures s.threads[t].pc.SetShading? ==> DoSetMerge(s, t).heap == s.heap
  {
  }

  lemma AssistCheckStays<O>(s: State<O>, t: nat)
    requires t < |s.threads|
    ensures DoAssistCheck(s, t).heap == s.heap
  {
  }

  lemma CountStays<O>(s: State<O>, t: nat)
    requires t < |s.threads| && s.threads[t].pc.Counting?
    ensures DoCount(s, t).heap == s.heap
  {
  }

  /**
   * One cycle, any interleaving, any mutators: what can be reached at the sweep from an object
   * that was rooted at the scan survives, even if that root has been dropped since.
   */
  lemma CycleSafety<O>(s: State<O>, t: nat, acts: seq<Action<O>>, u: nat)
    requires Inv(s) && Enabled(s, RootScan(t))
    requires NoSweep(acts) && Runs(Do(s, RootScan(t)), acts)
    requires Enabled(Exec(Do(s, RootScan(t)), acts), Sweep(u))
    ensures var e := Exec(Do(s, RootScan(t)), acts);
      Reach(Graph(e.heap), Rooted(s.heap)) <= Do(e, Sweep(u)).heap.Keys
  {
    hide Inv;
    StepPreserves(s, RootScan(t));
    var s1 := Do(s, RootScan(t));
    ScanRootsStand(s1, acts);
    var e := Exec(s1, acts);
    SweepFreesOnlyDoomed(e, u);
    ScanRootsShaded(e);
    SweepTakesNoShaded(e, e.scanRoots);
  }

  lemma ScanRootsShaded<O>(s: State<O>)
    requires Inv(s)
    ensures forall o | o in s.scanRoots :: o in s.heap && s.heap[o].color != White
  {
  }
}
