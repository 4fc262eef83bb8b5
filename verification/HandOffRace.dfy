/**
 * What the one-step hand-off of the protocol leaves out. In the source the collector finds no work, then finds the
 * busy counter zero, and then stores Sweeping; other threads may act in between.
 */
module HandOffRace {
  import opened Reachability
  import opened Protocol
  import opened Invariant
  import opened CyclePreservation
  import opened RunSafety

  /** The store of Sweeping, whatever is still queued. */
  ghost function HandedOff<O>(s: State<O>, t: nat): State<O>
    requires t < |s.threads|
  {
    WithPc(s, t, Finishing).(phase := Sweeping)
  }

  /** `s'` is what the store of Sweeping and the sweep make of `s`, whatever is still queued. */
  ghost predicate SweptFrom<O>(s: State<O>, t: nat, s': State<O>) {
    t < |s.threads| && (forall o | o in s.list :: o in s.heap) && s' == DoSweep(HandedOff(s, t), t)
  }

  ghost predicate ByOther<O>(a: Action<O>, t: nat) {
    match a
    case Root(_) => true
    case Clone(_) => true
    case Drop(_) => true
    case _ => a.t != t
  }

  ghost predicate ByOthers<O>(acts: seq<Action<O>>, t: nat) {
    forall a | a in acts :: ByOther(a, t)
  }

  /**
   * The hand-off as three operations: at `s` the steal fails, after `first` the busy counter is zero, and after
   * `second` Sweeping is stored, which gives `e`.
   */
  ghost predicate SplitHandOff<O>(s: State<O>, t: nat, first: seq<Action<O>>, second: seq<Action<O>>, e: State<O>) {
    && Is(s, t, Collecting) && Resting(s, t) && s.shared == []
    && ByOthers(first, t) && Runs(s, first) && Exec(s, first).busy == 0
    && ByOthers(second, t) && Runs(Exec(s, first), second)
    && var m := Exec(Exec(s, first), second);
       t < |m.threads| && e == HandedOff(m, t)
  }

  /** What `o` points to is kept by the sweep. */
  ghost predicate PointsToKept<O>(heap: map<O, Object<O>>, o: O)
    requires o in heap
  {
    forall i | 0 <= i < |heap[o].fields| && heap[o].fields[i].Some? :: heap[o].fields[i].value in Survivors(heap)
  }

  /** The gray objects, whose tracing is unfinished, point only to objects the sweep keeps. */
  ghost predicate GraysCovered<O>(heap: map<O, Object<O>>) {
    forall o | o in heap && heap[o].color == Gray :: PointsToKept(heap, o)
  }

  /** The same of the objects left in the shared queue. */
  ghost predicate QueueCovered<O>(heap: map<O, Object<O>>, shared: seq<O>) {
    forall o | o in shared && o in heap :: PointsToKept(heap, o)
  }
}

module HandOffRaceProofs {
  import opened Reachability
  import opened Protocol
  import opened Invariant
  import opened Preservation
  import opened HeapPreservation
  import opened CyclePreservation
  import opened Safety
  import opened RunSafety
  import opened Promptness
  import opened MarkingWork
  import opened HandOffRace

  // ----- The sweep of a marking that is not finished -----

  /** No edge of a survivor dangles exactly when the rooted whites and the gray objects are covered. */
  lemma EarlySweepClosedIff<O>(s: State<O>)
    requires Inv(s)
    ensures SurvivorsClosed(s.heap) <==> RootedWhitesCovered(s.heap) && GraysCovered(s.heap)
  {
    hide ShapeOk, ThreadsOk, CollectorOk, BusyOk, QueueOk, RootsOk, BytesOk, Held, Births;
    assert ColorsOk(s.heap, s.scanRoots, s.phase);
    EarlyClosed(s.heap, s.scanRoots, s.phase);
  }

  lemma EarlyClosed<O>(h: map<O, Object<O>>, scanRoots: set<O>, phase: Phase)
    requires ColorsOk(h, scanRoots, phase)
    ensures SurvivorsClosed(h) <==> RootedWhitesCovered(h) && GraysCovered(h)
  {
    if RootedWhitesCovered(h) && GraysCovered(h) {
      forall o | o in Survivors(h)
        ensures forall i | 0 <= i < |h[o].fields| && h[o].fields[i].Some? :: h[o].fields[i].value in Survivors(h)
      {
        if h[o].color == Black {
          assert Shaded(h, h[o].fields);
        } else if h[o].color == Gray {
          assert PointsToKept(h, o);
        }
      }
    }
    if SurvivorsClosed(h) {
      forall o | o in h && h[o].color == Gray ensures PointsToKept(h, o) {
        assert o in Survivors(h);
      }
      forall o | o in h && h[o].color == White && h[o].roots > 0
        ensures forall i | 0 <= i < |h[o].fields| && h[o].fields[i].Some? :: h[o].fields[i].value in Survivors(h)
      {
        assert o in Survivors(h);
      }
    }
  }

  /** Nothing live is freed exactly when the live objects among these are covered. */
  lemma EarlySweepSafeIff<O>(s: State<O>)
    requires Inv(s)
    ensures Live(s.heap) <= Survivors(s.heap) <==>
      forall o | o in Live(s.heap) && o in s.heap && (s.heap[o].color == Gray || (s.heap[o].color == White && s.heap[o].roots > 0)) ::
        PointsToKept(s.heap, o)
  {
    hide ShapeOk, ThreadsOk, CollectorOk, BusyOk, QueueOk, RootsOk, BytesOk, Held, Births, Live;
    assert ColorsOk(s.heap, s.scanRoots, s.phase);
    EarlySafe(s.heap, s.scanRoots, s.phase);
  }

  lemma EarlySafe<O>(h: map<O, Object<O>>, scanRoots: set<O>, phase: Phase)
    requires ColorsOk(h, scanRoots, phase)
    ensures Live(h) <= Survivors(h) <==>
      forall o | o in Live(h) && o in h && (h[o].color == Gray || (h[o].color == White && h[o].roots > 0)) :: PointsToKept(h, o)
  {
    LiveFacts(h);
    if forall o | o in Live(h) && o in h && (h[o].color == Gray || (h[o].color == White && h[o].roots > 0)) :: PointsToKept(h, o) {
      var both := Live(h) * Survivors(h);
      forall o | o in both && o in Graph(h) ensures Graph(h)[o] <= both {
        forall x | x in Pointers(h[o].fields) ensures x in both {
          var i :| 0 <= i < |h[o].fields| && h[o].fields[i] == Some(x);
          if h[o].color == Black {
            assert Shaded(h, h[o].fields);
          } else {
            assert PointsToKept(h, o);
          }
        }
      }
      assert Rooted(h) <= both;
      LiveDef(h);
      hide Live, Survivors;
      ReachIsLeast(Graph(h), Rooted(h), both);
    }
  }

  /** Nobody busy and the collector without work: what is gray is left in the shared queue. */
  lemma GraysAreInQueue<O>(s: State<O>, t: nat)
    requires Inv(s) && Is(s, t, Collecting) && Resting(s, t) && s.busy == 0
    ensures forall o | o in s.heap && s.heap[o].color == Gray :: o in s.shared
    ensures forall o | o in s.shared && o in s.heap && s.heap[o].color != Gray :: s.heap[o].fields == []
  {
    NothingHeldWhenQuiet(s, t);
    hide ThreadsOk, CollectorOk, BusyOk, ColorsOk, RootsOk, BytesOk, Held, Births;
    assert multiset(s.shared) + multiset{} == multiset(s.shared);
    forall o | o in s.shared && o in s.heap && s.heap[o].color != Gray ensures s.heap[o].fields == [] {
      assert o in Queued(s) && o in s.enqueued;
    }
    forall o | o in s.heap && s.heap[o].color == Gray ensures o in s.shared {
      assert o in Queued(s);
    }
  }

  lemma NothingHeldWhenQuiet<O>(s: State<O>, t: nat)
    requires Inv(s) && Is(s, t, Collecting) && Resting(s, t) && s.busy == 0
    ensures Held(s.threads) == multiset{}
  {
    forall i | 0 <= i < |s.threads| ensures HeldBy(s.threads[i]) == multiset{} {
      NobodyBusy(s.threads, i);
      ThreadFacts(s, i);
      OnlyTracersHold(s, t, i);
    }
    NothingHeld(s.threads);
  }

  lemma OnlyTracersHold<O>(s: State<O>, t: nat, i: nat)
    requires Inv(s) && Is(s, t, Collecting) && Resting(s, t) && i < |s.threads| && !InBusySection(s.threads[i])
    requires WorkOk(s.heap, s.threads[i])
    ensures Resting(s, i)
  {
    if s.threads[i].pc.Collecting? {
      assert IsCollector(s.threads[i].pc) && IsCollector(s.threads[t].pc);
      assert CollectorOk(s.threads, s.phase, s.scanned, s.collector);
    }
  }

  /**
   * At a store of Sweeping with nobody busy no surviving edge dangles exactly when, besides the rooted whites, the
   * objects left in the shared queue are covered, as they are when it is empty.
   */
  lemma QueueLeftIff<O>(s: State<O>, t: nat)
    requires Inv(s) && Is(s, t, Collecting) && Resting(s, t) && s.busy == 0
    ensures SurvivorsClosed(s.heap) <==> RootedWhitesCovered(s.heap) && QueueCovered(s.heap, s.shared)
    ensures s.shared == [] ==> QueueCovered(s.heap, s.shared)
  {
    EarlySweepClosedIff(s);
    GraysAreInQueue(s, t);
    QueueIsListed(s);
    hide Inv, SurvivorsClosed, RootedWhitesCovered;
    if GraysCovered(s.heap) {
      forall o | o in s.shared && o in s.heap ensures PointsToKept(s.heap, o) {
        assert s.heap[o].color != Gray ==> s.heap[o].fields == [];
      }
    }
  }

  lemma QueueIsListed<O>(s: State<O>)
    requires Inv(s)
    ensures forall o | o in s.shared :: o in s.heap
  {
    hide ThreadsOk, CollectorOk, BusyOk, ColorsOk, RootsOk, BytesOk, Held, Births;
    forall o | o in s.shared ensures o in s.heap {
      assert o in Queued(s) && o in s.enqueued;
    }
  }

  // ----- The three operations -----

  /** While other threads act the waiting collector stays where it is, and none of them sweeps. */
  lemma {:induction false} CollectorWaits<O>(s: State<O>, acts: seq<Action<O>>, t: nat)
    requires Inv(s) && Is(s, t, Collecting) && Runs(s, acts) && ByOthers(acts, t)
    ensures var e := Exec(s, acts); Inv(e) && t < |e.threads| && e.threads[t] == s.threads[t]
    decreases |acts|
  {
    hide Inv, ByOther;
    if acts != [] {
      assert acts[0] in acts;
      assert forall a | a in acts[1..] :: a in acts;
      OtherStep(s, acts[0], t);
      CollectorWaits(Do(s, acts[0]), acts[1..], t);
    }
  }

  lemma OtherStep<O>(s: State<O>, a: Action<O>, t: nat)
    requires Inv(s) && Is(s, t, Collecting) && Enabled(s, a) && ByOther(a, t)
    ensures Inv(Do(s, a)) && t < |Do(s, a).threads| && Do(s, a).threads[t] == s.threads[t]
  {
    hide Inv, Enabled, Do, ByOther;
    OtherDoesNotSweep(s, a, t);
    StepPreserves(s, a);
    OthersLeaveThread(s, a, t);
  }

  lemma CollectorIsAlone<O>(s: State<O>, t: nat, u: nat)
    requires Inv(s) && Is(s, t, Collecting) && u < |s.threads| && IsCollector(s.threads[u].pc)
    ensures u == t
  {
    assert CollectorOk(s.threads, s.phase, s.scanned, s.collector);
    assert IsCollector(s.threads[t].pc);
  }

  lemma OtherDoesNotSweep<O>(s: State<O>, a: Action<O>, t: nat)
    requires Inv(s) && Is(s, t, Collecting) && Enabled(s, a) && ByOther(a, t)
    ensures !a.Sweep?
  {
    hide Inv;
    if a.Sweep? {
      CollectorIsAlone(s, t, a.t);
    }
  }

  lemma OthersLeaveThread<O>(s: State<O>, a: Action<O>, t: nat)
    requires Enabled(s, a) && !a.Sweep? && t < |s.threads| && ByOther(a, t)
    ensures t < |Do(s, a).threads| && Do(s, a).threads[t] == s.threads[t]
  {
    hide Enabled, Do;
    if a.ScanField? || a.SetShade? {
      ShadingLeavesThread(s, a, t);
    } else if a.Steal? || a.Pop? || a.Merge? || a.Blacken? || a.SetMerge? {
      WorkLeavesThread(s, a, t);
    } else if a.SetEnter? || a.SetCheck? || a.SetLeave? || a.Link? || a.Count? || a.Root? || a.Clone? || a.Drop? {
      MutationLeavesThread(s, a, t);
    } else {
      PhaseLeavesThread(s, a, t);
    }
  }

  lemma ShadeLeavesThread<O>(s: State<O>, u: nat, f: Option<O>, t: nat)
    requires u < |s.threads| && t < |s.threads| && u != t
    ensures |Shade(s, u, f).threads| == |s.threads| && Shade(s, u, f).threads[t] == s.threads[t]
  {
  }

  lemma ShadingLeavesThread<O>(s: State<O>, a: Action<O>, t: nat)
    requires Enabled(s, a) && (a.ScanField? || a.SetShade?) && t < |s.threads| && a.t != t
    ensures t < |Do(s, a).threads| && Do(s, a).threads[t] == s.threads[t]
  {
    hide Shade;
    if a.ScanField? {
      ShadeLeavesThread(s, a.t, s.heap[s.threads[a.t].current.value.o].fields[s.threads[a.t].current.value.k], t);
    } else {
      ShadeLeavesThread(s, a.t, s.threads[a.t].pc.vals[s.threads[a.t].pc.done], t);
    }
  }

  lemma WorkLeavesThread<O>(s: State<O>, a: Action<O>, t: nat)
    requires Enabled(s, a) && (a.Steal? || a.Pop? || a.Merge? || a.Blacken? || a.SetMerge?) && t < |s.threads| && a.t != t
    ensures t < |Do(s, a).threads| && Do(s, a).threads[t] == s.threads[t]
  {
    hide Reverse;
  }

  lemma MutationLeavesThread<O>(s: State<O>, a: Action<O>, t: nat)
    requires a.SetEnter? || a.SetCheck? || a.SetLeave? || a.Link? || a.Count? || a.Root? || a.Clone? || a.Drop?
    requires Enabled(s, a) && t < |s.threads| && ByOther(a, t)
    ensures t < |Do(s, a).threads| && Do(s, a).threads[t] == s.threads[t]
  {
    hide Store, Listed;
  }

  lemma PhaseLeavesThread<O>(s: State<O>, a: Action<O>, t: nat)
    requires a.Start? || a.RootScan? || a.HandOff? || a.AssistEnter? || a.AssistCheck? || a.AssistLeave?
    requires Enabled(s, a) && t < |s.threads| && a.t != t
    ensures t < |Do(s, a).threads| && Do(s, a).threads[t] == s.threads[t]
  {
    hide Filter, GrayRoots;
  }

  /**
   * The split hand-off, whatever the other threads do in between: no surviving edge dangles exactly when at the store
   * of Sweeping the rooted whites, as they are under the mutators' discipline, and the gray objects are covered. If
   * nothing comes between the busy test and the store these are the objects left in the shared queue.
   */
  lemma SplitHandOffIff<O>(s: State<O>, t: nat, first: seq<Action<O>>, second: seq<Action<O>>, e: State<O>)
    requires Inv(s) && SplitHandOff(s, t, first, second, e)
    ensures SurvivorsClosed(e.heap) <==> RootedWhitesCovered(e.heap) && GraysCovered(e.heap)
    ensures second == [] ==> (SurvivorsClosed(e.heap) <==> RootedWhitesCovered(e.heap) && QueueCovered(e.heap, e.shared))
    ensures Covered(e) ==> RootedWhitesCovered(e.heap)
    ensures SurvivorsClosed(e.heap) ==> Live(e.heap) <= Survivors(e.heap)
  {
    hide Inv, Live, SurvivorsClosed, RootedWhitesCovered, GraysCovered, QueueCovered, Survivors, CoveredBy;
    CollectorWaits(s, first, t);
    CollectorWaits(Exec(s, first), second, t);
    var m := Exec(Exec(s, first), second);
    EarlySweepClosedIff(m);
    if second == [] {
      QueueLeftIff(m, t);
    }
    CollectingIsScanned(m, t);
    if Covered(e) {
      CoveredRoots(m.heap, m.newborn);
    }
    if SurvivorsClosed(m.heap) {
      ClosedKeepsLive(m.heap);
    }
  }

  lemma CollectingIsScanned<O>(s: State<O>, t: nat)
    requires Inv(s) && Is(s, t, Collecting)
    ensures s.scanned
  {
    hide Inv;
    ThreadFacts(s, t);
  }

  /** Undisturbed, the three operations are the hand-off of the protocol. */
  lemma UndisturbedIsHandOff<O>(s: State<O>, t: nat, e: State<O>)
    ensures SplitHandOff(s, t, [], [], e) <==> Enabled(s, HandOff(t)) && e == Do(s, HandOff(t))
  {
  }

  // ----- Work budget zero -----

  /**
   * With a work budget of zero the collector hands off right after the root scan, with the roots still queued. Only
   * the rooted objects survive. The gray queue keeps its entries, so the heap is well formed again just when nothing
   * was rooted, and nothing live was lost just when every live object was rooted.
   */
  lemma ZeroBudgetCycle<O>(s: State<O>, t: nat, e: State<O>)
    requires Inv(s) && Is(s, t, Ready) && s.phase == Idle && s.busy == 0 && SweptFrom(Scanned(s, t), t, e)
    ensures e.heap == map o | o in Rooted(s.heap) && o in s.heap :: s.heap[o]
    ensures e.list == Filter(s.list, Rooted(s.heap)) && e.shared == e.list && e.phase == Idle
    ensures Inv(e) <==> Rooted(s.heap) == {}
    ensures Live(s.heap) <= e.heap.Keys <==> Live(s.heap) == Rooted(s.heap)
  {
    hide Inv, Live, Scanned, SweptFrom;
    ZeroBudgetScan(s, t);
    ZeroBudgetSweep(s, Scanned(s, t), t, e);
    LiveFacts(s.heap);
    ZeroBudgetInv(s, t, e);
  }

  lemma ZeroBudgetScan<O>(s: State<O>, t: nat)
    requires Inv(s) && Is(s, t, Ready) && s.phase == Idle
    ensures var m := Scanned(s, t);
      && m.heap.Keys == s.heap.Keys && m.list == s.list && m.shared == Filter(s.list, Rooted(s.heap))
      && Survivors(m.heap) == Rooted(s.heap)
      && forall o | o in s.heap :: m.heap[o].(color := White) == s.heap[o]
  {
    hide Inv, Filter;
    IdleIsWhite(s, s.heap.Keys);
    IdleHasNoWork(s);
    assert forall o | o in s.heap :: s.heap[o].color == White;
    assert Unmarked(s.heap) == Rooted(s.heap);
    assert [] + Filter(s.list, Rooted(s.heap)) == Filter(s.list, Rooted(s.heap));
  }

  lemma ZeroBudgetSweep<O>(s: State<O>, m: State<O>, t: nat, e: State<O>)
    requires m.heap.Keys == s.heap.Keys && m.list == s.list && m.shared == Filter(s.list, Rooted(s.heap))
    requires Survivors(m.heap) == Rooted(s.heap) && forall o | o in s.heap :: m.heap[o].(color := White) == s.heap[o]
    requires SweptFrom(m, t, e)
    ensures e.heap == map o | o in Rooted(s.heap) && o in s.heap :: s.heap[o]
    ensures e.list == Filter(s.list, Rooted(s.heap)) && e.shared == e.list && e.phase == Idle
  {
    hide Filter, SumSizes, Survivors;
  }

  lemma ZeroBudgetInv<O>(s: State<O>, t: nat, e: State<O>)
    requires Inv(s) && Is(s, t, Ready) && s.phase == Idle && s.busy == 0 && SweptFrom(Scanned(s, t), t, e)
    requires e.shared == Filter(s.list, Rooted(s.heap)) && e.phase == Idle && Survivors(Scanned(s, t).heap) == Rooted(s.heap)
    ensures Inv(e) <==> Rooted(s.heap) == {}
  {
    hide Inv, Filter, SumSizes, Rooted, Scanned, DoSweep;
    RootsAreListed(s);
    if Rooted(s.heap) == {} {
      NothingFiltered(s.list, Rooted(s.heap));
      EmptyCycleKeeps(s, t, e);
    } else if Inv(e) {
      IdleHasNoWork(e);
    }
  }

  lemma {:induction false} NothingFiltered<O>(list: seq<O>, keep: set<O>)
    requires keep == {}
    ensures Filter(list, keep) == []
  {
    if list != [] {
      NothingFiltered(list[1..], keep);
    }
  }

  lemma RootsAreListed<O>(s: State<O>)
    requires Inv(s)
    ensures Rooted(s.heap) != {} ==> Filter(s.list, Rooted(s.heap)) != []
  {
    if o :| o in Rooted(s.heap) {
      assert o in s.list;
      assert o in Filter(s.list, Rooted(s.heap));
    }
  }

  lemma EmptyCycleKeeps<O>(s: State<O>, t: nat, e: State<O>)
    requires Inv(s) && Is(s, t, Ready) && s.phase == Idle && s.busy == 0 && SweptFrom(Scanned(s, t), t, e)
    requires e.shared == [] && Survivors(Scanned(s, t).heap) == {}
    ensures Inv(e)
  {
    hide Inv, Filter, SumSizes, Survivors;
    ScanStartsMarking(s, t);
    var m := Scanned(s, t);
    ThreadFacts(s, t);
    assert m.shared == e.shared;
    hide Scanned, SweptFrom;
    assert Enabled(m, HandOff(t));
    HandOffPreserves(m, t);
    SweepPreserves(HandedOff(m, t), t);
  }
}
