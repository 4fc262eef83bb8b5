/** Safety over whole runs of many cycles, and the mutator discipline it rests on. */
module RunSafety {
  import opened Reachability
  import opened Protocol
  import opened Invariant
  import opened Preservation
  import opened HeapPreservation
  import opened CyclePreservation
  import opened Safety

  // ----- When exactly a sweep is safe -----

  /** The white objects a sweep keeps because they are rooted point only to objects it keeps. */
  ghost predicate RootedWhitesCovered<O>(heap: map<O, Object<O>>) {
    forall o | o in heap && heap[o].color == White && heap[o].roots > 0 ::
      forall i | 0 <= i < |heap[o].fields| && heap[o].fields[i].Some? :: heap[o].fields[i].value in Survivors(heap)
  }

  lemma CoveredMeansClosed<O>(s: State<O>)
    requires Inv(s) && s.phase == Sweeping && RootedWhitesCovered(s.heap)
    ensures SurvivorsClosed(s.heap)
  {
    hide ThreadsOk, CollectorOk, BusyOk, RootsOk, BytesOk;
    forall o | o in Survivors(s.heap)
      ensures forall i | 0 <= i < |s.heap[o].fields| && s.heap[o].fields[i].Some? ::
        s.heap[o].fields[i].value in Survivors(s.heap)
    {
      assert s.heap[o].color == Gray ==> o in Queued(s);
      if s.heap[o].color == Black {
        assert Shaded(s.heap, s.heap[o].fields);
      }
    }
  }

  /** A sweep frees nothing reachable from a current root exactly when the rooted whites are covered. */
  lemma SweepIsSafeIff<O>(s: State<O>)
    requires Inv(s) && s.phase == Sweeping
    ensures Live(s.heap) <= Survivors(s.heap) <==> RootedWhitesCovered(s.heap)
  {
    hide Inv, Live, Survivors;
    if RootedWhitesCovered(s.heap) {
      CoveredMeansClosed(s);
      ClosedKeepsLive(s.heap);
    }
    if Live(s.heap) <= Survivors(s.heap) {
      SafeMeansCovered(s.heap);
    }
  }

  lemma SafeMeansCovered<O>(h: map<O, Object<O>>)
    requires Live(h) <= Survivors(h)
    ensures RootedWhitesCovered(h)
  {
    hide Survivors;
    forall o, i | o in h && h[o].color == White && h[o].roots > 0 && 0 <= i < |h[o].fields| && h[o].fields[i].Some?
      ensures h[o].fields[i].value in Survivors(h)
    {
      var x := h[o].fields[i].value;
      assert h[o].fields[i] in h[o].fields;
      assert x in Graph(h)[o];
      assert o in Rooted(h);
      assert x in Live(h);
    }
  }

  lemma ClosedKeepsLive<O>(h: map<O, Object<O>>)
    requires SurvivorsClosed(h)
    ensures Live(h) <= Survivors(h)
  {
    var keep := Survivors(h);
    forall o | o in keep && o in Graph(h) ensures Graph(h)[o] <= keep {
      forall x | x in Pointers(h[o].fields) ensures x in keep {
        var i :| 0 <= i < |h[o].fields| && h[o].fields[i] == Some(x);
      }
    }
    ReachIsLeast(Graph(h), Rooted(h), keep);
  }

  // ----- The discipline -----

  /**
   * After the root scan an allocation starts with no pointer to a white object, and root() is called on objects
   * that are shaded, were allocated since the scan, or point to nothing white.
   */
  ghost predicate Careful<O>(s: State<O>, a: Action<O>) {
    match a
    case Link(t, o, leaf, size, fields) => s.scanned ==> Shaded(s.heap, fields)
    case Root(o) =>
      s.scanned ==> o in s.heap && (s.heap[o].color != White || o in s.newborn || Shaded(s.heap, s.heap[o].fields))
    case _ => true
  }

  /** A white object that is rooted or newborn points only to shaded objects. */
  ghost predicate CoveredBy<O>(heap: map<O, Object<O>>, newborn: set<O>) {
    forall o | o in heap && heap[o].color == White && (heap[o].roots > 0 || o in newborn) :: Shaded(heap, heap[o].fields)
  }

  ghost predicate Covered<O>(s: State<O>) {
    s.scanned ==> CoveredBy(s.heap, s.newborn)
  }

  lemma DarkerCovered<O>(h: map<O, Object<O>>, h': map<O, Object<O>>, newborn: set<O>)
    requires CoveredBy(h, newborn) && Darker(h, h')
    ensures CoveredBy(h', newborn)
  {
  }

  lemma StoreCovered<O>(h: map<O, Object<O>>, newborn: set<O>, o: O, at: nat, vals: seq<Option<O>>)
    requires CoveredBy(h, newborn) && CanStore(h, o, at, vals) && Shaded(h, vals)
    ensures CoveredBy(Store(h, o, at, vals), newborn)
  {
    StoreRewrites(h, o, at, vals);
    var h' := Store(h, o, at, vals);
    forall x | x in h' && h'[x].color == White && (h'[x].roots > 0 || x in newborn) ensures Shaded(h', h'[x].fields) {
      assert Shaded(h, h[x].fields);
      forall i | 0 <= i < |h'[x].fields| && h'[x].fields[i].Some?
        ensures h'[x].fields[i].value in h' && h'[h'[x].fields[i].value].color != White
      {
        if x == o && at <= i < at + |vals| {
          assert h'[x].fields[i] == vals[i - at];
        } else {
          assert h'[x].fields[i] == h[x].fields[i];
        }
      }
    }
  }

  lemma LinkCovered<O>(h: map<O, Object<O>>, newborn: set<O>, o: O, obj: Object<O>)
    requires CoveredBy(h, newborn) && o !in h && Shaded(h, obj.fields)
    ensures CoveredBy(h[o := obj], newborn + {o})
  {
    var h' := h[o := obj];
    forall x | x in h' && h'[x].color == White && (h'[x].roots > 0 || x in newborn + {o}) ensures Shaded(h', h'[x].fields) {
      if x != o {
        assert Shaded(h, h[x].fields);
      }
    }
  }

  lemma ShadeFrame<O>(s: State<O>, t: nat, f: Option<O>)
    requires t < |s.threads|
    ensures Shade(s, t, f).newborn == s.newborn && Shade(s, t, f).scanned == s.scanned
  {
  }

  lemma ScanFieldCovered<O>(s: State<O>, t: nat)
    requires Inv(s) && Tracing(s, t) && HasCurrent(s, t) && Covered(s)
    requires s.threads[t].current.value.k < |s.heap[s.threads[t].current.value.o].fields|
    ensures Covered(DoScanField(s, t))
  {
    hide Inv, CoveredBy, Shade;
    TracingIsMarking(s, t);
    var c := s.threads[t].current.value;
    if s.heap[c.o].fields[c.k].Some? {
      FieldIsListed(s, c.o, c.k);
    }
    ShadeFrame(s, t, s.heap[c.o].fields[c.k]);
    ShadePreserves(s, t, s.heap[c.o].fields[c.k]);
    if s.scanned {
      DarkerCovered(s.heap, DoScanField(s, t).heap, s.newborn);
    }
  }

  lemma SetShadeCovered<O>(s: State<O>, t: nat)
    requires Inv(s) && t < |s.threads| && s.threads[t].pc.SetShading? && s.threads[t].pc.done < |s.threads[t].pc.vals|
    requires Covered(s)
    ensures Covered(DoSetShade(s, t))
  {
    hide Inv, CoveredBy, Shade;
    TracingIsMarking(s, t);
    SetShadeListed(s, t);
    var f := s.threads[t].pc.vals[s.threads[t].pc.done];
    ShadeFrame(s, t, f);
    ShadePreserves(s, t, f);
    if s.scanned {
      DarkerCovered(s.heap, DoSetShade(s, t).heap, s.newborn);
    }
  }

  lemma BlackenCovered<O>(s: State<O>, t: nat)
    requires HasCurrent(s, t) && Covered(s)
    ensures Covered(DoBlacken(s, t))
  {
    hide CoveredBy;
    if s.scanned {
      DarkerCovered(s.heap, DoBlacken(s, t).heap, s.newborn);
    }
  }

  lemma SetCheckCovered<O>(s: State<O>, t: nat)
    requires Inv(s) && t < |s.threads| && s.threads[t].pc.SetEntered? && Covered(s)
    requires CanStore(s.heap, s.threads[t].pc.o, s.threads[t].pc.at, s.threads[t].pc.vals)
    ensures Covered(DoSetCheck(s, t))
  {
    hide Inv, CoveredBy, Store;
    PendingFacts(s, t);
    NotScannedUnlessMarking(s);
  }

  lemma SetLeaveCovered<O>(s: State<O>, t: nat)
    requires Inv(s) && t < |s.threads| && s.threads[t].pc.SetMerged? && Covered(s)
    requires CanStore(s.heap, s.threads[t].pc.o, s.threads[t].pc.at, s.threads[t].pc.vals)
    ensures Covered(DoSetLeave(s, t))
  {
    hide Inv, CoveredBy, Store;
    PendingFacts(s, t);
    var pc := s.threads[t].pc;
    if s.scanned {
      StoreCovered(s.heap, s.newborn, pc.o, pc.at, pc.vals);
    }
  }

  lemma NotScannedUnlessMarking<O>(s: State<O>)
    requires Inv(s)
    ensures s.scanned ==> s.phase != Idle
  {
  }

  lemma LinkKeepsCovered<O>(s: State<O>, t: nat, o: O, obj: Object<O>)
    requires Inv(s) && Is(s, t, Ready) && o !in s.ever && Covered(s) && (s.scanned ==> Shaded(s.heap, obj.fields))
    ensures Covered(DoLink(s, t, o, obj))
  {
    hide Inv, CoveredBy;
    LinkFacts(s, t, o, obj);
    if s.scanned {
      LinkCovered(s.heap, s.newborn, o, obj);
    }
  }

  lemma HandleMeansRooted<O>(s: State<O>, o: O)
    requires Inv(s) && o in s.handles
    ensures o in s.heap && s.heap[o].roots >= 1
  {
  }

  lemma AddRootsCovered<O>(s: State<O>, o: O, n: int, handles: multiset<O>)
    requires Covered(s) && o in s.heap
    requires s.scanned && s.heap[o].roots + n > 0 ==>
      s.heap[o].roots > 0 || s.heap[o].color != White || o in s.newborn || Shaded(s.heap, s.heap[o].fields)
    ensures Covered(AddRoots(s, o, n).(handles := handles))
  {
    if s.scanned {
      RecountCovered(s.heap, AddRoots(s, o, n).heap, s.newborn, o);
    }
  }

  lemma RootScanCovered<O>(s: State<O>, t: nat)
    requires t < |s.threads|
    ensures Covered(DoRootScan(s, t))
  {
    RootScanDarkens(s.heap);
  }

  lemma RecountCovered<O>(h: map<O, Object<O>>, h': map<O, Object<O>>, newborn: set<O>, o: O)
    requires CoveredBy(h, newborn) && Recounted(h, h') && o in h
    requires forall x | x in h && x != o :: h'[x].roots == h[x].roots
    requires h'[o].roots > 0 ==> h[o].roots > 0 || h[o].color != White || o in newborn || Shaded(h, h[o].fields)
    ensures CoveredBy(h', newborn)
  {
  }

  lemma CarefulKeepsCovered<O>(s: State<O>, a: Action<O>)
    requires Inv(s) && Enabled(s, a) && Covered(s) && Careful(s, a)
    ensures Covered(Do(s, a))
  {
    hide Inv, CoveredBy, DoRootScan, DoScanField, DoBlacken, DoSetCheck, DoSetShade, DoSetLeave, DoLink, AddRoots;
    match a
    case RootScan(t) => RootScanCovered(s, t);
    case ScanField(t) => ScanFieldCovered(s, t);
    case Blacken(t) => BlackenCovered(s, t);
    case SetCheck(t) => SetCheckCovered(s, t);
    case SetShade(t) => SetShadeCovered(s, t);
    case SetLeave(t) => SetLeaveCovered(s, t);
    case Link(t, o, leaf, size, fields) => LinkKeepsCovered(s, t, o, Object(White, 1, leaf, size, fields));
    case Root(o) => AddRootsCovered(s, o, 1, s.handles + multiset{o});
    case Clone(o) =>
      HandleMeansRooted(s, o);
      AddRootsCovered(s, o, 1, s.handles + multiset{o});
    case Drop(o) => AddRootsCovered(s, o, -1, s.handles - multiset{o});
    case _ =>
  }

  /** Rooted whites that point only to shaded objects meet the sweep's safety condition. */
  lemma CoveredRoots<O>(h: map<O, Object<O>>, newborn: set<O>)
    requires CoveredBy(h, newborn)
    ensures RootedWhitesCovered(h)
  {
    forall o | o in h && h[o].color == White && h[o].roots > 0
      ensures forall i | 0 <= i < |h[o].fields| && h[o].fields[i].Some? :: h[o].fields[i].value in Survivors(h)
    {
      assert Shaded(h, h[o].fields);
    }
  }

  lemma CoveredIsSafe<O>(s: State<O>)
    requires Inv(s) && s.phase == Sweeping && Covered(s)
    ensures RootedWhitesCovered(s.heap)
  {
    assert s.scanned;
    hide Inv, CoveredBy;
    CoveredRoots(s.heap, s.newborn);
  }

  // ----- Runs -----

  ghost predicate CarefulRun<O>(s: State<O>, acts: seq<Action<O>>)
    decreases |acts|
  {
    acts != [] ==> Enabled(s, acts[0]) && Careful(s, acts[0]) && CarefulRun(Do(s, acts[0]), acts[1..])
  }

  lemma {:induction false} CarefulRunsRun<O>(s: State<O>, acts: seq<Action<O>>)
    requires CarefulRun(s, acts)
    ensures Runs(s, acts)
    decreases |acts|
  {
    if acts != [] {
      CarefulRunsRun(Do(s, acts[0]), acts[1..]);
    }
  }

  lemma {:induction false} CarefulRunKeeps<O>(s: State<O>, acts: seq<Action<O>>)
    requires Inv(s) && Covered(s) && CarefulRun(s, acts) && Runs(s, acts)
    ensures Inv(Exec(s, acts)) && Covered(Exec(s, acts))
    decreases |acts|
  {
    hide Inv, Covered, Careful;
    if acts != [] {
      CarefulStep(s, acts[0]);
      CarefulRunKeeps(Do(s, acts[0]), acts[1..]);
    }
  }

  lemma CarefulStep<O>(s: State<O>, a: Action<O>)
    requires Inv(s) && Covered(s) && Enabled(s, a) && Careful(s, a)
    ensures Inv(Do(s, a)) && Covered(Do(s, a))
  {
    hide Inv, Covered, Careful, Do;
    CarefulKeepsCovered(s, a);
    if a.Sweep? {
      SweepFreesOnlyDoomed(s, a.t);
      CoveredIsSafe(s);
      CoveredMeansClosed(s);
    }
    StepPreserves(s, a);
  }

  /**
   * Over whole runs of many cycles: no step of a careful run frees an object that is reachable from a
   * current root, and no edge of a listed object ever dangles.
   */
  lemma NoLiveObjectIsFreed<O>(s: State<O>, acts: seq<Action<O>>, a: Action<O>)
    requires Inv(s) && Covered(s) && CarefulRun(s, acts) && Runs(s, acts)
    requires Enabled(Exec(s, acts), a) && Careful(Exec(s, acts), a)
    ensures var e := Exec(s, acts);
      && Live(e.heap) <= Do(e, a).heap.Keys
      && forall o | o in Do(e, a).heap :: Listed(Do(e, a).heap, Do(e, a).heap[o].fields)
  {
    hide Inv, Covered, Careful, Do, Live;
    CarefulRunKeeps(s, acts);
    var e := Exec(s, acts);
    CarefulStep(e, a);
    EdgesListed(Do(e, a));
    LiveIsListed(e);
    if a.Sweep? {
      SweepFreesOnlyDoomed(e, a.t);
      CoveredIsSafe(e);
      SweepIsSafeIff(e);
    } else {
      OnlySweepFrees(e, a);
    }
  }

  lemma EdgesListed<O>(s: State<O>)
    requires Inv(s)
    ensures forall o | o in s.heap :: Listed(s.heap, s.heap[o].fields)
  {
  }

  lemma LiveIsListed<O>(s: State<O>)
    requires Inv(s)
    ensures Live(s.heap) <= s.heap.Keys
  {
    EdgesListed(s);
    hide Inv;
    forall o | o in s.heap && o in Graph(s.heap) ensures Graph(s.heap)[o] <= s.heap.Keys {
      assert Listed(s.heap, s.heap[o].fields);
    }
    ReachIsLeast(Graph(s.heap), Rooted(s.heap), s.heap.Keys);
  }

  lemma OnlySweepFrees<O>(s: State<O>, a: Action<O>)
    requires Enabled(s, a) && !a.Sweep?
    ensures s.heap.Keys <= Do(s, a).heap.Keys
  {
    hide Enabled, Do;
    if a.RootScan? || a.ScanField? || a.SetShade? || a.Blacken? {
      ShadingKeepsListed(s, a);
    } else if a.SetCheck? || a.SetLeave? || a.Link? || a.Root? || a.Clone? || a.Drop? {
      MutationKeepsListed(s, a);
    } else {
      HeapStays(s, a);
    }
  }

  lemma ShadingKeepsListed<O>(s: State<O>, a: Action<O>)
    requires Enabled(s, a) && (a.RootScan? || a.ScanField? || a.SetShade? || a.Blacken?)
    ensures s.heap.Keys <= Do(s, a).heap.Keys
  {
    hide Filter;
  }

  lemma MutationKeepsListed<O>(s: State<O>, a: Action<O>)
    requires Enabled(s, a) && (a.SetCheck? || a.SetLeave? || a.Link? || a.Root? || a.Clone? || a.Drop?)
    ensures s.heap.Keys <= Do(s, a).heap.Keys
  {
    hide Listed;
  }

  // ----- When exactly a run is safe -----

  /** Every sweep of the run is taken when the rooted whites are covered. */
  ghost predicate SafeRun<O>(s: State<O>, acts: seq<Action<O>>)
    decreases |acts|
  {
    acts != [] ==>
      && Enabled(s, acts[0])
      && (acts[0].Sweep? ==> RootedWhitesCovered(s.heap))
      && SafeRun(Do(s, acts[0]), acts[1..])
  }

  /** No step of the run frees what is reachable from a root at that point. */
  ghost predicate FreesNothingLive<O>(s: State<O>, acts: seq<Action<O>>)
    decreases |acts|
  {
    acts != [] ==>
      && Enabled(s, acts[0])
      && Live(s.heap) <= Do(s, acts[0]).heap.Keys
      && FreesNothingLive(Do(s, acts[0]), acts[1..])
  }

  lemma SafeStep<O>(s: State<O>, a: Action<O>)
    requires Inv(s) && Enabled(s, a)
    ensures Live(s.heap) <= Do(s, a).heap.Keys <==> (a.Sweep? ==> RootedWhitesCovered(s.heap))
    ensures (a.Sweep? ==> RootedWhitesCovered(s.heap)) ==> Inv(Do(s, a))
  {
    hide Inv, Do, Live, RootedWhitesCovered;
    LiveIsListed(s);
    if a.Sweep? {
      SweepFreesOnlyDoomed(s, a.t);
      SweepIsSafeIff(s);
      if RootedWhitesCovered(s.heap) {
        CoveredMeansClosed(s);
        StepPreserves(s, a);
      }
    } else {
      OnlySweepFrees(s, a);
      StepPreserves(s, a);
    }
  }

  lemma {:induction false} SafeRunKeeps<O>(s: State<O>, acts: seq<Action<O>>)
    requires Inv(s) && SafeRun(s, acts) && Runs(s, acts)
    ensures Inv(Exec(s, acts))
    decreases |acts|
  {
    hide Inv, RootedWhitesCovered, Live;
    if acts != [] {
      SafeStep(s, acts[0]);
      SafeRunKeeps(Do(s, acts[0]), acts[1..]);
    }
  }

  /** A run of any number of cycles frees nothing live exactly when each of its sweeps finds the rooted whites covered. */
  lemma {:induction false} RunIsSafeIff<O>(s: State<O>, acts: seq<Action<O>>)
    requires Inv(s) && Runs(s, acts)
    ensures FreesNothingLive(s, acts) <==> SafeRun(s, acts)
    decreases |acts|
  {
    hide Inv, RootedWhitesCovered, Live;
    if acts != [] {
      SafeStep(s, acts[0]);
      if acts[0].Sweep? ==> RootedWhitesCovered(s.heap) {
        RunIsSafeIff(Do(s, acts[0]), acts[1..]);
      }
    }
  }

  /** A careful run is safe. */
  lemma {:induction false} CarefulRunIsSafe<O>(s: State<O>, acts: seq<Action<O>>)
    requires Inv(s) && Covered(s) && CarefulRun(s, acts)
    ensures SafeRun(s, acts)
    decreases |acts|
  {
    hide Inv, Covered, Careful, RootedWhitesCovered;
    if acts != [] {
      CarefulStep(s, acts[0]);
      if acts[0].Sweep? {
        SweepFreesOnlyDoomed(s, acts[0].t);
        CoveredIsSafe(s);
      }
      CarefulRunIsSafe(Do(s, acts[0]), acts[1..]);
    }
  }

  // ----- Books, queues and the busy counter, read off the invariant of a safe run -----

  /** Root counts are outstanding handles; every handle names a listed object; a drop never underflows. */
  lemma HandlesAreRootCounts<O>(s: State<O>, acts: seq<Action<O>>, o: O)
    requires Inv(s) && SafeRun(s, acts) && Runs(s, acts)
    ensures var e := Exec(s, acts);
      && (o in e.handles ==> o in e.heap && e.heap[o].roots >= 1)
      && (o in e.heap && (forall t | 0 <= t < |e.threads| :: !(e.threads[t].pc.Counting? && e.threads[t].pc.o == o)) ==>
            e.heap[o].roots == e.handles[o])
  {
    SafeRunKeeps(s, acts);
    var e := Exec(s, acts);
    BirthsAreCounting(e.threads, o);
    hide ShapeOk, ThreadsOk, CollectorOk, QueueOk, ColorsOk, BytesOk, BusyOk, Exec, Runs, SafeRun, Held, Births;
    assert RootsOk(e.heap, e.handles, Births(e.threads));
  }

  /** Bytes counted plus bytes linked but not counted are the bytes listed; the sweep never takes more than was counted. */
  lemma BytesAddUp<O>(s: State<O>, acts: seq<Action<O>>)
    requires Inv(s) && SafeRun(s, acts) && Runs(s, acts)
    ensures var e := Exec(s, acts);
      && (forall o | o in e.list :: o in e.heap)
      && e.bytes + Uncounted(e.threads) == SumSizes(e.list, e.heap)
      && (e.phase == Sweeping ==> 0 <= SumSizes(Filter(e.list, e.heap.Keys - Survivors(e.heap)), e.heap) <= e.bytes)
  {
    SafeRunKeeps(s, acts);
    var e := Exec(s, acts);
    hide Runs, SafeRun, Exec;
    SweepTakesCountedBytes(e);
  }

  /** The objects being allocated are kept, so the bytes taken were all counted. */
  lemma SweepTakesCountedBytes<O>(s: State<O>)
    requires Inv(s)
    ensures forall o | o in s.list :: o in s.heap
    ensures s.bytes + Uncounted(s.threads) == SumSizes(s.list, s.heap)
    ensures SumSizes(Filter(s.list, s.heap.Keys - Survivors(s.heap)), s.heap) <= s.bytes
  {
    SumSizesSplit(s.list, s.heap, Survivors(s.heap), s.heap.Keys - Survivors(s.heap));
    UncountedSurvives(s);
  }

  lemma UncountedSurvives<O>(s: State<O>)
    requires Inv(s) && forall o | o in s.list :: o in s.heap
    ensures Uncounted(s.threads) <= SumSizes(Filter(s.list, Survivors(s.heap)), s.heap)
  {
    forall t | 0 <= t < |s.threads| && s.threads[t].pc.Counting?
      ensures s.threads[t].pc.o in Survivors(s.heap) && s.heap[s.threads[t].pc.o].size == s.threads[t].pc.size
    {
      ThreadFacts(s, t);
      BirthIsRooted(s.heap, s.handles, s.threads, t);
    }
    FilterKeepsDistinct(s.list, Survivors(s.heap));
    assert RootsOk(s.heap, s.handles, Births(s.threads));
    hide Inv;
    UncountedFits(s.threads, Filter(s.list, Survivors(s.heap)), s.heap);
  }

  /** Objects born once are born once among the remaining threads, where the first one's is not found again. */
  lemma RestOfBirths<O>(threads: seq<Thread<O>>)
    requires threads != [] && forall o | o in Births(threads) :: Births(threads)[o] == 1
    ensures forall o | o in Births(threads[1..]) :: Births(threads[1..])[o] == 1
    ensures forall t | 0 <= t < |threads[1..]| :: threads[1..][t] == threads[t + 1]
    ensures threads[0].pc.Counting? ==>
      forall t | 0 <= t < |threads[1..]| && threads[1..][t].pc.Counting? :: threads[1..][t].pc.o != threads[0].pc.o
  {
    var rest := threads[1..];
    assert Births(threads) == BirthBy(threads[0]) + Births(rest);
    forall o | o in Births(rest) ensures Births(rest)[o] == 1 {
      assert o in Births(threads);
    }
    if threads[0].pc.Counting? {
      var o := threads[0].pc.o;
      assert Births(threads)[o] == 1 + Births(rest)[o] && o in Births(threads);
      forall t | 0 <= t < |rest| && rest[t].pc.Counting? ensures rest[t].pc.o != o {
        FoldsContain(rest, t);
        assert rest[t].pc.o in BirthBy(rest[t]);
        assert rest[t].pc.o in Births(rest);
      }
    }
  }

  /** Distinct objects of a list cannot together be larger than the list. */
  lemma {:induction false} UncountedFits<O>(threads: seq<Thread<O>>, list: seq<O>, h: map<O, Object<O>>)
    requires NoDuplicates(list) && (forall o | o in list :: o in h)
    requires forall t | 0 <= t < |threads| && threads[t].pc.Counting? ::
               threads[t].pc.o in list && h[threads[t].pc.o].size == threads[t].pc.size
    requires forall o | o in Births(threads) :: Births(threads)[o] == 1
    ensures Uncounted(threads) <= SumSizes(list, h)
  {
    hide Births, NoDuplicates;
    if threads != [] {
      var rest := threads[1..];
      RestOfBirths(threads);
      if threads[0].pc.Counting? {
        var o := threads[0].pc.o;
        var others := set x | x in list && x != o;
        SumSizesSplit(list, h, others, {o});
        OnlyOne(list, o);
        FilterKeepsDistinct(list, others);
        assert SumSizes([o], h) == h[o].size;
        UncountedFits(rest, Filter(list, others), h);
      } else {
        UncountedFits(rest, list, h);
      }
    }
  }

  lemma {:induction false} OnlyOne<O>(list: seq<O>, o: O)
    requires NoDuplicates(list) && o in list
    ensures Filter(list, {o}) == [o]
  {
    var tail := list[1..];
    assert forall i | 0 <= i < |tail| :: tail[i] == list[i + 1];
    if list[0] == o {
      NoneLeft(tail, o);
    } else {
      OnlyOne(tail, o);
    }
  }

  lemma {:induction false} NoneLeft<O>(list: seq<O>, o: O)
    requires o !in list
    ensures Filter(list, {o}) == []
  {
    if list != [] {
      NoneLeft(list[1..], o);
    }
  }

  /** Each gray object is in exactly one work list, once enqueued in the cycle, and only live shaded objects are queued. */
  lemma GrayBookkeeping<O>(s: State<O>, acts: seq<Action<O>>, o: O)
    requires Inv(s) && SafeRun(s, acts) && Runs(s, acts)
    ensures var e := Exec(s, acts);
      && e.enqueued[o] <= 1
      && (o in e.heap && e.heap[o].color == Gray ==> Queued(e)[o] == 1)
      && (o in Queued(e) ==> Queued(e)[o] == 1 && o in e.heap && e.heap[o].color != White)
      && (o in Queued(e) && e.heap[o].color == Black ==> e.heap[o].leaf)
  {
    SafeRunKeeps(s, acts);
    var e := Exec(s, acts);
    hide Runs, SafeRun, Exec, ShapeOk, ThreadsOk, CollectorOk, ColorsOk, RootsOk, BytesOk, BusyOk;
    assert QueueOk(e.heap, Queued(e), e.enqueued, e.phase);
    assert Queued(e)[o] <= e.enqueued[o];
  }

  lemma StealMovesWork<O>(s: State<O>, t: nat)
    requires t < |s.threads| && Resting(s, t)
    ensures Queued(DoSteal(s, t)) == Queued(s)
  {
    hide Held, HeldBy, Reverse;
    StealConserves(s, t);
    QueuedSame(s.shared, DoSteal(s, t).shared, s.threads, t, DoSteal(s, t).threads[t]);
  }

  lemma PopMovesWork<O>(s: State<O>, t: nat)
    requires t < |s.threads| && s.threads[t].current.None? && s.threads[t].local != []
    ensures Queued(DoPop(s, t)) == Queued(s)
  {
    hide Held;
    var th := s.threads[t];
    assert th.local == th.local[..|th.local| - 1] + [th.local[|th.local| - 1]];
    HeldSame(s.threads, t, DoPop(s, t).threads[t]);
  }

  lemma MergeMovesWork<O>(s: State<O>, t: nat)
    requires t < |s.threads|
    ensures Queued(DoMerge(s, t)) == Queued(s)
  {
    hide Held;
    QueuedSame(s.shared, DoMerge(s, t).shared, s.threads, t, DoMerge(s, t).threads[t]);
  }

  /** The counter is the number of threads in a busy section; at the sweep there are none, and no work is left anywhere. */
  lemma BusyHandshake<O>(s: State<O>, acts: seq<Action<O>>)
    requires Inv(s) && SafeRun(s, acts) && Runs(s, acts)
    ensures var e := Exec(s, acts);
      && e.busy == BusyThreads(e.threads)
      && (e.phase == Sweeping ==>
            && e.busy == 0 && e.shared == []
            && forall t | 0 <= t < |e.threads| :: Resting(e, t) && !InBusySection(e.threads[t]))
  {
    SafeRunKeeps(s, acts);
    hide Runs, SafeRun, Exec;
    SweepingIsQuiet(Exec(s, acts));
  }

  lemma SweepingIsQuiet<O>(s: State<O>)
    requires Inv(s)
    ensures s.busy == BusyThreads(s.threads)
    ensures s.phase == Sweeping ==>
      && s.busy == 0 && s.shared == []
      && forall t | 0 <= t < |s.threads| :: Resting(s, t) && !InBusySection(s.threads[t])
  {
    if s.phase == Sweeping {
      forall t | 0 <= t < |s.threads| ensures Resting(s, t) && !InBusySection(s.threads[t]) {
        ThreadFacts(s, t);
      }
      NoneBusy(s.threads);
      if s.shared != [] {
        SharedIsQueued(s.shared, Held(s.threads));
      }
    }
  }

  lemma SharedIsQueued<O>(shared: seq<O>, held: multiset<O>)
    requires shared != []
    ensures multiset(shared) + held != multiset{}
  {
    assert shared[0] in multiset(shared) + held;
  }

  lemma {:induction false} NoneBusy<O>(threads: seq<Thread<O>>)
    requires forall t | 0 <= t < |threads| :: !InBusySection(threads[t])
    ensures BusyThreads(threads) == 0
  {
    if threads != [] {
      NoneBusy(threads[1..]);
    }
  }
}
