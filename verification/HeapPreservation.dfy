/** Actions that rewrite the heap: scanning, blackening, stores, root counts and linking keep the invariant. */
module HeapPreservation {
  import opened Protocol
  import opened Invariant
  import opened Preservation

  // ----- Tracing an object -----

  lemma ShadedSnoc<O>(h: map<O, Object<O>>, fs: seq<Option<O>>, k: nat)
    requires k < |fs| && Shaded(h, fs[..k])
    requires fs[k].Some? ==> fs[k].value in h && h[fs[k].value].color != White
    ensures Shaded(h, fs[..k + 1])
  {
    var more := fs[..k + 1];
    forall i | 0 <= i < |more| && more[i].Some? ensures more[i].value in h && h[more[i].value].color != White {
      if i < k {
        assert more[i] == fs[..k][i];
      }
    }
  }

  lemma ScanStepWork<O>(s: State<O>, s': State<O>, t: nat, c: Scan<O>)
    requires Inv(s) && Inv(s') && Tracing(s, t) && s.threads[t].current == Some(c)
    requires c.o in s.heap && c.k < |s.heap[c.o].fields|
    requires Darker(s.heap, s'.heap) && t < |s'.threads|
    requires s'.threads[t] == s.threads[t].(local := s'.threads[t].local)
    requires s.heap[c.o].fields[c.k].Some? ==>
               s.heap[c.o].fields[c.k].value in s'.heap && s'.heap[s.heap[c.o].fields[c.k].value].color != White
    ensures WorkOk(s'.heap, s'.threads[t].(current := Some(Scan(c.o, c.k + 1))))
  {
    hide ShapeOk, CollectorOk, QueueOk, ColorsOk, RootsOk, BytesOk, BusyOk, PcOk, Held, Births;
    ThreadFacts(s', t);
    ShadedSnoc(s'.heap, s'.heap[c.o].fields, c.k);
  }

  lemma FieldIsListed<O>(s: State<O>, o: O, k: nat)
    requires Inv(s) && o in s.heap && k < |s.heap[o].fields| && s.heap[o].fields[k].Some?
    ensures s.heap[o].fields[k].value in s.heap
  {
  }

  lemma TracingIsMarking<O>(s: State<O>, t: nat)
    requires Inv(s) && t < |s.threads|
    ensures Tracing(s, t) || s.threads[t].pc.SetShading? || s.threads[t].pc.SetMerged? ==> s.phase == Marking
  {
    ThreadFacts(s, t);
  }

  lemma ShadedThread<O>(s: State<O>, t: nat, f: Option<O>)
    requires t < |s.threads|
    ensures |Shade(s, t, f).threads| == |s.threads|
    ensures Shade(s, t, f).threads[t].current == s.threads[t].current && Shade(s, t, f).threads[t].pc == s.threads[t].pc
  {
  }

  lemma SameObjectSameHold<O>(th: Thread<O>, c: Scan<O>)
    requires th.current.Some? && th.current.value.o == c.o
    ensures HeldBy(th.(current := Some(c))) == HeldBy(th)
  {
  }

  lemma ScanFieldPreserves<O>(s: State<O>, t: nat)
    requires Inv(s) && Tracing(s, t) && HasCurrent(s, t)
    requires s.threads[t].current.value.k < |s.heap[s.threads[t].current.value.o].fields|
    ensures Inv(DoScanField(s, t))
  {
    hide Inv, PcOk, WorkOk, HeldBy, Shade;
    var c := s.threads[t].current.value;
    var f := s.heap[c.o].fields[c.k];
    if f.Some? {
      FieldIsListed(s, c.o, c.k);
    }
    TracingIsMarking(s, t);
    ShadePreserves(s, t, f);
    var s1 := Shade(s, t, f);
    ShadedThread(s, t, f);
    ScanStepWork(s, s1, t, c);
    ThreadFacts(s1, t);
    SameObjectSameHold(s1.threads[t], Scan(c.o, c.k + 1));
    MovePreserves(s1, t, s1.threads[t].(current := Some(Scan(c.o, c.k + 1))), s1.shared, s1.busy);
  }

  /** A traced object leaves the work lists and turns black: all it points to is shaded. */
  lemma TracedTurnsBlack<O>(h: map<O, Object<O>>, x: O, queued: multiset<O>, enqueued: multiset<O>, scanRoots: set<O>)
    requires QueueOk(h, queued + multiset{x}, enqueued, Marking) && ColorsOk(h, scanRoots, Marking)
    requires x in h && Shaded(h, h[x].fields)
    ensures var h' := h[x := h[x].(color := Black)];
      Darker(h, h') && QueueOk(h', queued, enqueued, Marking) && ColorsOk(h', scanRoots, Marking)
  {
    var h' := h[x := h[x].(color := Black)];
    var q := queued + multiset{x};
    assert x in q && q[x] == queued[x] + 1 && q <= enqueued;
    assert enqueued[x] == 1 && x !in queued;
    DarkerColors(h, h', scanRoots);
    forall o | o in h' && h'[o].color == Gray ensures o in queued {
      assert o in q;
    }
    forall o | o in queued && o in h' && h'[o].color == Black ensures h'[o].leaf {
      assert o in q;
    }
    assert queued <= q;
  }

  lemma ReleaseHeld<O>(threads: seq<Thread<O>>, t: nat, c: Scan<O>)
    requires t < |threads| && threads[t].current == Some(c)
    ensures Held(threads) == Held(threads[t := threads[t].(current := None)]) + multiset{c.o}
  {
    var th := threads[t].(current := None);
    HeldUpdate(threads, t, th);
    assert HeldBy(threads[t]) == HeldBy(th) + multiset{c.o};
    assert (Held(threads[t := th]) + multiset{c.o}) + HeldBy(th) == Held(threads) + HeldBy(th);
    Cancel(Held(threads[t := th]) + multiset{c.o}, Held(threads), HeldBy(th));
  }

  lemma BlackenPreserves<O>(s: State<O>, t: nat)
    requires Inv(s) && Tracing(s, t) && HasCurrent(s, t)
    requires s.threads[t].current.value.k == |s.heap[s.threads[t].current.value.o].fields|
    ensures Inv(DoBlacken(s, t))
  {
    hide ShapeOk, ThreadsOk, CollectorOk, QueueOk, ColorsOk, RootsOk, BytesOk, BusyOk, PcOk, WorkOk, Shaded, Held, Births;
    BlackenWork(s, t);
    TracingIsMarking(s, t);
    var c := s.threads[t].current.value;
    var th := s.threads[t].(current := None);
    var h' := s.heap[c.o := s.heap[c.o].(color := Black)];
    var s' := DoBlacken(s, t);
    ReleaseHeld(s.threads, t, c);
    assert Queued(s) == Queued(s') + multiset{c.o};
    TracedTurnsBlack(s.heap, c.o, Queued(s'), s.enqueued, s.scanRoots);
    LocalFrame(s, t, th);
    DarkerFrame(s, h');
    DarkerThreads(s.heap, h', s.phase, s.scanned, s'.threads);
    DarkerBytes(s.heap, h', s.list, s.bytes, s'.threads);
  }

  lemma BlackenWork<O>(s: State<O>, t: nat)
    requires Inv(s) && Tracing(s, t) && HasCurrent(s, t)
    requires s.threads[t].current.value.k == |s.heap[s.threads[t].current.value.o].fields|
    ensures WorkOk(s.heap, s.threads[t].(current := None))
    ensures Shaded(s.heap, s.heap[s.threads[t].current.value.o].fields)
  {
    ThreadFacts(s, t);
    var c := s.threads[t].current.value;
    assert s.heap[c.o].fields[..c.k] == s.heap[c.o].fields;
  }

  // ----- GcCell::set -----

  lemma SetShadePreserves<O>(s: State<O>, t: nat)
    requires Inv(s) && t < |s.threads| && s.threads[t].pc.SetShading? && s.threads[t].pc.done < |s.threads[t].pc.vals|
    ensures Inv(DoSetShade(s, t))
  {
    hide Inv, PcOk;
    TracingIsMarking(s, t);
    var pc := s.threads[t].pc;
    var f := pc.vals[pc.done];
    SetShadeListed(s, t);
    ShadePreserves(s, t, f);
    var s1 := Shade(s, t, f);
    SetShadePc(s1, t, pc);
    SetShadeWork(s1, t, pc.(done := pc.done + 1));
    MovePreserves(s1, t, s1.threads[t].(pc := pc.(done := pc.done + 1)), s1.shared, s1.busy);
  }

  lemma SetShadeWork<O>(s: State<O>, t: nat, pc: Pc<O>)
    requires Inv(s) && t < |s.threads| && s.threads[t].pc.SetShading? && pc.SetShading?
    ensures WorkOk(s.heap, s.threads[t].(pc := pc))
  {
    ThreadFacts(s, t);
  }

  lemma SetShadeListed<O>(s: State<O>, t: nat)
    requires Inv(s) && t < |s.threads| && s.threads[t].pc.SetShading? && s.threads[t].pc.done < |s.threads[t].pc.vals|
    ensures s.threads[t].pc.vals[s.threads[t].pc.done].Some? ==> s.threads[t].pc.vals[s.threads[t].pc.done].value in s.heap
  {
    ThreadFacts(s, t);
  }

  lemma SetShadePc<O>(s: State<O>, t: nat, pc: Pc<O>)
    requires Inv(s) && Is(s, t, pc) && pc.SetShading? && pc.done < |pc.vals|
    requires pc.vals[pc.done].Some? ==> pc.vals[pc.done].value in s.heap && s.heap[pc.vals[pc.done].value].color != White
    ensures PcOk(s.heap, s.phase, s.scanned, pc.(done := pc.done + 1))
  {
    hide ShapeOk, CollectorOk, QueueOk, ColorsOk, RootsOk, BytesOk, BusyOk, Held, Births;
    ThreadFacts(s, t);
    ShadedSnoc(s.heap, pc.vals, pc.done);
  }

  /** `h'` differs from `h` in what some slots hold. */
  ghost predicate Rewritten<O>(h: map<O, Object<O>>, h': map<O, Object<O>>) {
    && h'.Keys == h.Keys
    && forall o | o in h :: h'[o] == h[o].(fields := h'[o].fields) && |h'[o].fields| == |h[o].fields|
  }

  lemma StoreRewrites<O>(h: map<O, Object<O>>, o: O, at: nat, vals: seq<Option<O>>)
    requires CanStore(h, o, at, vals)
    ensures Rewritten(h, Store(h, o, at, vals))
    ensures forall i | 0 <= i < |h[o].fields| ::
      Store(h, o, at, vals)[o].fields[i] == if at <= i < at + |vals| then vals[i - at] else h[o].fields[i]
  {
  }

  lemma StoreShape<O>(h: map<O, Object<O>>, list: seq<O>, ever: set<O>, o: O, at: nat, vals: seq<Option<O>>)
    requires ShapeOk(h, list, ever) && CanStore(h, o, at, vals) && Listed(h, vals)
    ensures ShapeOk(Store(h, o, at, vals), list, ever)
  {
    StoreRewrites(h, o, at, vals);
    var h' := Store(h, o, at, vals);
    forall x | x in h' ensures Listed(h', h'[x].fields) {
      assert Listed(h, h[x].fields);
    }
  }

  lemma RewrittenPc<O>(h: map<O, Object<O>>, h': map<O, Object<O>>, phase: Phase, scanned: bool, pc: Pc<O>)
    requires PcOk(h, phase, scanned, pc) && Rewritten(h, h')
    ensures PcOk(h', phase, scanned, pc)
  {
  }

  lemma StoreThreads<O>(h: map<O, Object<O>>, phase: Phase, scanned: bool, threads: seq<Thread<O>>, o: O, at: nat, vals: seq<Option<O>>)
    requires ThreadsOk(h, phase, scanned, threads) && CanStore(h, o, at, vals)
    requires phase == Marking ==> Shaded(h, vals)
    ensures ThreadsOk(Store(h, o, at, vals), phase, scanned, threads)
  {
    StoreRewrites(h, o, at, vals);
    var h' := Store(h, o, at, vals);
    forall i | 0 <= i < |threads|
      ensures PcOk(h', phase, scanned, threads[i].pc) && WorkOk(h', threads[i])
    {
      RewrittenPc(h, h', phase, scanned, threads[i].pc);
      assert WorkOk(h, threads[i]);
      assert PcOk(h, phase, scanned, threads[i].pc);
      StoreWork(h, phase, threads[i], o, at, vals);
    }
  }

  /** A store into an object in progress keeps the fields already passed shaded. */
  lemma StoreWork<O>(h: map<O, Object<O>>, phase: Phase, th: Thread<O>, o: O, at: nat, vals: seq<Option<O>>)
    requires WorkOk(h, th) && CanStore(h, o, at, vals)
    requires th.current.Some? ==> Shaded(h, vals)
    ensures WorkOk(Store(h, o, at, vals), th)
  {
    StoreRewrites(h, o, at, vals);
    var h' := Store(h, o, at, vals);
    if th.current.Some? {
      var c := th.current.value;
      var before, after := h[c.o].fields[..c.k], h'[c.o].fields[..c.k];
      forall i | 0 <= i < c.k && after[i].Some? ensures after[i].value in h' && h'[after[i].value].color != White {
        if c.o != o || !(at <= i < at + |vals|) {
          assert after[i] == before[i];
        } else {
          assert after[i] == vals[i - at];
        }
      }
    }
  }

  lemma StoreColors<O>(h: map<O, Object<O>>, scanRoots: set<O>, phase: Phase, o: O, at: nat, vals: seq<Option<O>>)
    requires ColorsOk(h, scanRoots, phase) && CanStore(h, o, at, vals) && phase != Sweeping
    requires phase == Marking ==> Shaded(h, vals)
    ensures ColorsOk(Store(h, o, at, vals), scanRoots, phase)
  {
    StoreRewrites(h, o, at, vals);
    var h' := Store(h, o, at, vals);
    forall x | x in h' && h'[x].color == Black ensures Shaded(h', h'[x].fields) {
      assert Shaded(h, h[x].fields);
      forall i | 0 <= i < |h'[x].fields| && h'[x].fields[i].Some?
        ensures h'[x].fields[i].value in h' && h'[h'[x].fields[i].value].color != White
      {
        if x == o && at <= i < at + |vals| {
          assert h'[x].fields[i] == vals[i - at];
        } else {
          assert h'[x].fields[i] == h[x].fields[i];
        }
      }
    }
  }

  lemma RewrittenFrame<O>(h: map<O, Object<O>>, h': map<O, Object<O>>, s: State<O>)
    requires Inv(s) && h == s.heap && Rewritten(h, h')
    ensures QueueOk(h', Queued(s), s.enqueued, s.phase)
    ensures RootsOk(h', s.handles, Births(s.threads)) && BytesOk(h', s.list, s.bytes, s.threads)
  {
    SumSizesFrame(s.list, h, h');
  }

  lemma HeapStorePreserves<O>(s: State<O>, o: O, at: nat, vals: seq<Option<O>>)
    requires Inv(s) && CanStore(s.heap, o, at, vals) && Listed(s.heap, vals) && s.phase != Sweeping
    requires s.phase == Marking ==> Shaded(s.heap, vals)
    ensures Inv(s.(heap := Store(s.heap, o, at, vals)))
  {
    hide ShapeOk, ThreadsOk, CollectorOk, QueueOk, ColorsOk, RootsOk, BytesOk, BusyOk, Shaded, Listed, Store, Held,
         Births;
    StoreRewrites(s.heap, o, at, vals);
    StoreShape(s.heap, s.list, s.ever, o, at, vals);
    StoreThreads(s.heap, s.phase, s.scanned, s.threads, o, at, vals);
    StoreColors(s.heap, s.scanRoots, s.phase, o, at, vals);
    RewrittenFrame(s.heap, Store(s.heap, o, at, vals), s);
  }

  /** The store and the end of the busy section, when the new pointers are shaded or marking is off. */
  lemma StorePreserves<O>(s: State<O>, t: nat, o: O, at: nat, vals: seq<Option<O>>)
    requires Inv(s) && t < |s.threads| && (s.threads[t].pc.SetEntered? || s.threads[t].pc.SetMerged?)
    requires CanStore(s.heap, o, at, vals) && Listed(s.heap, vals) && s.phase != Sweeping
    requires s.phase == Marking ==> Shaded(s.heap, vals)
    ensures Inv(DoStore(s, t, o, at, vals))
  {
    hide Inv, Shaded, Listed, Store;
    ReadyAgain(s, t);
    HeapStorePreserves(WithPc(s, t, Ready).(busy := s.busy - 1), o, at, vals);
  }

  lemma ReadyAgain<O>(s: State<O>, t: nat)
    requires Inv(s) && t < |s.threads| && (s.threads[t].pc.SetEntered? || s.threads[t].pc.SetMerged?)
    ensures Inv(WithPc(s, t, Ready).(busy := s.busy - 1))
  {
    hide ShapeOk, CollectorOk, QueueOk, ColorsOk, RootsOk, BytesOk, BusyOk, Held, Births;
    ThreadFacts(s, t);
    MovePreserves(s, t, s.threads[t].(pc := Ready), s.shared, s.busy - 1);
  }

  lemma SetCheckPreserves<O>(s: State<O>, t: nat)
    requires Inv(s) && t < |s.threads| && s.threads[t].pc.SetEntered?
    requires CanStore(s.heap, s.threads[t].pc.o, s.threads[t].pc.at, s.threads[t].pc.vals)
    ensures Inv(DoSetCheck(s, t))
  {
    hide Inv;
    var pc := s.threads[t].pc;
    if s.phase == Marking {
      SetCheckMarkingPreserves(s, t);
    } else {
      PendingFacts(s, t);
      StorePreserves(s, t, pc.o, pc.at, pc.vals);
    }
  }

  lemma PendingFacts<O>(s: State<O>, t: nat)
    requires Inv(s) && t < |s.threads|
    ensures var pc := s.threads[t].pc;
      && (pc.SetEntered? ==> Listed(s.heap, pc.vals) && s.phase != Sweeping)
      && (pc.SetMerged? ==> Listed(s.heap, pc.vals) && Shaded(s.heap, pc.vals) && s.phase == Marking)
  {
    ThreadFacts(s, t);
  }

  lemma SetLeavePreserves<O>(s: State<O>, t: nat)
    requires Inv(s) && t < |s.threads| && s.threads[t].pc.SetMerged?
    requires CanStore(s.heap, s.threads[t].pc.o, s.threads[t].pc.at, s.threads[t].pc.vals)
    ensures Inv(DoSetLeave(s, t))
  {
    hide Inv;
    PendingFacts(s, t);
    var pc := s.threads[t].pc;
    StorePreserves(s, t, pc.o, pc.at, pc.vals);
  }

  // ----- Handles -----

  /** `h'` differs from `h` in root counts only. */
  ghost predicate Recounted<O>(h: map<O, Object<O>>, h': map<O, Object<O>>) {
    h'.Keys == h.Keys && forall o | o in h :: h'[o] == h[o].(roots := h'[o].roots)
  }

  lemma RecountedShape<O>(h: map<O, Object<O>>, h': map<O, Object<O>>, list: seq<O>, ever: set<O>)
    requires ShapeOk(h, list, ever) && Recounted(h, h')
    ensures ShapeOk(h', list, ever)
  {
  }

  lemma RecountedThread<O>(h: map<O, Object<O>>, h': map<O, Object<O>>, phase: Phase, scanned: bool, th: Thread<O>)
    requires PcOk(h, phase, scanned, th.pc) && WorkOk(h, th) && Recounted(h, h')
    ensures PcOk(h', phase, scanned, th.pc) && WorkOk(h', th)
  {
  }

  lemma RecountedThreads<O>(h: map<O, Object<O>>, h': map<O, Object<O>>, phase: Phase, scanned: bool, threads: seq<Thread<O>>)
    requires ThreadsOk(h, phase, scanned, threads) && Recounted(h, h')
    ensures ThreadsOk(h', phase, scanned, threads)
  {
    forall i | 0 <= i < |threads| ensures PcOk(h', phase, scanned, threads[i].pc) && WorkOk(h', threads[i]) {
      RecountedThread(h, h', phase, scanned, threads[i]);
    }
  }

  lemma RecountedMarks<O>(h: map<O, Object<O>>, h': map<O, Object<O>>, queued: multiset<O>, enqueued: multiset<O>, scanRoots: set<O>, phase: Phase)
    requires QueueOk(h, queued, enqueued, phase) && ColorsOk(h, scanRoots, phase) && Recounted(h, h')
    ensures QueueOk(h', queued, enqueued, phase) && ColorsOk(h', scanRoots, phase)
  {
  }

  lemma RecountedBytes<O>(h: map<O, Object<O>>, h': map<O, Object<O>>, list: seq<O>, bytes: int, threads: seq<Thread<O>>)
    requires BytesOk(h, list, bytes, threads) && Recounted(h, h')
    ensures BytesOk(h', list, bytes, threads)
  {
    SumSizesFrame(list, h, h');
  }

  lemma RecountPreserves<O>(s: State<O>, h': map<O, Object<O>>, handles: multiset<O>)
    requires Inv(s) && Recounted(s.heap, h') && RootsOk(h', handles, Births(s.threads))
    ensures Inv(s.(heap := h', handles := handles))
  {
    hide ShapeOk, ThreadsOk, CollectorOk, QueueOk, ColorsOk, RootsOk, BytesOk, BusyOk, Held, Births;
    RecountedShape(s.heap, h', s.list, s.ever);
    RecountedThreads(s.heap, h', s.phase, s.scanned, s.threads);
    RecountedMarks(s.heap, h', Queued(s), s.enqueued, s.scanRoots, s.phase);
    RecountedBytes(s.heap, h', s.list, s.bytes, s.threads);
  }

  lemma HandleOut<O>(h: map<O, Object<O>>, handles: multiset<O>, births: multiset<O>, o: O)
    requires RootsOk(h, handles, births) && o in h
    ensures RootsOk(h[o := h[o].(roots := h[o].roots + 1)], handles + multiset{o}, births)
  {
  }

  /** A held handle stands for a root count of at least one. */
  lemma HandleBack<O>(h: map<O, Object<O>>, handles: multiset<O>, births: multiset<O>, o: O)
    requires RootsOk(h, handles, births) && o in h && o in handles
    ensures h[o].roots >= 1
    ensures RootsOk(h[o := h[o].(roots := h[o].roots - 1)], handles - multiset{o}, births)
  {
  }

  lemma AddRootPreserves<O>(s: State<O>, o: O)
    requires Inv(s) && o in s.heap
    ensures Inv(AddRoots(s, o, 1).(handles := s.handles + multiset{o}))
  {
    hide ShapeOk, ThreadsOk, CollectorOk, QueueOk, ColorsOk, RootsOk, BytesOk, BusyOk, Held, Births;
    HandleOut(s.heap, s.handles, Births(s.threads), o);
    RecountPreserves(s, AddRoots(s, o, 1).heap, s.handles + multiset{o});
  }

  lemma DropRootPreserves<O>(s: State<O>, o: O)
    requires Inv(s) && o in s.heap && o in s.handles
    ensures s.heap[o].roots >= 1
    ensures Inv(AddRoots(s, o, -1).(handles := s.handles - multiset{o}))
  {
    hide ShapeOk, ThreadsOk, CollectorOk, QueueOk, ColorsOk, RootsOk, BytesOk, BusyOk, Held, Births;
    HandleBack(s.heap, s.handles, Births(s.threads), o);
    RecountPreserves(s, AddRoots(s, o, -1).heap, s.handles - multiset{o});
  }

  // ----- Allocation -----

  lemma LinkShape<O>(h: map<O, Object<O>>, list: seq<O>, ever: set<O>, o: O, obj: Object<O>)
    requires ShapeOk(h, list, ever) && o !in ever && Listed(h, obj.fields) && (obj.leaf ==> obj.fields == [])
    ensures ShapeOk(h[o := obj], [o] + list, ever + {o})
  {
    var h' := h[o := obj];
    assert o !in list;
    forall x | x in h' ensures Listed(h', h'[x].fields) {
      if x != o {
        assert Listed(h, h[x].fields);
      }
    }
  }

  lemma LinkThreads<O>(h: map<O, Object<O>>, phase: Phase, scanned: bool, threads: seq<Thread<O>>, o: O, obj: Object<O>)
    requires ThreadsOk(h, phase, scanned, threads) && o !in h
    ensures ThreadsOk(h[o := obj], phase, scanned, threads)
  {
    var h' := h[o := obj];
    forall i | 0 <= i < |threads| ensures PcOk(h', phase, scanned, threads[i].pc) && WorkOk(h', threads[i]) {
      LinkThread(h, phase, scanned, threads[i], o, obj);
    }
  }

  lemma LinkThread<O>(h: map<O, Object<O>>, phase: Phase, scanned: bool, th: Thread<O>, o: O, obj: Object<O>)
    requires PcOk(h, phase, scanned, th.pc) && WorkOk(h, th) && o !in h
    ensures PcOk(h[o := obj], phase, scanned, th.pc) && WorkOk(h[o := obj], th)
  {
  }

  lemma LinkQueue<O>(h: map<O, Object<O>>, queued: multiset<O>, enqueued: multiset<O>, phase: Phase, o: O, obj: Object<O>)
    requires QueueOk(h, queued, enqueued, phase) && o !in h && obj.color == White
    ensures QueueOk(h[o := obj], queued, enqueued, phase)
  {
    assert o !in enqueued;
    assert forall x | x in queued :: x in enqueued;
  }

  lemma LinkColors<O>(h: map<O, Object<O>>, scanRoots: set<O>, phase: Phase, o: O, obj: Object<O>)
    requires ColorsOk(h, scanRoots, phase) && o !in h && obj.color == White
    ensures ColorsOk(h[o := obj], scanRoots, phase)
  {
    var h' := h[o := obj];
    forall x | x in h' && h'[x].color == Black ensures Shaded(h', h'[x].fields) {
      assert Shaded(h, h[x].fields);
    }
  }

  lemma LinkRoots<O>(h: map<O, Object<O>>, handles: multiset<O>, births: multiset<O>, o: O, obj: Object<O>)
    requires RootsOk(h, handles, births) && o !in h && obj.roots == 1
    ensures RootsOk(h[o := obj], handles, births + multiset{o})
  {
    assert o !in handles && o !in births;
  }

  lemma LinkBytes<O>(h: map<O, Object<O>>, list: seq<O>, bytes: int, threads: seq<Thread<O>>, o: O, obj: Object<O>, t: nat, th: Thread<O>)
    requires BytesOk(h, list, bytes, threads) && o !in h && t < |threads|
    requires UncountedBy(th) == UncountedBy(threads[t]) + obj.size
    ensures BytesOk(h[o := obj], [o] + list, bytes, threads[t := th])
  {
    var h', list' := h[o := obj], [o] + list;
    SumSizesFrame(list, h, h');
    assert list'[1..] == list;
    CountsUpdate(threads, t, th);
  }

  lemma BirthsOneMore<O>(threads: seq<Thread<O>>, t: nat, th: Thread<O>, o: O)
    requires t < |threads| && BirthBy(threads[t]) == multiset{} && BirthBy(th) == multiset{o}
    ensures Births(threads[t := th]) == Births(threads) + multiset{o}
  {
    BirthsUpdate(threads, t, th);
  }

  lemma LinkPreserves<O>(s: State<O>, t: nat, o: O, obj: Object<O>)
    requires Inv(s) && Is(s, t, Ready) && o !in s.ever && obj.color == White && obj.roots == 1
    requires Listed(s.heap, obj.fields) && (obj.leaf ==> obj.fields == [])
    ensures Inv(DoLink(s, t, o, obj))
  {
    hide ShapeOk, ThreadsOk, CollectorOk, QueueOk, ColorsOk, RootsOk, BytesOk, BusyOk, Listed, PcOk, WorkOk, Held, Births;
    LinkFacts(s, t, o, obj);
    var th := s.threads[t].(pc := Counting(o, obj.size));
    LinkShape(s.heap, s.list, s.ever, o, obj);
    LinkThreads(s.heap, s.phase, s.scanned, s.threads, o, obj);
    ThreadsUpdate(s.heap[o := obj], s.phase, s.scanned, s.threads, t, th);
    CollectorUpdate(s.threads, s.phase, s.scanned, s.collector, t, th);
    BusySame(s.threads, s.busy, t, th);
    HeldSame(s.threads, t, th);
    BirthsOneMore(s.threads, t, th, o);
    LinkQueue(s.heap, Queued(s), s.enqueued, s.phase, o, obj);
    LinkColors(s.heap, s.scanRoots, s.phase, o, obj);
    LinkRoots(s.heap, s.handles, Births(s.threads), o, obj);
    LinkBytes(s.heap, s.list, s.bytes, s.threads, o, obj, t, th);
  }

  lemma LinkFacts<O>(s: State<O>, t: nat, o: O, obj: Object<O>)
    requires Inv(s) && Is(s, t, Ready) && o !in s.ever
    ensures o !in s.heap
    ensures PcOk(s.heap[o := obj], s.phase, s.scanned, Counting(o, obj.size))
    ensures WorkOk(s.heap[o := obj], s.threads[t].(pc := Counting(o, obj.size)))
  {
    ThreadFacts(s, t);
  }

  lemma CountRoots<O>(h: map<O, Object<O>>, handles: multiset<O>, births: multiset<O>, o: O)
    requires RootsOk(h, handles, births + multiset{o})
    ensures RootsOk(h, handles + multiset{o}, births)
  {
    var more := births + multiset{o};
    assert o in more;
    assert forall x | x in births :: x in more && more[x] >= births[x];
  }

  lemma CountBytes<O>(h: map<O, Object<O>>, list: seq<O>, bytes: int, threads: seq<Thread<O>>, t: nat, th: Thread<O>)
    requires BytesOk(h, list, bytes, threads) && t < |threads| && UncountedBy(th) == 0
    ensures BytesOk(h, list, bytes + UncountedBy(threads[t]), threads[t := th])
  {
    CountsUpdate(threads, t, th);
  }

  lemma BirthsOneLess<O>(threads: seq<Thread<O>>, t: nat, th: Thread<O>, o: O)
    requires t < |threads| && BirthBy(threads[t]) == multiset{o} && BirthBy(th) == multiset{}
    ensures Births(threads) == Births(threads[t := th]) + multiset{o}
  {
    BirthsUpdate(threads, t, th);
  }

  lemma CountFolds<O>(threads: seq<Thread<O>>, busy: int, t: nat, th: Thread<O>)
    requires t < |threads| && BusyOk(threads, busy)
    requires threads[t].pc.Counting? && th == threads[t].(pc := Ready)
    ensures BusyOk(threads[t := th], busy) && Held(threads[t := th]) == Held(threads)
    ensures Births(threads) == Births(threads[t := th]) + multiset{threads[t].pc.o}
  {
    hide BusyOk;
    BusySame(threads, busy, t, th);
    HeldSame(threads, t, th);
    BirthsOneLess(threads, t, th, threads[t].pc.o);
  }

  lemma CountPreserves<O>(s: State<O>, t: nat)
    requires Inv(s) && t < |s.threads| && s.threads[t].pc.Counting?
    ensures Inv(DoCount(s, t))
  {
    hide ShapeOk, ThreadsOk, CollectorOk, QueueOk, ColorsOk, RootsOk, BytesOk, BusyOk, WorkOk, PcOk, Held, Births;
    var pc := s.threads[t].pc;
    var th := s.threads[t].(pc := Ready);
    CountWork(s, t);
    ThreadsUpdate(s.heap, s.phase, s.scanned, s.threads, t, th);
    CollectorUpdate(s.threads, s.phase, s.scanned, s.collector, t, th);
    CountFolds(s.threads, s.busy, t, th);
    CountRoots(s.heap, s.handles, Births(s.threads[t := th]), pc.o);
    CountBytes(s.heap, s.list, s.bytes, s.threads, t, th);
  }

  lemma CountWork<O>(s: State<O>, t: nat)
    requires Inv(s) && t < |s.threads| && s.threads[t].pc.Counting?
    ensures WorkOk(s.heap, s.threads[t].(pc := Ready)) && PcOk(s.heap, s.phase, s.scanned, Ready)
  {
    ThreadFacts(s, t);
  }
}
