/** Every action keeps the invariant. */
module Preservation {
  import opened Protocol
  import opened Invariant

  // ----- Folds over threads and lists -----

  lemma AddBoth<O>(a: multiset<O>, x: multiset<O>, h: multiset<O>, y: multiset<O>, k: multiset<O>)
    requires x + h == y + k
    ensures (a + x) + h == (a + y) + k
  {
    assert (a + x) + h == a + (x + h);
    assert (a + y) + k == a + (y + k);
  }

  lemma {:induction false} HeldUpdate<O>(threads: seq<Thread<O>>, t: nat, th: Thread<O>)
    requires t < |threads|
    ensures Held(threads[t := th]) + HeldBy(threads[t]) == Held(threads) + HeldBy(th)
  {
    var changed := threads[t := th];
    if t == 0 {
      assert changed[1..] == threads[1..];
    } else {
      assert changed[1..] == threads[1..][t - 1 := th];
      HeldUpdate(threads[1..], t - 1, th);
      AddBoth(HeldBy(threads[0]), Held(changed[1..]), HeldBy(threads[t]), Held(threads[1..]), HeldBy(th));
    }
  }

  lemma {:induction false} BirthsUpdate<O>(threads: seq<Thread<O>>, t: nat, th: Thread<O>)
    requires t < |threads|
    ensures Births(threads[t := th]) + BirthBy(threads[t]) == Births(threads) + BirthBy(th)
  {
    var changed := threads[t := th];
    if t == 0 {
      assert changed[1..] == threads[1..];
    } else {
      assert changed[1..] == threads[1..][t - 1 := th];
      BirthsUpdate(threads[1..], t - 1, th);
      AddBoth(BirthBy(threads[0]), Births(changed[1..]), BirthBy(threads[t]), Births(threads[1..]), BirthBy(th));
    }
  }

  lemma {:induction false} CountsUpdate<O>(threads: seq<Thread<O>>, t: nat, th: Thread<O>)
    requires t < |threads|
    ensures BusyThreads(threads[t := th]) + BusyBy(threads[t]) == BusyThreads(threads) + BusyBy(th)
    ensures Uncounted(threads[t := th]) + UncountedBy(threads[t]) == Uncounted(threads) + UncountedBy(th)
  {
    var changed := threads[t := th];
    if t == 0 {
      assert changed[1..] == threads[1..];
    } else {
      assert changed[1..] == threads[1..][t - 1 := th];
      CountsUpdate(threads[1..], t - 1, th);
    }
  }

  /** What one thread contributes is part of the whole. */
  lemma {:induction false} FoldsContain<O>(threads: seq<Thread<O>>, t: nat)
    requires t < |threads|
    ensures HeldBy(threads[t]) <= Held(threads)
    ensures BusyBy(threads[t]) <= BusyThreads(threads)
    ensures BirthBy(threads[t]) <= Births(threads)
  {
    if t > 0 {
      FoldsContain(threads[1..], t - 1);
    }
  }

  lemma {:induction false} BirthsAreCounting<O>(threads: seq<Thread<O>>, o: O)
    ensures o in Births(threads) ==> exists t | 0 <= t < |threads| :: threads[t].pc.Counting? && threads[t].pc.o == o
  {
    if threads != [] && o in Births(threads) && o !in BirthBy(threads[0]) {
      BirthsAreCounting(threads[1..], o);
      var t :| 0 <= t < |threads[1..]| && threads[1..][t].pc.Counting? && threads[1..][t].pc.o == o;
      assert threads[t + 1] == threads[1..][t];
    }
  }

  /** Sizes do not change, so neither does their sum. */
  lemma {:induction false} SumSizesFrame<O>(list: seq<O>, h: map<O, Object<O>>, h': map<O, Object<O>>)
    requires forall o | o in list :: o in h && o in h' && h'[o].size == h[o].size
    ensures SumSizes(list, h') == SumSizes(list, h)
  {
    if list != [] {
      SumSizesFrame(list[1..], h, h');
    }
  }

  lemma Cancel<O>(a: multiset<O>, b: multiset<O>, c: multiset<O>)
    requires a + c == b + c
    ensures a == b
  {
    assert (a + c) - c == a;
    assert (b + c) - c == b;
  }

  /** Work that moves between the shared queue and one thread is conserved. */
  lemma QueuedSame<O>(shared: seq<O>, shared': seq<O>, threads: seq<Thread<O>>, t: nat, th: Thread<O>)
    requires t < |threads|
    requires multiset(shared') + HeldBy(th) == multiset(shared) + HeldBy(threads[t])
    ensures multiset(shared') + Held(threads[t := th]) == multiset(shared) + Held(threads)
  {
    HeldUpdate(threads, t, th);
    Exchange(multiset(shared'), multiset(shared), Held(threads[t := th]), Held(threads), HeldBy(th), HeldBy(threads[t]));
  }

  lemma Exchange<O>(x': multiset<O>, x: multiset<O>, y': multiset<O>, y: multiset<O>, d': multiset<O>, d: multiset<O>)
    requires x' + d' == x + d
    requires y' + d == y + d'
    ensures x' + y' == x + y
  {
    assert (x' + y') + d == x' + (y' + d);
    assert x' + (y + d') == (x' + d') + y;
    assert (x + d) + y == (x + y) + d;
    Cancel(x' + y', x + y, d);
  }

  lemma BirthsSame<O>(threads: seq<Thread<O>>, t: nat, th: Thread<O>)
    requires t < |threads| && BirthBy(th) == BirthBy(threads[t])
    ensures Births(threads[t := th]) == Births(threads)
  {
    BirthsUpdate(threads, t, th);
    Cancel(Births(threads[t := th]), Births(threads), BirthBy(th));
  }

  lemma BusyUpdate<O>(threads: seq<Thread<O>>, busy: int, t: nat, th: Thread<O>)
    requires t < |threads| && BusyOk(threads, busy)
    ensures BusyOk(threads[t := th], busy + BusyBy(th) - BusyBy(threads[t]))
  {
    CountsUpdate(threads, t, th);
  }

  lemma BytesSame<O>(heap: map<O, Object<O>>, list: seq<O>, bytes: int, threads: seq<Thread<O>>, t: nat, th: Thread<O>)
    requires t < |threads| && BytesOk(heap, list, bytes, threads)
    requires UncountedBy(th) == UncountedBy(threads[t])
    ensures BytesOk(heap, list, bytes, threads[t := th])
  {
    CountsUpdate(threads, t, th);
  }

  lemma ThreadsUpdate<O>(heap: map<O, Object<O>>, phase: Phase, scanned: bool, threads: seq<Thread<O>>, t: nat, th: Thread<O>)
    requires ThreadsOk(heap, phase, scanned, threads) && t < |threads|
    requires PcOk(heap, phase, scanned, th.pc) && WorkOk(heap, th)
    ensures ThreadsOk(heap, phase, scanned, threads[t := th])
  {
  }

  lemma CollectorUpdate<O>(threads: seq<Thread<O>>, phase: Phase, scanned: bool, collector: nat, t: nat, th: Thread<O>)
    requires CollectorOk(threads, phase, scanned, collector) && t < |threads|
    requires IsCollector(th.pc) == IsCollector(threads[t].pc)
    ensures CollectorOk(threads[t := th], phase, scanned, collector)
  {
  }

  // ----- Actions that leave the heap alone -----

  /** A thread moves on; work may pass between it and the shared queue, but none is lost. */
  lemma MovePreserves<O>(s: State<O>, t: nat, th: Thread<O>, shared: seq<O>, busy: int)
    requires Inv(s) && t < |s.threads|
    requires IsCollector(th.pc) == IsCollector(s.threads[t].pc)
    requires multiset(shared) + HeldBy(th) == multiset(s.shared) + HeldBy(s.threads[t])
    requires BirthBy(th) == BirthBy(s.threads[t]) && UncountedBy(th) == UncountedBy(s.threads[t])
    requires PcOk(s.heap, s.phase, s.scanned, th.pc) && WorkOk(s.heap, th)
    requires busy == s.busy + BusyBy(th) - BusyBy(s.threads[t])
    ensures Inv(WithThread(s, t, th).(shared := shared, busy := busy))
  {
    hide ShapeOk, ThreadsOk, CollectorOk, QueueOk, ColorsOk, RootsOk, BytesOk, BusyOk, PcOk, WorkOk,
         HeldBy, BirthBy, UncountedBy, BusyBy, IsCollector, Held, Births;
    ThreadsUpdate(s.heap, s.phase, s.scanned, s.threads, t, th);
    CollectorUpdate(s.threads, s.phase, s.scanned, s.collector, t, th);
    BusyUpdate(s.threads, s.busy, t, th);
    QueuedSame(s.shared, shared, s.threads, t, th);
    BirthsSame(s.threads, t, th);
    BytesSame(s.heap, s.list, s.bytes, s.threads, t, th);
  }

  lemma ThreadFacts<O>(s: State<O>, t: nat)
    requires Inv(s) && t < |s.threads|
    ensures PcOk(s.heap, s.phase, s.scanned, s.threads[t].pc) && WorkOk(s.heap, s.threads[t])
  {
  }

  lemma AssistEnterPreserves<O>(s: State<O>, t: nat)
    requires Inv(s) && Is(s, t, Ready) && s.phase != Sweeping
    ensures Inv(WithPc(s, t, AssistEntered).(busy := s.busy + 1))
  {
    hide ShapeOk, CollectorOk, QueueOk, ColorsOk, RootsOk, BytesOk, BusyOk, Held, Births;
    ThreadFacts(s, t);
    MovePreserves(s, t, s.threads[t].(pc := AssistEntered), s.shared, s.busy + 1);
  }

  lemma AssistCheckPreserves<O>(s: State<O>, t: nat)
    requires Inv(s) && Is(s, t, AssistEntered)
    ensures Inv(DoAssistCheck(s, t))
  {
    hide ShapeOk, CollectorOk, QueueOk, ColorsOk, RootsOk, BytesOk, BusyOk, Held, Births;
    ThreadFacts(s, t);
    if s.phase == Marking {
      MovePreserves(s, t, s.threads[t].(pc := Assisting), s.shared, s.busy);
    } else {
      MovePreserves(s, t, s.threads[t].(pc := Ready), s.shared, s.busy - 1);
    }
  }

  lemma AssistLeavePreserves<O>(s: State<O>, t: nat)
    requires Inv(s) && Is(s, t, Assisting) && Resting(s, t)
    ensures Inv(WithPc(s, t, Ready).(busy := s.busy - 1))
  {
    hide ShapeOk, CollectorOk, QueueOk, ColorsOk, RootsOk, BytesOk, BusyOk, Held, Births;
    MovePreserves(s, t, s.threads[t].(pc := Ready), s.shared, s.busy - 1);
  }

  lemma SetEnterPreserves<O>(s: State<O>, t: nat, o: O, at: nat, vals: seq<Option<O>>)
    requires Inv(s) && Is(s, t, Ready) && s.phase != Sweeping
    requires CanStore(s.heap, o, at, vals) && Listed(s.heap, vals)
    ensures Inv(WithPc(s, t, SetEntered(o, at, vals)).(busy := s.busy + 1))
  {
    hide ShapeOk, CollectorOk, QueueOk, ColorsOk, RootsOk, BytesOk, BusyOk, Held, Births;
    ThreadFacts(s, t);
    MovePreserves(s, t, s.threads[t].(pc := SetEntered(o, at, vals)), s.shared, s.busy + 1);
  }

  lemma SetCheckMarkingPreserves<O>(s: State<O>, t: nat)
    requires Inv(s) && t < |s.threads| && s.threads[t].pc.SetEntered? && s.phase == Marking
    requires CanStore(s.heap, s.threads[t].pc.o, s.threads[t].pc.at, s.threads[t].pc.vals)
    ensures Inv(DoSetCheck(s, t))
  {
    hide ShapeOk, CollectorOk, QueueOk, ColorsOk, RootsOk, BytesOk, BusyOk, Held, Births;
    ThreadFacts(s, t);
    var pc := s.threads[t].pc;
    MovePreserves(s, t, s.threads[t].(pc := SetShading(pc.o, pc.at, pc.vals, 0)), s.shared, s.busy);
  }

  /** A steal takes the last items of the shared queue, at most a batch, and loses none. */
  lemma StealConserves<O>(s: State<O>, t: nat)
    requires t < |s.threads| && Resting(s, t)
    ensures var s' := DoSteal(s, t);
      multiset(s'.shared) + HeldBy(s'.threads[t]) == multiset(s.shared) + HeldBy(s.threads[t])
  {
    var rest := |DoSteal(s, t).shared|;
    assert s.shared == s.shared[..rest] + s.shared[rest..];
  }

  lemma StealPreserves<O>(s: State<O>, t: nat)
    requires Inv(s) && Tracing(s, t) && Resting(s, t)
    ensures Inv(DoSteal(s, t))
  {
    hide ShapeOk, CollectorOk, QueueOk, ColorsOk, RootsOk, BytesOk, BusyOk, Held, Births;
    hide Reverse, HeldBy;
    StealConserves(s, t);
    ThreadFacts(s, t);
    var s' := DoSteal(s, t);
    MovePreserves(s, t, s'.threads[t], s'.shared, s.busy);
  }

  lemma MergePreserves<O>(s: State<O>, t: nat)
    requires Inv(s) && t < |s.threads| && s.threads[t].current.None?
    ensures Inv(DoMerge(s, t))
  {
    hide ShapeOk, CollectorOk, QueueOk, ColorsOk, RootsOk, BytesOk, BusyOk, Held, Births;
    ThreadFacts(s, t);
    MovePreserves(s, t, s.threads[t].(local := []), s.shared + s.threads[t].local, s.busy);
  }

  lemma SetMergePreserves<O>(s: State<O>, t: nat)
    requires Inv(s) && t < |s.threads| && s.threads[t].pc.SetShading?
    requires s.threads[t].pc.done == |s.threads[t].pc.vals|
    ensures Inv(DoSetMerge(s, t))
  {
    hide ShapeOk, CollectorOk, QueueOk, ColorsOk, RootsOk, BytesOk, BusyOk, Held, Births;
    MergePreserves(s, t);
    var m := DoMerge(s, t);
    ThreadFacts(m, t);
    var pc := s.threads[t].pc;
    assert pc.vals[..pc.done] == pc.vals;
    MovePreserves(m, t, m.threads[t].(pc := SetMerged(pc.o, pc.at, pc.vals)), m.shared, m.busy);
  }

  /** Whatever sits in a work list is listed and has left white. */
  lemma QueuedIsShaded<O>(s: State<O>, t: nat, o: O)
    requires Inv(s) && t < |s.threads| && o in HeldBy(s.threads[t])
    ensures o in Queued(s) && o in s.heap && s.heap[o].color != White && s.enqueued[o] == 1
  {
    FoldsContain(s.threads, t);
  }

  lemma PopPreserves<O>(s: State<O>, t: nat)
    requires Inv(s) && Tracing(s, t) && s.threads[t].current.None? && s.threads[t].local != []
    ensures Inv(DoPop(s, t))
  {
    hide ShapeOk, CollectorOk, QueueOk, ColorsOk, RootsOk, BytesOk, BusyOk, Held, Births;
    var th := s.threads[t];
    var last := |th.local| - 1;
    QueuedIsShaded(s, t, th.local[last]);
    assert th.local == th.local[..last] + [th.local[last]];
    ThreadFacts(s, t);
    MovePreserves(s, t, DoPop(s, t).threads[t], s.shared, s.busy);
  }

  lemma StartThreads<O>(heap: map<O, Object<O>>, threads: seq<Thread<O>>, collector: nat, t: nat, th: Thread<O>)
    requires ThreadsOk(heap, Idle, false, threads) && CollectorOk(threads, Idle, false, collector) && t < |threads|
    requires th.pc.Starting? && WorkOk(heap, th)
    ensures ThreadsOk(heap, Marking, false, threads[t := th]) && CollectorOk(threads[t := th], Marking, false, t)
  {
    var changed := threads[t := th];
    forall i | 0 <= i < |threads| ensures PcOk(heap, Marking, false, changed[i].pc) {
      assert PcOk(heap, Idle, false, threads[i].pc);
    }
  }

  lemma MarkingFromIdle<O>(heap: map<O, Object<O>>, queued: multiset<O>, enqueued: multiset<O>, scanRoots: set<O>)
    requires QueueOk(heap, queued, enqueued, Idle) && ColorsOk(heap, scanRoots, Idle)
    ensures QueueOk(heap, queued, enqueued, Marking) && ColorsOk(heap, scanRoots, Marking)
  {
  }

  lemma NotScannedWhenIdle<O>(s: State<O>)
    requires Inv(s) && s.phase == Idle
    ensures !s.scanned
  {
  }

  lemma HeldSame<O>(threads: seq<Thread<O>>, t: nat, th: Thread<O>)
    requires t < |threads| && HeldBy(th) == HeldBy(threads[t])
    ensures Held(threads[t := th]) == Held(threads)
  {
    HeldUpdate(threads, t, th);
    Cancel(Held(threads[t := th]), Held(threads), HeldBy(th));
  }

  lemma BusySame<O>(threads: seq<Thread<O>>, busy: int, t: nat, th: Thread<O>)
    requires t < |threads| && BusyOk(threads, busy) && BusyBy(th) == BusyBy(threads[t])
    ensures BusyOk(threads[t := th], busy)
  {
    BusyUpdate(threads, busy, t, th);
  }

  /** A collector step changes no count that is kept over threads. */
  lemma CollectorFolds<O>(heap: map<O, Object<O>>, list: seq<O>, bytes: int, busy: int, threads: seq<Thread<O>>, t: nat, th: Thread<O>)
    requires BusyOk(threads, busy) && BytesOk(heap, list, bytes, threads)
    requires t < |threads| && th == threads[t].(pc := th.pc)
    requires (th.pc.Ready? || IsCollector(th.pc)) && (threads[t].pc.Ready? || IsCollector(threads[t].pc))
    ensures Held(threads[t := th]) == Held(threads) && Births(threads[t := th]) == Births(threads)
    ensures BusyOk(threads[t := th], busy) && BytesOk(heap, list, bytes, threads[t := th])
  {
    hide BusyOk, BytesOk;
    BusySame(threads, busy, t, th);
    HeldSame(threads, t, th);
    BirthsSame(threads, t, th);
    BytesSame(heap, list, bytes, threads, t, th);
  }

  lemma StartPreserves<O>(s: State<O>, t: nat)
    requires Inv(s) && Is(s, t, Ready) && s.phase == Idle
    ensures Inv(WithPc(s, t, Starting).(phase := Marking, collector := t))
  {
    var th := s.threads[t].(pc := Starting);
    NotScannedWhenIdle(s);
    ThreadFacts(s, t);
    assert WorkOk(s.heap, th);
    hide ShapeOk, ThreadsOk, CollectorOk, QueueOk, ColorsOk, RootsOk, BytesOk, BusyOk, PcOk, WorkOk, Held, Births;
    StartThreads(s.heap, s.threads, s.collector, t, th);
    MarkingFromIdle(s.heap, Queued(s), s.enqueued, s.scanRoots);
    CollectorFolds(s.heap, s.list, s.bytes, s.busy, s.threads, t, th);
  }

  // ----- Hand-off -----

  lemma {:induction false} NobodyBusy<O>(threads: seq<Thread<O>>, t: nat)
    requires BusyThreads(threads) == 0 && t < |threads|
    ensures !InBusySection(threads[t])
  {
    FoldsContain(threads, t);
  }

  lemma {:induction false} NothingHeld<O>(threads: seq<Thread<O>>)
    requires forall i | 0 <= i < |threads| :: HeldBy(threads[i]) == multiset{}
    ensures Held(threads) == multiset{}
  {
    if threads != [] {
      NothingHeld(threads[1..]);
    }
  }

  /** Busy handshake: when the counter is zero only the collector can hold work. */
  lemma HandOffQuiet<O>(s: State<O>, t: nat)
    requires Inv(s) && Is(s, t, Collecting) && Resting(s, t) && s.shared == [] && s.busy == 0
    ensures Queued(s) == multiset{}
    ensures forall i | 0 <= i < |s.threads| :: Resting(s, i) && (i == t || s.threads[i].pc.Ready? || s.threads[i].pc.Counting?)
  {
    forall i | 0 <= i < |s.threads|
      ensures Resting(s, i) && (i == t || s.threads[i].pc.Ready? || s.threads[i].pc.Counting?)
    {
      NobodyBusy(s.threads, i);
      ThreadFacts(s, i);
    }
    NothingHeld(s.threads);
  }

  lemma HandOffPreserves<O>(s: State<O>, t: nat)
    requires Inv(s) && Is(s, t, Collecting) && Resting(s, t) && s.shared == [] && s.busy == 0
    ensures Inv(WithPc(s, t, Finishing).(phase := Sweeping))
  {
    var th := s.threads[t].(pc := Finishing);
    HandOffQuiet(s, t);
    HandOffThreads(s, t, th);
    assert QueueOk(s.heap, Queued(s), s.enqueued, Sweeping);
    assert ColorsOk(s.heap, s.scanRoots, Sweeping);
    hide ShapeOk, ThreadsOk, CollectorOk, QueueOk, ColorsOk, RootsOk, BytesOk, BusyOk, PcOk, WorkOk, Held, Births;
    CollectorFolds(s.heap, s.list, s.bytes, s.busy, s.threads, t, th);
  }

  lemma HandOffThreads<O>(s: State<O>, t: nat, th: Thread<O>)
    requires Inv(s) && Is(s, t, Collecting) && Resting(s, t) && th == s.threads[t].(pc := Finishing)
    requires forall i | 0 <= i < |s.threads| :: Resting(s, i) && (i == t || s.threads[i].pc.Ready? || s.threads[i].pc.Counting?)
    ensures ThreadsOk(s.heap, Sweeping, s.scanned, s.threads[t := th])
    ensures CollectorOk(s.threads[t := th], Sweeping, s.scanned, s.collector)
  {
    var changed := s.threads[t := th];
    ThreadFacts(s, t);
    forall i | 0 <= i < |changed| ensures PcOk(s.heap, Sweeping, s.scanned, changed[i].pc) && WorkOk(s.heap, changed[i]) {
      ThreadFacts(s, i);
      assert Resting(s, i);
    }
  }

  // ----- Colours -----

  /** `later` is `earlier` with some colours raised from white towards black. */
  ghost predicate Darker<O>(earlier: map<O, Object<O>>, later: map<O, Object<O>>) {
    && later.Keys == earlier.Keys
    && forall o | o in earlier ::
         && later[o] == earlier[o].(color := later[o].color)
         && (earlier[o].color != White ==> later[o].color != White)
  }

  lemma DarkerShape<O>(h: map<O, Object<O>>, h': map<O, Object<O>>, list: seq<O>, ever: set<O>)
    requires ShapeOk(h, list, ever) && Darker(h, h')
    ensures ShapeOk(h', list, ever)
  {
  }

  lemma DarkerThread<O>(h: map<O, Object<O>>, h': map<O, Object<O>>, phase: Phase, scanned: bool, th: Thread<O>)
    requires PcOk(h, phase, scanned, th.pc) && WorkOk(h, th) && Darker(h, h')
    ensures PcOk(h', phase, scanned, th.pc) && WorkOk(h', th)
  {
  }

  lemma DarkerThreads<O>(h: map<O, Object<O>>, h': map<O, Object<O>>, phase: Phase, scanned: bool, threads: seq<Thread<O>>)
    requires ThreadsOk(h, phase, scanned, threads) && Darker(h, h')
    ensures ThreadsOk(h', phase, scanned, threads)
  {
    forall i | 0 <= i < |threads| ensures PcOk(h', phase, scanned, threads[i].pc) && WorkOk(h', threads[i]) {
      DarkerThread(h, h', phase, scanned, threads[i]);
    }
  }

  lemma DarkerRoots<O>(h: map<O, Object<O>>, h': map<O, Object<O>>, handles: multiset<O>, births: multiset<O>)
    requires RootsOk(h, handles, births) && Darker(h, h')
    ensures RootsOk(h', handles, births)
  {
  }

  lemma DarkerBytes<O>(h: map<O, Object<O>>, h': map<O, Object<O>>, list: seq<O>, bytes: int, threads: seq<Thread<O>>)
    requires BytesOk(h, list, bytes, threads) && Darker(h, h')
    ensures BytesOk(h', list, bytes, threads)
  {
    SumSizesFrame(list, h, h');
  }

  lemma DarkerColors<O>(h: map<O, Object<O>>, h': map<O, Object<O>>, scanRoots: set<O>)
    requires ColorsOk(h, scanRoots, Marking) && Darker(h, h')
    requires forall o | o in h' && h'[o].color == Black && h[o].color != Black :: Shaded(h', h'[o].fields)
    ensures ColorsOk(h', scanRoots, Marking)
  {
    forall o | o in h' && h'[o].color == Black ensures Shaded(h', h'[o].fields) {
      if h[o].color == Black {
        assert Shaded(h, h[o].fields);
      }
    }
  }

  /** A leaf turns black without passing through a work list; it may already be in one. */
  lemma LeafTurnsBlack<O>(h: map<O, Object<O>>, x: O, queued: multiset<O>, enqueued: multiset<O>, scanRoots: set<O>)
    requires QueueOk(h, queued, enqueued, Marking) && ColorsOk(h, scanRoots, Marking)
    requires x in h && h[x].leaf && h[x].fields == []
    ensures var h' := h[x := h[x].(color := Black)];
      Darker(h, h') && QueueOk(h', queued, enqueued, Marking) && ColorsOk(h', scanRoots, Marking)
  {
    DarkerColors(h, h[x := h[x].(color := Black)], scanRoots);
  }

  /** A white object turns gray and is enqueued, for the first time in this cycle. */
  lemma WhiteTurnsGray<O>(h: map<O, Object<O>>, x: O, queued: multiset<O>, enqueued: multiset<O>, scanRoots: set<O>)
    requires QueueOk(h, queued, enqueued, Marking) && ColorsOk(h, scanRoots, Marking)
    requires x in h && h[x].color == White
    ensures x !in enqueued
    ensures var h' := h[x := h[x].(color := Gray)];
      Darker(h, h') && QueueOk(h', queued + multiset{x}, enqueued + multiset{x}, Marking) && ColorsOk(h', scanRoots, Marking)
  {
    var h' := h[x := h[x].(color := Gray)];
    DarkerColors(h, h', scanRoots);
    var q, e := queued + multiset{x}, enqueued + multiset{x};
    assert x !in enqueued;
    forall o | o in e ensures e[o] == 1 && o in h' && h'[o].color != White {
      if o != x { assert o in enqueued; }
    }
    forall o | o in q && o in h' && h'[o].color == Black ensures h'[o].leaf {
      assert o in queued;
    }
  }

  /** Held work after a push onto one local queue. */
  lemma PushHeld<O>(threads: seq<Thread<O>>, t: nat, x: O)
    requires t < |threads|
    ensures Held(threads[t := threads[t].(local := threads[t].local + [x])]) == Held(threads) + multiset{x}
  {
    var th := threads[t].(local := threads[t].local + [x]);
    HeldUpdate(threads, t, th);
    assert HeldBy(th) == HeldBy(threads[t]) + multiset{x};
    assert Held(threads[t := th]) + HeldBy(threads[t]) == (Held(threads) + multiset{x}) + HeldBy(threads[t]);
    Cancel(Held(threads[t := th]), Held(threads) + multiset{x}, HeldBy(threads[t]));
  }

  /** Everything but the work lists and colours is carried over to a darker heap. */
  lemma DarkerFrame<O>(s: State<O>, h': map<O, Object<O>>)
    requires Inv(s) && Darker(s.heap, h')
    ensures ShapeOk(h', s.list, s.ever) && ThreadsOk(h', s.phase, s.scanned, s.threads)
    ensures RootsOk(h', s.handles, Births(s.threads)) && BytesOk(h', s.list, s.bytes, s.threads)
  {
    hide ShapeOk, ThreadsOk, CollectorOk, QueueOk, ColorsOk, RootsOk, BytesOk, BusyOk, PcOk, WorkOk, Held, Births;
    DarkerShape(s.heap, h', s.list, s.ever);
    DarkerThreads(s.heap, h', s.phase, s.scanned, s.threads);
    DarkerRoots(s.heap, h', s.handles, Births(s.threads));
    DarkerBytes(s.heap, h', s.list, s.bytes, s.threads);
  }

  ghost predicate Shading<O>(s: State<O>, t: nat) {
    && t < |s.threads| && s.phase == Marking
    && (s.threads[t].pc.Collecting? || s.threads[t].pc.Assisting? || s.threads[t].pc.SetShading?)
  }

  lemma ShadeLeafPreserves<O>(s: State<O>, x: O)
    requires Inv(s) && s.phase == Marking && x in s.heap && s.heap[x].leaf
    ensures Inv(s.(heap := s.heap[x := s.heap[x].(color := Black)]))
  {
    var h' := s.heap[x := s.heap[x].(color := Black)];
    LeafHasNoFields(s, x);
    hide ShapeOk, ThreadsOk, CollectorOk, QueueOk, ColorsOk, RootsOk, BytesOk, BusyOk, PcOk, WorkOk, Held, Births;
    LeafTurnsBlack(s.heap, x, Queued(s), s.enqueued, s.scanRoots);
    DarkerFrame(s, h');
  }

  lemma LeafHasNoFields<O>(s: State<O>, x: O)
    requires Inv(s) && x in s.heap && s.heap[x].leaf
    ensures s.heap[x].fields == []
  {
  }

  lemma SamePcSameCounts<O>(th: Thread<O>, th': Thread<O>)
    requires th'.pc == th.pc
    ensures BusyBy(th') == BusyBy(th) && BirthBy(th') == BirthBy(th) && UncountedBy(th') == UncountedBy(th)
  {
  }

  /** A change to a local queue disturbs none of the counts. */
  lemma LocalFrame<O>(s: State<O>, t: nat, th: Thread<O>)
    requires Inv(s) && t < |s.threads| && th.pc == s.threads[t].pc
    requires WorkOk(s.heap, th)
    ensures ThreadsOk(s.heap, s.phase, s.scanned, s.threads[t := th])
    ensures CollectorOk(s.threads[t := th], s.phase, s.scanned, s.collector)
    ensures BusyOk(s.threads[t := th], s.busy) && BytesOk(s.heap, s.list, s.bytes, s.threads[t := th])
    ensures Births(s.threads[t := th]) == Births(s.threads)
  {
    hide ShapeOk, ThreadsOk, CollectorOk, QueueOk, ColorsOk, RootsOk, BytesOk, BusyOk, PcOk, WorkOk, Held, Births;
    hide BusyBy, BirthBy, UncountedBy, IsCollector;
    ThreadFacts(s, t);
    SamePcSameCounts(s.threads[t], th);
    ThreadsUpdate(s.heap, s.phase, s.scanned, s.threads, t, th);
    CollectorUpdate(s.threads, s.phase, s.scanned, s.collector, t, th);
    BusySame(s.threads, s.busy, t, th);
    BirthsSame(s.threads, t, th);
    BytesSame(s.heap, s.list, s.bytes, s.threads, t, th);
  }

  lemma PushWork<O>(s: State<O>, t: nat, x: O)
    requires Inv(s) && Shading(s, t)
    ensures WorkOk(s.heap, s.threads[t].(local := s.threads[t].local + [x]))
  {
    ThreadFacts(s, t);
  }

  lemma ShadeWhitePreserves<O>(s: State<O>, t: nat, x: O)
    requires Inv(s) && Shading(s, t) && x in s.heap && s.heap[x].color == White && !s.heap[x].leaf
    ensures Inv(Shade(s, t, Some(x)))
  {
    hide ShapeOk, ThreadsOk, CollectorOk, QueueOk, ColorsOk, RootsOk, BytesOk, BusyOk, PcOk, WorkOk, Held, Births;
    var h' := s.heap[x := s.heap[x].(color := Gray)];
    var th := s.threads[t].(local := s.threads[t].local + [x]);
    var threads := s.threads[t := th];
    PushWork(s, t, x);
    PushHeld(s.threads, t, x);
    LocalFrame(s, t, th);
    WhiteTurnsGray(s.heap, x, Queued(s), s.enqueued, s.scanRoots);
    DarkerFrame(s, h');
    DarkerThreads(s.heap, h', s.phase, s.scanned, threads);
    DarkerBytes(s.heap, h', s.list, s.bytes, threads);
    var s' := Shade(s, t, Some(x));
    assert Queued(s') == Queued(s) + multiset{x};
  }

  /** Tracer::mark keeps the invariant, leaves the pointer shaded and only darkens the heap. */
  lemma ShadePreserves<O>(s: State<O>, t: nat, f: Option<O>)
    requires Inv(s) && Shading(s, t) && (f.Some? ==> f.value in s.heap)
    ensures Inv(Shade(s, t, f)) && Darker(s.heap, Shade(s, t, f).heap)
    ensures f.Some? ==> Shade(s, t, f).heap[f.value].color != White
  {
    hide Inv;
    if f.Some? {
      if s.heap[f.value].leaf {
        ShadeLeafPreserves(s, f.value);
      } else if s.heap[f.value].color == White {
        ShadeWhitePreserves(s, t, f.value);
      }
    }
  }
}
