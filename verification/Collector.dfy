/** The heap of src/heap.rs, updated in place, with the step system as its specification. */
module Collector {
  import opened Reachability
  import opened Protocol
  import opened Invariant
  import opened Preservation
  import opened HeapPreservation
  import opened CyclePreservation
  import opened Safety
  import opened RunSafety
  import opened Promptness
  import opened MarkingWork
  import opened HandOffRace
  import opened HandOffRaceProofs
  import opened HeapObjects
  import Pacing
  import Worker

  lemma RunsSnoc<O>(s: State<O>, acts: seq<Action<O>>, a: Action<O>)
    requires Runs(s, acts) && Enabled(Exec(s, acts), a)
    ensures Runs(s, acts + [a]) && Exec(s, acts + [a]) == Do(Exec(s, acts), a)
  {
    hide Enabled, Do;
    var e := Exec(s, acts);
    assert Runs(Do(e, a), []);
    assert [a][1..] == [];
    assert Runs(e, [a]) && Exec(e, [a]) == Do(e, a);
    RunsConcat(s, acts, [a]);
  }

  class Heap {
    var head: Node?
    const gray: GrayQueue
    var phase: Phase
    var bytes: int
    var threshold: nat
    var busy: int
    const options: Pacing.Options
    const worker: Worker.StartStopJoinHandle
    ghost var st: State<Node>

    ghost predicate Valid()
      reads this, gray, st.heap.Keys, st.list
    {
      Inv(st) && Represents(head, gray, phase, bytes, busy, st)
    }

    constructor (options: Pacing.Options, ghost threads: nat)
      ensures Valid() && fresh(gray) && this.options == options
      ensures st.heap == map[] && |st.threads| == threads && phase == Idle && bytes == 0
      ensures threshold == options.minThresholdBytes
      ensures forall t | 0 <= t < threads :: st.threads[t].pc == Ready
      ensures fresh(worker) && worker.Valid()
      ensures worker.IsStarted() <==>
        options.thresholdPercent != 0 && options.thresholdPercent != Pacing.USIZE_MAX && options.collectionInterval != 0
    {
      head, phase, bytes, busy := null, Idle, 0, 0;
      threshold := options.minThresholdBytes;
      gray := new GrayQueue();
      this.options := options;
      worker := new Worker.StartStopJoinHandle();
      st := Empty(threads);
      new;
      EmptyIsValid<Node>(threads);
      var started := StartBackgroundCollection();
    }

    method StartBackgroundCollection() returns (started: bool)
      requires worker.Valid()
      modifies worker
      ensures worker.Valid()
      ensures started <==>
        && options.thresholdPercent != 0 && options.thresholdPercent != Pacing.USIZE_MAX && options.collectionInterval != 0
        && !old(worker.IsStarted())
      ensures worker.View() == if started then Worker.AfterStart(old(worker.View())) else old(worker.View())
    {
      if options.BackgroundCollectionOff() || worker.IsStarted() {
        return false;
      }
      var token;
      started, token := worker.Start();
    }

    method StopBackgroundCollection() returns (stopped: bool)
      requires worker.Valid()
      modifies worker
      ensures worker.Valid() && (stopped <==> old(worker.IsStarted())) && worker.View() == Worker.AfterStop(old(worker.View()))
    {
      var thread;
      stopped, thread := worker.Stop();
    }

    // ----- Marking -----

    method StealWork(tracer: Tracer, ghost t: nat) returns (stolen: bool)
      requires Valid() && Works(tracer, st, t) && Tracing(st, t) && Resting(st, t)
      modifies this`st, gray, tracer
      ensures Valid() && Works(tracer, st, t)
      ensures stolen <==> old(st).shared != []
      ensures |gray.items| == if |old(gray.items)| < 8 then 0 else |old(gray.items)| - 8
      ensures |tracer.items| == |old(tracer.items)| + |old(gray.items)| - |gray.items|
      ensures stolen ==> Enabled(old(st), Steal(t)) && st == Do(old(st), Steal(t))
      ensures !stolen ==> st == old(st)
    {
      hide Inv, Reverse, Do, Enabled, Shown, Chain;
      stolen := tracer.StealFrom(BATCH_SIZE, gray);
      if stolen {
        StealStep(st, t);
        st := Do(st, Steal(t));
      }
    }

    method MergeWork(tracer: Tracer, ghost t: nat)
      requires Valid() && Works(tracer, st, t) && Enabled(st, Merge(t))
      modifies this`st, gray, tracer
      ensures Valid() && Works(tracer, st, t)
      ensures st == Do(old(st), Merge(t))
    {
      hide Inv, Do, Enabled, Shown, Chain;
      tracer.AppendTo(gray);
      MergeNeeds(st, t);
      MergeStep(st, t);
      st := Do(st, Merge(t));
    }

    /** The tracer marks one pointer: what Shade does to the heap and to the local work list. */
    method MarkPointer(tracer: Tracer, f: Option<Node>, ghost t: nat)
      requires Shown(st.heap) && Works(tracer, st, t) && (f.Some? ==> f.value in st.heap)
      modifies tracer, st.heap.Keys`color
      ensures Shown(Shade(st, t, f).heap) && tracer.items == Shade(st, t, f).threads[t].local
    {
      hide Shade;
      ShadeNode(st, t, f);
      if f.Some? {
        tracer.Mark(f.value);
      }
    }

    /** One pointer of the object in progress is handed to the tracer. */
    method MarkField(tracer: Tracer, ghost t: nat, n: Node, i: nat)
      requires Valid() && Works(tracer, st, t) && Tracing(st, t) && st.threads[t].current == Some(Scan(n, i))
      requires n in st.heap && n.alive && i < |n.fields| && n.fields == st.heap[n].fields
      modifies this`st, tracer, st.heap.Keys`color
      ensures Valid() && Works(tracer, st, t)
      ensures Enabled(old(st), ScanField(t)) && st == Do(old(st), ScanField(t))
      ensures Tracing(st, t) && st.threads[t].current == Some(Scan(n, i + 1)) && n in st.heap
      ensures n.fields == st.heap[n].fields
    {
      hide Inv, Do, Enabled, Shade, DoScanField, Shown, Chain;
      var f := n.Fields()[i];
      ScanFieldEnabled(st, t, n, i);
      ScanFieldPreserves(st, t);
      ScanFieldNode(st, t, n, i);
      if f.Some? {
        FieldIsListed(st, n, i);
      }
      ShadeNode(st, t, f);
      MarkPointer(tracer, f, t);
      st := Do(st, ScanField(t));
    }

    /** The vtable's trace function: a leaf has none, any other object hands over each of its pointers. */
    method TraceObject(tracer: Tracer, ghost t: nat, n: Node) returns (ghost acts: seq<Action<Node>>)
      requires Valid() && Works(tracer, st, t) && Tracing(st, t) && st.threads[t].current == Some(Scan(n, 0)) && n in st.heap
      modifies this`st, tracer, st.heap.Keys`color
      ensures Valid() && Works(tracer, st, t)
      ensures Runs(old(st), acts) && st == Exec(old(st), acts) && TracingOnly(acts) && Blackenings(acts) == 0
      ensures Tracing(st, t) && n in st.heap && st.threads[t].current == Some(Scan(n, |st.heap[n].fields|))
    {
      hide Inv, Enabled, Do, Shown, Shows;
      acts := [];
      NodeShown(st.heap, n);
      if n.IsLeaf() {
        LeafHasNoFields(st, n);
      } else {
        var i := 0;
        while i < |n.Fields()|
          invariant i <= |n.fields| && Valid() && Works(tracer, st, t) && Tracing(st, t)
          invariant st.heap.Keys == old(st.heap.Keys) && st.list == old(st.list)
          invariant n in st.heap && n.alive && n.fields == st.heap[n].fields
          invariant st.threads[t].current == Some(Scan(n, i))
          invariant Runs(old(st), acts) && st == Exec(old(st), acts) && TracingOnly(acts) && Blackenings(acts) == 0
        {
          ghost var before := st;
          MarkField(tracer, t, n, i);
          TracingStepFrame(before, ScanField(t));
          RunsSnoc(old(st), acts, ScanField(t));
          BlackeningsSnoc(acts, ScanField(t));
          acts := acts + [ScanField(t)];
          i := i + 1;
        }
      }
    }

    method TakeWork(tracer: Tracer, ghost t: nat) returns (item: Option<Node>)
      requires Valid() && Works(tracer, st, t) && Tracing(st, t) && st.threads[t].current.None?
      modifies this`st, tracer
      ensures Valid() && Works(tracer, st, t) && Tracing(st, t)
      ensures item.None? <==> old(tracer.items) == []
      ensures item.None? ==> st == old(st) && tracer.items == []
      ensures item.Some? ==>
        && Enabled(old(st), Pop(t)) && st == Do(old(st), Pop(t))
        && item.value in st.heap && st.threads[t].current == Some(Scan(item.value, 0))
    {
      hide Inv, Enabled, Do;
      item := tracer.PopWork();
      if item.Some? {
        PopEnabled(st, t);
        PopPreserves(st, t);
        QueuedIsShaded(st, t, item.value);
        st := Do(st, Pop(t));
      }
    }

    method BlackenObject(tracer: Tracer, ghost t: nat, n: Node)
      requires Valid() && Works(tracer, st, t) && Tracing(st, t) && n in st.heap
      requires st.threads[t].current == Some(Scan(n, |st.heap[n].fields|))
      modifies this`st, n`color
      ensures Valid() && Works(tracer, st, t) && Tracing(st, t) && st.threads[t].current.None?
      ensures Enabled(old(st), Blacken(t)) && st == Do(old(st), Blacken(t))
    {
      hide Inv, Enabled, Do;
      BlackenEnabled(st, t);
      BlackenPreserves(st, t);
      n.MarkBlack();
      st := Do(st, Blacken(t));
    }

    /** One turn of the marking loop: take an object from the local queue, trace it, blacken it. */
    method ProcessNext(tracer: Tracer, ghost t: nat) returns (found: bool, ghost acts: seq<Action<Node>>)
      requires Valid() && Works(tracer, st, t) && Tracing(st, t) && st.threads[t].current.None?
      modifies this`st, tracer, st.heap.Keys`color
      ensures Valid() && Works(tracer, st, t) && Tracing(st, t) && st.threads[t].current.None?
      ensures found <==> old(tracer.items) != []
      ensures !found ==> st == old(st) && tracer.items == []
      ensures Runs(old(st), acts) && st == Exec(old(st), acts) && TracingOnly(acts)
      ensures Blackenings(acts) == if found then 1 else 0
    {
      hide Inv, Enabled, Do, Shown;
      acts := [];
      var item := TakeWork(tracer, t);
      found := item.Some?;
      if found {
        TracingStepFrame(old(st), Pop(t));
        RunsSnoc(old(st), acts, Pop(t));
        acts := acts + [Pop(t)];
        ghost var popped := st;
        ghost var scans := TraceObject(tracer, t, item.value);
        RunsConcat(old(st), acts, scans);
        TracingRunFrame(popped, scans);
        BlackenObject(tracer, t, item.value);
        RunsSnoc(old(st), acts + scans, Blacken(t));
        BlackeningsSnoc(acts + scans, Blacken(t));
        BlackeningsConcat(acts, scans);
        acts := acts + scans + [Blacken(t)];
      }
    }

    method MergeLeftovers(tracer: Tracer, ghost t: nat) returns (ghost acts: seq<Action<Node>>)
      requires Valid() && Works(tracer, st, t) && Tracing(st, t) && st.threads[t].current.None?
      modifies this`st, gray, tracer
      ensures Valid() && Works(tracer, st, t) && Tracing(st, t) && Resting(st, t)
      ensures Runs(old(st), acts) && st == Exec(old(st), acts) && TracingOnly(acts) && Blackenings(acts) == 0
      ensures st.shared == old(st.shared) + old(tracer.items)
      ensures old(tracer.items) == [] ==> st == old(st)
    {
      hide Inv, Enabled, Do, Shown, Chain;
      acts := [];
      var left := tracer.HasWork();
      if left {
        ghost var before := st;
        MergeEnabled(st, t);
        MergeWork(tracer, t);
        MergeEmpties(before, t);
        RunsSnoc(old(st), acts, Merge(t));
        acts := [Merge(t)];
      }
    }

    /**
     * Marks with a budget: local work first, a batch stolen from the shared queue when there is none, and
     * what is left in the local queue merged back at the end. It is a run of tracer steps of thread `t`.
     */
    method DoMarkWithTracer(tracer: Tracer, workBudget: nat, ghost t: nat) returns (workDone: nat, ghost acts: seq<Action<Node>>)
      requires Valid() && Works(tracer, st, t) && Tracing(st, t) && st.threads[t].current.None?
      modifies this`st, gray, tracer, st.heap.Keys`color
      ensures Valid() && Works(tracer, st, t) && Tracing(st, t) && Resting(st, t)
      ensures Runs(old(st), acts) && st == Exec(old(st), acts) && TracingOnly(acts)
      ensures Blackenings(acts) == workDone <= workBudget
      ensures workDone < workBudget ==> st.shared == []
      ensures old(tracer.items) == [] && old(st.shared) == [] ==> workDone == 0 && st.shared == []
      ensures old(tracer.items) == [] && workBudget == 0 ==> st == old(st)
    {
      hide Inv, Enabled, Do, Shown;
      workDone, acts := 0, [];
      TracingRunFrame(old(st), []);
      while workDone < workBudget
        invariant Valid() && Works(tracer, st, t) && Tracing(st, t) && st.threads[t].current.None?
        invariant st.heap.Keys == old(st.heap.Keys)
        invariant Runs(old(st), acts) && st == Exec(old(st), acts) && TracingOnly(acts)
        invariant Blackenings(acts) == workDone <= workBudget
        invariant old(tracer.items) == [] && old(st.shared) == [] ==> workDone == 0 && tracer.items == [] && st.shared == []
        invariant workBudget == 0 ==> st == old(st) && tracer.items == old(tracer.items)
        decreases workBudget - workDone, |st.shared|
      {
        ghost var before := st;
        var found;
        ghost var more;
        found, more := ProcessNext(tracer, t);
        if !found {
          var stolen := StealWork(tracer, t);
          if !stolen {
            break;
          }
          StealShrinks(before, t);
          TracingStepFrame(before, Steal(t));
          RunsSnoc(old(st), acts, Steal(t));
          BlackeningsSnoc(acts, Steal(t));
          acts := acts + [Steal(t)];
          continue;
        }
        TracingRunFrame(before, more);
        RunsConcat(old(st), acts, more);
        BlackeningsConcat(acts, more);
        acts := acts + more;
        workDone := workDone + 1;
      }
      ghost var last := MergeLeftovers(tracer, t);
      RunsConcat(old(st), acts, last);
      BlackeningsConcat(acts, last);
      acts := acts + last;
    }

    method VisitRoot(tracer: Tracer, n: Node, ghost obj: Object<Node>)
      requires Shows(n, obj)
      modifies tracer, n`color
      ensures Shows(n, if obj.roots > 0 && obj.color == White then obj.(color := Gray) else obj)
      ensures tracer.items == old(tracer.items) + (if obj.roots > 0 && obj.color == White then [n] else [])
    {
      if n.IsRoot() {
        tracer.MarkHeader(n);
      }
    }

    /** Walks the list and hands every rooted object to the tracer, which keeps those still white. */
    method WalkRoots(tracer: Tracer, ghost heap: map<Node, Object<Node>>, ghost list: seq<Node>)
      requires Chain(head, list) && NoDuplicates(list) && tracer.items == [] && ShowsAll(list, heap)
      modifies tracer, heap.Keys`color
      ensures tracer.items == Filter(list, Unmarked(heap))
      ensures ShowsAll(list, GrayRoots(heap))
    {
      hide Filter, Unmarked, GrayRoots, Shows, ShowsAll, Linked;
      ghost var i := 0;
      RootScanDarkens(heap);
      StartOfWalk(list, Unmarked(heap), GrayRoots(heap));
      var current := head;
      while current != null
        invariant i <= |list| && Linked(current, list[i..], null)
        invariant tracer.items == Filter(list[..i], Unmarked(heap))
        invariant ShowsAll(list[..i], GrayRoots(heap)) && ShowsAll(list[i..], heap)
        decreases |list| - i
      {
        NextOfWalk(current, list, i, heap);
        FilterSnoc(list, i, Unmarked(heap));
        GrayRootsAt(heap, current);
        var next := current.Next();
        VisitRoot(tracer, current, heap[current]);
        OneMoreShown(list, i, GrayRoots(heap));
        current := next;
        i := i + 1;
      }
      EndOfList(list[i..]);
      assert list[..i] == list;
    }

    method MarkListedRoots(tracer: Tracer)
      requires Inv(st) && Chain(head, st.list) && Shown(st.heap) && tracer.items == []
      modifies tracer, st.heap.Keys`color
      ensures tracer.items == Filter(st.list, Unmarked(st.heap)) && Shown(GrayRoots(st.heap))
    {
      hide Inv, Filter, Unmarked, GrayRoots, Shown, Chain, ShowsAll, NoDuplicates;
      ListShown(st);
      RootScanDarkens(st.heap);
      WalkRoots(tracer, st.heap, st.list);
      ShownByList(st.list, GrayRoots(st.heap));
    }

    method DoMarkRoots(tracer: Tracer, ghost t: nat)
      requires Valid() && Works(tracer, st, t) && Is(st, t, Starting) && Resting(st, t)
      modifies this`st, gray, tracer, st.heap.Keys`color
      ensures Valid() && Works(tracer, st, t) && Resting(st, t)
      ensures Enabled(old(st), RootScan(t)) && st == Do(old(st), RootScan(t))
    {
      hide Inv, Enabled, Do, Filter, Unmarked, GrayRoots, DoRootScan, Shown, Chain;
      RootScanEnabled(st, t);
      RootScanPreserves(st, t);
      RootScanFields(st, t);
      RootScanDarkens(st.heap);
      MarkListedRoots(tracer);
      tracer.AppendTo(gray);
      st := Do(st, RootScan(t));
    }

    /** One bounded slice with a tracer of its own, which ends up empty: dropping it loses nothing. */
    method DoMarkIncremental(workBudget: nat, ghost t: nat) returns (complete: bool, ghost acts: seq<Action<Node>>)
      requires Valid() && Tracing(st, t) && Resting(st, t)
      modifies this`st, gray, st.heap.Keys`color
      ensures Valid() && Tracing(st, t) && Resting(st, t)
      ensures Runs(old(st), acts) && st == Exec(old(st), acts) && TracingOnly(acts)
      ensures complete <==> Blackenings(acts) == 0
      ensures Blackenings(acts) <= workBudget
      ensures Blackenings(acts) < workBudget ==> st.shared == [] && gray.items == []
      ensures workBudget == 0 ==> st == old(st)
    {
      hide Inv, Enabled, Do, Shown;
      var tracer := new Tracer();
      var workDone;
      workDone, acts := DoMarkWithTracer(tracer, workBudget, t);
      complete := workDone == 0;
    }

    method YieldOnceIfMarkingBusy() returns (yielded: bool)
      ensures yielded <==> busy > 0
    {
      yielded := busy > 0;
    }

    /**
     * Slices until a slice finds nothing to do and nobody is busy. `calls` counts the slices that did
     * something: all but the last of them use their whole budget. With a budget of zero the first slice is the last.
     */
    method DoMarkWorkFull(tracer: Tracer, ghost t: nat) returns (ghost acts: seq<Action<Node>>, ghost calls: nat)
      requires Valid() && Works(tracer, st, t) && Is(st, t, Collecting) && Resting(st, t)
      requires busy == 0
      modifies this`st, gray, tracer, st.heap.Keys`color
      ensures Valid() && Works(tracer, st, t) && Is(st, t, Collecting)
      ensures Runs(old(st), acts) && st == Exec(old(st), acts) && TracingOnly(acts)
      ensures options.incrementalWorkBudget > 0 ==>
        Enabled(st, HandOff(t)) && calls == CeilDiv(Blackenings(acts), options.incrementalWorkBudget)
      ensures options.incrementalWorkBudget == 0 ==> st == old(st)
    {
      hide Inv, Enabled, Do, Shown, Chain, Measure, Runs, Exec, TracingOnly, Blackenings;
      acts, calls := [], 0;
      NoActions(st);
      ghost var full := 0;
      var budget := options.incrementalWorkBudget;
      var again := true;
      while again
        invariant Valid() && Works(tracer, st, t) && Is(st, t, Collecting) && Resting(st, t) && busy == 0
        invariant st.heap.Keys == old(st.heap.Keys)
        invariant Runs(old(st), acts) && st == Exec(old(st), acts) && TracingOnly(acts)
        invariant full == calls * budget
        invariant Blackenings(acts) == full || (calls > 0 && full - budget < Blackenings(acts) < full && st.shared == [])
        invariant !again && budget > 0 ==> st.shared == []
        invariant budget == 0 ==> st == old(st)
        decreases Measure(st), again
      {
        var workDone;
        ghost var more;
        workDone, more := DoMarkWithTracer(tracer, budget, t);
        AnotherSlice(old(st), acts, more, t);
        acts := acts + more;
        again := workDone > 0;
        if workDone > 0 {
          assert (calls + 1) * budget == full + budget;
          full := full + budget;
          calls := calls + 1;
        }
        if !again {
          again := YieldOnceIfMarkingBusy();
        }
      }
      if budget > 0 {
        CeilIsUnique(Blackenings(acts), budget, calls);
        HandOffEnabled(st, t);
      }
    }

    // ----- Sweeping -----

    /** Overwrites the cell through which the list continues: the head, or the last kept node's `next`. */
    method Relink(prev: Node?, tail: Node?, next: Node?, ghost kept: seq<Node>)
      requires Linked(head, kept, tail) && NoDuplicates(kept) && prev == LastOf(kept) && (prev != null ==> prev.alive)
      modifies this`head, (if prev == null then {} else {prev})`next
      ensures Linked(head, kept, next)
    {
      if prev == null {
        head := next;
      } else {
        prev.SetNext(next);
      }
    }

    /** Unlinks and frees a node that the sweep does not keep, which touches no other node but the last kept one. */
    method DropNode(prev: Node?, n: Node, next: Node?, ghost kept: seq<Node>, ghost rest: seq<Node>, ghost gone: seq<Node>,
                    ghost heap: map<Node, Object<Node>>) returns (size: nat)
      requires Linked(head, kept, n) && NoDuplicates(kept) && prev == LastOf(kept) && n.alive
      requires Linked(next, rest, null) && ShowsAll(rest, heap) && ShowsAll(kept, Whitened(heap)) && AllFreed(gone)
      requires n !in kept && n !in rest && forall x | x in kept :: x !in rest
      modifies this`head, (if prev == null then {} else {prev})`next, n
      ensures Linked(head, kept, next) && Linked(next, rest, null) && size == old(n.size)
      ensures ShowsAll(rest, heap) && ShowsAll(kept, Whitened(heap)) && AllFreed(gone + [n])
    {
      hide Shows, ShowsAll, AllFreed, Linked, Whitened, NoDuplicates;
      LastIsAlive(kept, Whitened(heap));
      NotFreed(gone, n);
      Relink(prev, n, next, kept);
      size := n.Size();
      n.Free();
      OneMoreFreed(gone, n);
    }

    /**
     * Walks the list once, unlinking and freeing what is neither marked nor rooted and turning the rest
     * white. A freed node holds anything, so that nothing here depends on reading one, and each is freed once.
     */
    method SweepList(ghost heap: map<Node, Object<Node>>, ghost list: seq<Node>) returns (freed: nat, ghost gone: seq<Node>)
      requires Chain(head, list) && NoDuplicates(list) && ShowsAll(list, heap)
      requires forall n | n in list :: n in heap
      modifies this`head, heap.Keys
      ensures Chain(head, Filter(list, Survivors(heap))) && ShowsAll(Filter(list, Survivors(heap)), Whitened(heap))
      ensures gone == Filter(list, heap.Keys - Survivors(heap)) && AllFreed(gone)
      ensures freed == SumSizes(gone, heap)
    {
      hide Filter, Survivors, Shows, ShowsAll, AllFreed, Linked, SumSizes, Whitened;
      ghost var i, kept, keep, drop := 0, [], Survivors(heap), heap.Keys - Survivors(heap);
      freed, gone := 0, [];
      StartOfSweep(list, keep, drop, heap, head);
      var current := head;
      var prev: Node? := null;
      while current != null
        invariant i <= |list| && kept == Filter(list[..i], keep) && gone == Filter(list[..i], drop)
        invariant Linked(head, kept, current) && Linked(current, list[i..], null) && prev == LastOf(kept)
        invariant ShowsAll(kept, Whitened(heap)) && ShowsAll(list[i..], heap) && AllFreed(gone)
        invariant freed == SumSizes(gone, heap)
        decreases |list| - i
      {
        NextOfWalk(current, list, i, heap);
        NextOfSweep(list, i, keep, drop, heap);
        var next := current.Next();
        if current.IsWhite() {
          var size := DropNode(prev, current, next, kept, list[i + 1..], gone, heap);
          freed, gone := freed + size, gone + [current];
        } else {
          current.ResetWhite();
          OneMoreKept(head, kept, current, heap);
          prev, kept := current, kept + [current];
        }
        current := next;
        i := i + 1;
      }
      EndOfList(list[i..]);
      assert list[..i] == list;
    }

    // ----- A whole collection -----

    method TryStartMarking(ghost t: nat) returns (started: bool)
      requires Valid() && Is(st, t, Ready)
      modifies this`st, this`phase
      ensures Valid()
      ensures started <==> old(phase) == Idle
      ensures st == if started then Started(old(st), t) else old(st)
    {
      hide Inv, Shown, Chain;
      started := phase == Idle;
      if started {
        phase := Marking;
        StartPreserves(st, t);
        st := Started(st, t);
      }
    }

    /**
     * From Idle, an undisturbed marking: exactly the live objects turn black, in as few slices as the budget allows.
     * With a budget of zero it is over after the root scan.
     */
    method TryMarkFull(ghost t: nat) returns (marked: bool, ghost acts: seq<Action<Node>>, ghost calls: nat)
      requires Valid() && Is(st, t, Ready) && (phase == Idle ==> busy == 0)
      modifies this`st, this`phase, gray, st.heap.Keys`color
      ensures Valid() && busy == old(busy)
      ensures marked <==> old(phase) == Idle
      ensures !marked ==> st == old(st)
      ensures marked ==>
        && Runs(Scanned(old(st), t), acts) && TracingOnly(acts)
        && st == Exec(Scanned(old(st), t), acts) && Is(st, t, Collecting)
      ensures marked && options.incrementalWorkBudget == 0 ==> st == Scanned(old(st), t)
      ensures marked && options.incrementalWorkBudget > 0 ==>
        Enabled(st, HandOff(t)) && calls == CeilDiv(|ToTrace(old(st.heap))|, options.incrementalWorkBudget)
      ensures marked && options.incrementalWorkBudget > 0 ==> forall n | n in st.heap :: st.heap[n].color == if n in Live(old(st.heap)) then Black else White
    {
      hide Inv, Shown, Chain, Enabled, Do, Exec, Runs, TracingOnly, Scanned, DoRootScan, Live, ToTrace, Blackenings;
      ReadyRests(st, t);
      marked := TryStartMarking(t);
      acts, calls := [], 0;
      if marked {
        StartedIsIdle(old(st), t);
        var tracer := new Tracer();
        DoMarkRoots(tracer, t);
        ScanIsDone(old(st), t);
        acts, calls := DoMarkWorkFull(tracer, t);
        if options.incrementalWorkBudget > 0 {
          MarkingTracesEachOnce(old(st), t, acts, t);
          MarkingIsReachability(old(st), t, acts, t);
        }
      }
    }

    /** The sweep of the whole list. */
    method SweepListed() returns (freed: nat)
      requires Inv(st) && Chain(head, st.list) && Shown(st.heap) && forall n | n in st.list :: n in st.heap
      modifies this`head, st.heap.Keys
      ensures Chain(head, Filter(st.list, Survivors(st.heap))) && Shown(Swept(st.heap))
      ensures freed == SumSizes(Filter(st.list, st.heap.Keys - Survivors(st.heap)), st.heap)
      ensures forall n | n in st.heap && n !in Swept(st.heap) :: !n.alive
    {
      hide Inv, Shown, Chain, Filter, Survivors, SumSizes, ShowsAll, AllFreed, NoDuplicates, Whitened, Swept;
      ListShown(st);
      ghost var gone;
      freed, gone := SweepList(st.heap, st.list);
      SweptShown(st.heap, st.list);
    }

    /**
     * Stores Sweeping and sweeps, whatever the state of marking. When the hand-off was possible and what is kept is
     * closed under edges, these are two steps of the step system and the heap is valid again.
     */
    method DoSweep(ghost t: nat) returns (remaining: nat)
      requires Valid() && Is(st, t, Collecting)
      modifies this`st, this`head, this`phase, this`bytes, st.heap.Keys
      ensures Represents(head, gray, phase, bytes, busy, st) && SweptFrom(old(st), t, st) && Is(st, t, Ready) && phase == Idle
      ensures remaining == bytes <= old(bytes)
      ensures forall n | n in old(st.heap) && n !in st.heap :: !n.alive
      ensures Enabled(old(st), HandOff(t)) && SurvivorsClosed(old(st.heap)) ==>
        Inv(st) && Runs(old(st), Finish(t)) && st == Exec(old(st), Finish(t))
    {
      hide Inv, Shown, Chain, Enabled, Do, Runs, Exec, Filter, Survivors, SurvivorsClosed, SumSizes, Swept, Finish, Is, SweptFrom;
      ghost var next := SweepFields(st, t);
      phase := Sweeping;
      var freed := SweepListed();
      bytes := bytes - freed;
      phase := Idle;
      st := next;
      remaining := bytes;
    }

    method UpdateThreshold(liveBytes: nat)
      modifies this`threshold
      ensures threshold == Pacing.CalculateThreshold(options, old(threshold), liveBytes)
    {
      threshold := Pacing.CalculateThreshold(options, threshold, liveBytes);
    }

    method SweepAndFinish(ghost t: nat) returns (liveBytes: nat)
      requires Valid() && Is(st, t, Collecting)
      modifies this`st, this`head, this`phase, this`bytes, this`threshold, st.heap.Keys
      ensures Represents(head, gray, phase, bytes, busy, st) && SweptFrom(old(st), t, st) && Is(st, t, Ready) && phase == Idle
      ensures liveBytes == bytes <= old(bytes) && threshold == Pacing.CalculateThreshold(options, old(threshold), liveBytes)
      ensures forall n | n in old(st.heap) && n !in st.heap :: !n.alive
      ensures Enabled(old(st), HandOff(t)) && SurvivorsClosed(old(st.heap)) ==>
        Inv(st) && Runs(old(st), Finish(t)) && st == Exec(old(st), Finish(t))
    {
      hide Inv, Shown, Chain, Enabled, Runs, Exec, SurvivorsClosed, SweptFrom, Is;
      liveBytes := DoSweep(t);
      UpdateThreshold(liveBytes);
    }

    /**
     * A forced collection that nothing interrupts is exact: what is listed afterwards is what was live, in the
     * order it was in, unchanged and white again, and the rest has been freed. It is one cycle of the step
     * system. When a cycle is already under way nothing happens. With a work budget of zero the sweep follows the
     * root scan at once.
     */
    method ForceCollect(ghost t: nat) returns (liveBytes: int, ghost acts: seq<Action<Node>>, ghost calls: nat)
      requires Valid() && Is(st, t, Ready) && (phase == Idle ==> busy == 0)
      modifies this`st, this`head, this`phase, this`bytes, this`threshold, gray, st.heap.Keys
      ensures Represents(head, gray, phase, bytes, busy, st) && liveBytes == bytes && Is(st, t, Ready) && busy == old(busy)
      ensures old(phase) != Idle || options.incrementalWorkBudget > 0 ==> Valid()
      ensures old(phase) != Idle ==> st == old(st) && threshold == old(threshold)
      ensures old(phase) == Idle ==>
        && phase == Idle && (forall n | n in old(st.heap) && n !in st.heap :: !n.alive)
        && 0 <= bytes <= old(bytes) && threshold == Pacing.CalculateThreshold(options, old(threshold), bytes)
      ensures old(phase) == Idle && options.incrementalWorkBudget > 0 ==>
        && gray.items == []
        && st.heap == LivePart(old(st.heap)) && st.list == Filter(old(st.list), Live(old(st.heap)))
        && bytes + Uncounted(st.threads) == SumSizes(st.list, st.heap)
      ensures old(phase) == Idle && options.incrementalWorkBudget > 0 ==>
        && Runs(old(st), acts) && st == Exec(old(st), acts)
        && calls == CeilDiv(|ToTrace(old(st.heap))|, options.incrementalWorkBudget)
      ensures old(phase) == Idle && options.incrementalWorkBudget == 0 ==> SweptFrom(Scanned(old(st), t), t, st)
    {
      hide Inv, Shown, Chain, Enabled, Do, Exec, Runs, TracingOnly, Scanned, Live, LivePart, ToTrace, SurvivorsClosed,
           SumSizes, Uncounted, Filter, Finish, SweptFrom;
      var marked;
      marked, acts, calls := TryMarkFull(t);
      if marked {
        if options.incrementalWorkBudget > 0 {
          SweepAfterMarking(old(st), t, acts, t);
        }
        ScanIsDoneBy(old(st), t, acts, st);
        liveBytes := SweepAndFinish(t);
        if options.incrementalWorkBudget > 0 {
          CycleIsExact(old(st), t, acts);
          acts := Cycle(t, acts);
        }
      } else {
        liveBytes := bytes;
      }
    }

    /** A valid heap has counted no more than it lists, and the count never goes below zero. */
    lemma BytesAreCounted()
      requires Valid()
      ensures 0 <= bytes && forall n | n in st.list :: n in st.heap
      ensures bytes <= SumSizes(st.list, st.heap)
    {
      hide Inv, Shown, Chain, SumSizes;
      SweepTakesCountedBytes(st);
    }

    predicate ShouldCollect()
      reads this
    {
      && !(options.ThresholdOff() && options.LimitOff())
      && ((!options.LimitOff() && bytes > options.limitBytes) || bytes > threshold)
    }

    /**
     * Collects when it is due. With no cycle under way this is the collection step of the pacing rule. That the
     * byte count is not negative follows from `Valid` (BytesAreCounted).
     */
    method Collect(ghost t: nat) returns (ghost collected: bool)
      requires Valid() && Is(st, t, Ready) && (ShouldCollect() && phase == Idle ==> busy == 0) && bytes >= 0
      modifies this`st, this`head, this`phase, this`bytes, this`threshold, gray, st.heap.Keys
      ensures Represents(head, gray, phase, bytes, busy, st) && 0 <= bytes <= old(bytes) && Is(st, t, Ready) && busy == old(busy)
      ensures options.incrementalWorkBudget > 0 ==> Valid()
      ensures collected <==>
        && old(phase) == Idle
        && !((options.thresholdPercent == 0 || options.thresholdPercent == Pacing.USIZE_MAX) && options.limitBytes == Pacing.USIZE_MAX)
        && (old(bytes) > old(threshold) || (options.limitBytes != Pacing.USIZE_MAX && old(bytes) > options.limitBytes))
      ensures !collected ==> Valid() && st == old(st) && threshold == old(threshold)
      ensures collected && options.incrementalWorkBudget > 0 ==> st.heap == LivePart(old(st.heap))
      ensures collected && options.incrementalWorkBudget == 0 ==> SweptFrom(Scanned(old(st), t), t, st)
      ensures old(phase) == Idle ==>
        Pacing.Pacer(bytes, threshold)
          == Pacing.Apply(options, Pacing.Pacer(old(bytes), old(threshold)), Pacing.Collect(bytes))
    {
      hide Inv, Shown, Chain, Enabled, Do, Exec, Runs, TracingOnly, Live, LivePart, ToTrace, SumSizes, Uncounted,
           Filter, SweptFrom, Scanned, Pacing.CalculateThreshold;
      collected := ShouldCollect() && phase == Idle;
      if ShouldCollect() {
        var liveBytes;
        ghost var acts, calls;
        liveBytes, acts, calls := ForceCollect(t);
      }
    }

    // ----- Mutators -----

    method CheckIsMarkingAndIncrementBusy() returns (marking: bool)
      modifies this`busy
      ensures marking <==> phase == Marking
      ensures busy == old(busy) + if marking then 1 else 0
    {
      busy := busy + 1;
      marking := phase == Marking;
      if !marking {
        busy := busy - 1;
      }
    }

    method DecrementBusyMarking()
      modifies this`busy
      ensures busy == old(busy) - 1
    {
      busy := busy - 1;
    }

    method EnterAssist(ghost t: nat) returns (marking: bool)
      requires Valid() && Is(st, t, Ready) && phase != Sweeping
      modifies this`st, this`busy
      ensures Valid() && (marking <==> phase == Marking)
      ensures Runs(old(st), AssistEntry(t)) && st == Exec(old(st), AssistEntry(t))
      ensures if marking then Is(st, t, Assisting) && Resting(st, t) else Is(st, t, Ready)
      ensures st.heap == old(st.heap) && st.list == old(st.list)
    {
      hide Inv, Shown, Chain, Enabled, Do, Exec, Runs, AssistEntry;
      marking := CheckIsMarkingAndIncrementBusy();
      AssistOpens(st, t);
      st := Exec(st, AssistEntry(t));
    }

    method LeaveAssist(ghost t: nat)
      requires Valid() && Is(st, t, Assisting) && Resting(st, t)
      modifies this`st, this`busy
      ensures Valid() && Enabled(old(st), AssistLeave(t)) && st == Do(old(st), AssistLeave(t))
    {
      hide Inv, Shown, Chain;
      DecrementBusyMarking();
      AssistLeavePreserves(st, t);
      st := WithPc(st, t, Ready).(busy := st.busy - 1);
    }

    /** A mutator about to allocate does a slice of a marking that is under way. */
    method Assist(ghost t: nat) returns (ghost acts: seq<Action<Node>>)
      requires Valid() && Is(st, t, Ready) && phase != Sweeping
      modifies this`st, this`busy, gray, st.heap.Keys`color
      ensures Valid() && Is(st, t, Ready)
      ensures Runs(old(st), acts) && st == Exec(old(st), acts) && TracingOnly(acts)
      ensures Blackenings(acts) <= options.assistWorkBudget
      ensures phase == Marking && Blackenings(acts) < options.assistWorkBudget ==> gray.items == []
      ensures phase == old(phase) && (phase != Marking ==> st.heap == old(st.heap))
    {
      hide Inv, Represents, Enabled, Do, Exec, Runs, TracingOnly, Blackenings, AssistEntry;
      acts := [];
      NoActions(st);
      if options.assistWorkBudget > 0 {
        var marking := EnterAssist(t);
        EntryIsTracing<Node>(t);
        acts := AssistEntry(t);
        if marking {
          ghost var entered := st;
          var complete;
          ghost var more;
          complete, more := DoMarkIncremental(options.assistWorkBudget, t);
          AssistCloses(old(st), acts, entered, more, t);
          LeaveAssist(t);
          acts := acts + more + [AssistLeave(t)];
        }
      }
    }

    method CompareExchangeHead(expected: Node?, n: Node) returns (done: bool)
      modifies this`head
      ensures done <==> old(head) == expected
      ensures head == if done then n else old(head)
    {
      done := head == expected;
      if done {
        head := n;
      }
    }

    /** The push loop. Undisturbed its first compare-exchange succeeds. */
    method PushFront(n: Node)
      requires Chain(head, st.list) && n !in st.list && n.alive
      modifies this`head, n`next
      ensures Chain(head, [n] + st.list)
    {
      hide Linked;
      var done := false;
      while !done
        invariant if done then Chain(head, [n] + st.list) else Chain(head, st.list)
        decreases !done
      {
        var currentHead := head;
        n.SetNext(currentHead);
        Pushed(n, currentHead, st.list);
        done := CompareExchangeHead(currentHead, n);
      }
    }

    /** Links a node that is in no list and counts its bytes; `next` is the state after both. */
    method Insert(n: Node, ghost next: State<Node>)
      requires Represents(head, gray, phase, bytes, busy, st) && Inv(next)
      requires n !in st.list && n !in st.heap && n.alive && n.color == White && n.rootCount == 1
      requires next.heap == st.heap[n := Object(White, 1, n.leaf, n.size, n.fields)] && next.list == [n] + st.list
      requires next.shared == st.shared && next.phase == st.phase && next.busy == st.busy && next.bytes == st.bytes + n.size
      modifies this`st, this`head, this`bytes, n`next
      ensures Valid() && st == next && bytes == old(bytes) + n.size
    {
      hide Inv, Shown, Chain;
      PushFront(n);
      LinkedShown(st.heap, n, Object(White, 1, n.leaf, n.size, n.fields));
      bytes := bytes + n.Size();
      st := next;
    }

    /** Pushes a new object, rooted once and white, on the front of the list, and then counts its bytes. */
    method Allocate(size: nat, leaf: bool, fields: seq<Option<Node>>, ghost t: nat)
        returns (n: Node, ghost assist: seq<Action<Node>>, ghost acts: seq<Action<Node>>)
      requires Valid() && Is(st, t, Ready) && phase != Sweeping
      requires Listed(st.heap, fields) && (leaf ==> fields == [])
      modifies this`st, this`busy, this`head, this`bytes, gray, st.heap.Keys`color
      ensures Valid() && fresh(n) && Is(st, t, Ready)
      ensures acts == assist + [Link(t, n, leaf, size, fields), Count(t)] && TracingOnly(assist)
      ensures Blackenings(assist) <= options.assistWorkBudget
      ensures phase == Marking && Blackenings(assist) < options.assistWorkBudget ==> gray.items == []
      ensures Runs(old(st), acts) && st == Exec(old(st), acts)
      ensures st.list == [n] + old(st.list) && bytes == old(bytes) + size
      ensures st.heap.Keys == old(st.heap).Keys + {n} && st.heap[n] == Object(White, 1, leaf, size, fields)
    {
      hide Inv, Shown, Chain, Enabled, Do, Exec, Runs, TracingOnly, Listed, Blackenings;
      assist := Assist(t);
      n := new Node(size, leaf, fields);
      LinkAndCount(old(st), assist, t, n, leaf, size, fields);
      acts := assist + [Link(t, n, leaf, size, fields), Count(t)];
      Insert(n, Exec(old(st), acts));
    }

    /** Tracing the new value hands over one of its pointers. */
    method ShadeValue(tracer: Tracer, ghost t: nat, ghost n: Node, ghost at: nat, vals: seq<Option<Node>>, i: nat)
      requires Valid() && Works(tracer, st, t) && Is(st, t, SetShading(n, at, vals, i)) && i < |vals|
      modifies this`st, tracer, st.heap.Keys`color
      ensures Valid() && Works(tracer, st, t) && Is(st, t, SetShading(n, at, vals, i + 1))
      ensures Enabled(old(st), SetShade(t)) && st == Do(old(st), SetShade(t)) && SameButColor(old(st.heap), st.heap)
      ensures st.list == old(st.list) && st.phase == old(st.phase)
    {
      hide Inv, Do, Enabled, Shade, DoSetShade, Shown, Chain;
      SetShadeStep(st, t, n, at, vals, i);
      SetShadeFields(st, t, n, at, vals, i);
      PendingIsListed(st, t, n, at, vals, i);
      ShadeNode(st, t, vals[i]);
      ShadeTracingFrame(st, t, vals[i]);
      MarkPointer(tracer, vals[i], t);
      st := Do(st, SetShade(t));
    }

    method MergeBarrier(tracer: Tracer, ghost t: nat, ghost n: Node, ghost at: nat, ghost vals: seq<Option<Node>>)
      requires Valid() && Works(tracer, st, t) && Is(st, t, SetShading(n, at, vals, |vals|))
      modifies this`st, gray, tracer
      ensures Valid() && Works(tracer, st, t) && Is(st, t, SetMerged(n, at, vals))
      ensures Enabled(old(st), SetMerge(t)) && st == Do(old(st), SetMerge(t))
      ensures st.heap == old(st.heap) && st.list == old(st.list) && st.phase == old(st.phase)
    {
      hide Inv, Do, Enabled, Shown, Chain;
      tracer.AppendTo(gray);
      SetMergeStep(st, t, n, at, vals);
      st := Do(st, SetMerge(t));
    }

    /** The insertion barrier: every pointer of the new value is shaded and the shared queue gets the work. */
    method WriteBarrier(tracer: Tracer, ghost t: nat, ghost n: Node, ghost at: nat, vals: seq<Option<Node>>)
        returns (ghost acts: seq<Action<Node>>)
      requires Valid() && Works(tracer, st, t) && Is(st, t, SetShading(n, at, vals, 0))
      modifies this`st, gray, tracer, st.heap.Keys`color
      ensures Valid() && Works(tracer, st, t) && Is(st, t, SetMerged(n, at, vals))
      ensures Runs(old(st), acts) && st == Exec(old(st), acts) && SameButColor(old(st.heap), st.heap)
      ensures st.list == old(st.list) && st.phase == old(st.phase)
    {
      hide Inv, Do, Enabled, Represents, Runs, Exec, SameButColor;
      acts := [];
      NoActions(st);
      Recoloured(st.heap, st.heap, st.heap);
      var i := 0;
      while i < |vals|
        invariant i <= |vals| && Valid() && Works(tracer, st, t) && Is(st, t, SetShading(n, at, vals, i))
        invariant Runs(old(st), acts) && st == Exec(old(st), acts) && SameButColor(old(st.heap), st.heap)
        invariant st.heap.Keys == old(st.heap).Keys && st.list == old(st.list) && st.phase == old(st.phase)
      {
        ghost var before := st.heap;
        ShadeValue(tracer, t, n, at, vals, i);
        Recoloured(old(st.heap), before, st.heap);
        RunsSnoc(old(st), acts, SetShade(t));
        acts := acts + [SetShade(t)];
        i := i + 1;
      }
      SetMergeStep(st, t, n, at, vals);
      RunsSnoc(old(st), acts, SetMerge(t));
      MergeBarrier(tracer, t, n, at, vals);
      acts := acts + [SetMerge(t)];
    }

    /** Overwrites part of an object; `next` is the state with the store done. */
    method StoreFields(n: Node, at: nat, vals: seq<Option<Node>>, ghost next: State<Node>)
      requires CanStore(st.heap, n, at, vals) && Represents(head, gray, phase, bytes, st.busy, st) && Inv(next)
      requires next.heap == Store(st.heap, n, at, vals) && next.list == st.list && next.shared == st.shared
      requires next.phase == st.phase && next.bytes == st.bytes && next.busy == busy
      modifies this`st, n`fields
      ensures Valid() && st == next && n.fields == old(n.fields)[..at] + vals + old(n.fields)[at + |vals|..]
    {
      hide Inv, Chain;
      n.SetFields(n.Fields()[..at] + vals + n.Fields()[at + |vals|..]);
      st := next;
    }

    /**
     * GcCell::set on the cell at `at`. While marking is under way everything the new value points to is
     * shaded before the store.
     */
    method CellSet(tracer: Tracer, n: Node, at: nat, vals: seq<Option<Node>>, ghost t: nat) returns (ghost acts: seq<Action<Node>>)
      requires Valid() && Works(tracer, st, t) && Is(st, t, Ready) && phase != Sweeping
      requires CanStore(st.heap, n, at, vals) && Listed(st.heap, vals)
      modifies this`st, this`busy, gray, tracer, st.heap.Keys`color, n`fields
      ensures Valid() && Works(tracer, st, t) && Is(st, t, Ready)
      ensures Runs(old(st), acts) && st == Exec(old(st), acts)
      ensures phase == Marking ==> Shaded(st.heap, vals)
      ensures n.fields == old(n.fields)[..at] + vals + old(n.fields)[at + |vals|..]
    {
      hide Inv, Do, Enabled, Shown, Chain, Runs, Exec, Store, Listed, SetEntry, Shaded, CanStore, SameButColor;
      var marking := CheckIsMarkingAndIncrementBusy();
      SetOpens(st, t, n, at, vals);
      acts := SetEntry(t, n, at, vals);
      if marking {
        st := Exec(st, acts);
        ghost var entered := st;
        ghost var more := WriteBarrier(tracer, t, n, at, vals);
        SetCloses(old(st), acts, entered, more, t, n, at, vals);
        DecrementBusyMarking();
        acts := acts + more + [SetLeave(t)];
        StoreFields(n, at, vals, Exec(old(st), acts));
      } else {
        StoreFields(n, at, vals, Exec(st, acts));
      }
    }

    // ----- Handles -----

    /** GcPtr::root. */
    method Root(n: Node)
      requires Valid() && phase != Sweeping && n in st.heap
      modifies this`st, n`rootCount
      ensures Valid() && Enabled(old(st), Action.Root(n)) && st == Do(old(st), Action.Root(n))
      ensures n.rootCount == old(n.rootCount) + 1 && st.handles == old(st.handles) + multiset{n}
    {
      hide Inv, Chain, Shown, ShownBut;
      NodeShown(st.heap, n);
      ShownButOne(st.heap, n);
      n.IncRoot();
      AddRootPreserves(st, n);
      RootShown(st.heap, n, 1);
      st := AddRoots(st, n, 1).(handles := st.handles + multiset{n});
    }

    /** GcRoot::clone, which there must be a handle for. */
    method Clone(n: Node)
      requires Valid() && phase != Sweeping && n in st.heap && n in st.handles
      modifies this`st, n`rootCount
      ensures Valid() && Enabled(old(st), Action.Clone(n)) && st == Do(old(st), Action.Clone(n))
      ensures n.rootCount == old(n.rootCount) + 1 && st.handles == old(st.handles) + multiset{n}
    {
      hide Inv, Chain, Shown, ShownBut;
      NodeShown(st.heap, n);
      ShownButOne(st.heap, n);
      n.IncRoot();
      AddRootPreserves(st, n);
      RootShown(st.heap, n, 1);
      st := AddRoots(st, n, 1).(handles := st.handles + multiset{n});
    }

    /** Dropping a GcRoot: the count was positive, so it never goes below zero. */
    method DropHandle(n: Node)
      requires Valid() && phase != Sweeping && n in st.heap && n in st.handles
      modifies this`st, n`rootCount
      ensures Valid() && Enabled(old(st), Drop(n)) && st == Do(old(st), Drop(n))
      ensures old(n.rootCount) >= 1 && n.rootCount == old(n.rootCount) - 1 && st.handles == old(st.handles) - multiset{n}
    {
      hide Inv, Chain, Shown, ShownBut;
      NodeShown(st.heap, n);
      ShownButOne(st.heap, n);
      DropRootPreserves(st, n);
      n.DecRoot();
      RootShown(st.heap, n, -1);
      st := AddRoots(st, n, -1).(handles := st.handles - multiset{n});
    }

    // ----- The background worker -----

    /** The worker's marking loop: each slice has a tracer of its own, and the last one finds nothing to do. */
    method MarkInSlices(ghost t: nat) returns (ghost acts: seq<Action<Node>>)
      requires Valid() && Is(st, t, Collecting) && Resting(st, t) && busy == 0
      modifies this`st, gray, st.heap.Keys`color
      ensures Valid() && Is(st, t, Collecting)
      ensures Runs(old(st), acts) && st == Exec(old(st), acts) && TracingOnly(acts)
      ensures if options.incrementalWorkBudget > 0 then Enabled(st, HandOff(t)) else st == old(st)
    {
      hide Inv, Enabled, Do, Shown, Chain, Measure, Runs, Exec, TracingOnly, Blackenings;
      acts := [];
      NoActions(st);
      var again := true;
      while again
        invariant Valid() && Is(st, t, Collecting) && Resting(st, t) && busy == 0
        invariant st.heap.Keys == old(st.heap.Keys)
        invariant Runs(old(st), acts) && st == Exec(old(st), acts) && TracingOnly(acts)
        invariant !again && options.incrementalWorkBudget > 0 ==> st.shared == []
        invariant options.incrementalWorkBudget == 0 ==> st == old(st)
        decreases Measure(st), again
      {
        var complete;
        ghost var more;
        complete, more := DoMarkIncremental(options.incrementalWorkBudget, t);
        AnotherSlice(old(st), acts, more, t);
        acts := acts + more;
        if complete {
          again := YieldOnceIfMarkingBusy();
        }
      }
      if options.incrementalWorkBudget > 0 {
        HandOffEnabled(st, t);
      }
    }

    method TryMarkInSlices(ghost t: nat) returns (marked: bool, ghost acts: seq<Action<Node>>)
      requires Valid() && Is(st, t, Ready) && (phase == Idle ==> busy == 0)
      modifies this`st, this`phase, gray, st.heap.Keys`color
      ensures Valid() && busy == old(busy)
      ensures marked <==> old(phase) == Idle
      ensures !marked ==> st == old(st)
      ensures marked ==>
        && Runs(Scanned(old(st), t), acts) && TracingOnly(acts)
        && st == Exec(Scanned(old(st), t), acts) && Is(st, t, Collecting)
      ensures marked ==> if options.incrementalWorkBudget > 0 then Enabled(st, HandOff(t)) else st == Scanned(old(st), t)
    {
      hide Inv, Shown, Chain, Enabled, Do, Exec, Runs, TracingOnly, Scanned, DoRootScan;
      ReadyRests(st, t);
      marked := TryStartMarking(t);
      acts := [];
      if marked {
        StartedIsIdle(old(st), t);
        var tracer := new Tracer();
        DoMarkRoots(tracer, t);
        ScanIsDone(old(st), t);
        acts := MarkInSlices(t);
      }
    }

    /** A cycle of the background worker that runs to its end leaves what a forced collection leaves. */
    method BackgroundCycle(ghost t: nat) returns (collected: bool)
      requires Valid() && Is(st, t, Ready) && (ShouldCollect() && phase == Idle ==> busy == 0)
      modifies this`st, this`head, this`phase, this`bytes, this`threshold, gray, st.heap.Keys
      ensures Represents(head, gray, phase, bytes, busy, st) && Is(st, t, Ready) && busy == old(busy)
      ensures collected <==>
        && old(phase) == Idle
        && !((options.thresholdPercent == 0 || options.thresholdPercent == Pacing.USIZE_MAX) && options.limitBytes == Pacing.USIZE_MAX)
        && (old(bytes) > old(threshold) || (options.limitBytes != Pacing.USIZE_MAX && old(bytes) > options.limitBytes))
      ensures !collected || options.incrementalWorkBudget > 0 ==> Valid()
      ensures !collected ==> st == old(st) && threshold == old(threshold)
      ensures collected ==>
        && phase == Idle && (forall n | n in old(st.heap) && n !in st.heap :: !n.alive)
        && 0 <= bytes <= old(bytes) && threshold == Pacing.CalculateThreshold(options, old(threshold), bytes)
      ensures collected && options.incrementalWorkBudget > 0 ==>
        && gray.items == []
        && st.heap == LivePart(old(st.heap)) && st.list == Filter(old(st.list), Live(old(st.heap)))
      ensures collected && options.incrementalWorkBudget == 0 ==> SweptFrom(Scanned(old(st), t), t, st)
    {
      hide Inv, Shown, Chain, Enabled, Do, Exec, Runs, TracingOnly, Scanned, Live, LivePart, SurvivorsClosed, Filter,
           SumSizes, Uncounted, ToTrace, SweptFrom, Finish;
      collected := false;
      if ShouldCollect() {
        ghost var acts;
        collected, acts := TryMarkInSlices(t);
        if collected {
          if options.incrementalWorkBudget > 0 {
            SweepAfterMarking(old(st), t, acts, t);
          }
          ScanIsDoneBy(old(st), t, acts, st);
          var liveBytes := SweepAndFinish(t);
          if options.incrementalWorkBudget > 0 {
            CycleIsExact(old(st), t, acts);
          }
        }
      }
    }
  }

  /** No objects, no work, every thread between operations. */
  ghost function Empty<O>(threads: nat): State<O> {
    State(map[], [], [], seq(threads, i => Thread(Ready, [], None)), 0, Idle, 0, false, 0, {}, {}, multiset{}, multiset{}, {})
  }

  lemma EmptyIsValid<O>(threads: nat)
    ensures Inv(Empty<O>(threads))
  {
    hide Held, Births, BusyThreads, Uncounted;
    EmptyFolds(Empty<O>(threads).threads);
  }

  lemma {:induction false} EmptyFolds<O>(threads: seq<Thread<O>>)
    requires forall i | 0 <= i < |threads| :: threads[i] == Thread(Ready, [], None)
    ensures Held(threads) == multiset{} && BusyThreads(threads) == 0 && Births(threads) == multiset{} && Uncounted(threads) == 0
  {
    if threads != [] {
      EmptyFolds(threads[1..]);
    }
  }

  lemma {:induction false} BlackeningsSnoc<O>(acts: seq<Action<O>>, a: Action<O>)
    ensures Blackenings(acts + [a]) == Blackenings(acts) + (if a.Blacken? then 1 else 0)
  {
    if acts == [] {
      assert acts + [a] == [a];
    } else {
      assert (acts + [a])[1..] == acts[1..] + [a];
      BlackeningsSnoc(acts[1..], a);
    }
  }

  lemma NodeShown(heap: map<Node, Object<Node>>, n: Node)
    requires Shown(heap) && n in heap
    ensures Shows(n, heap[n]) && n.alive && n.leaf == heap[n].leaf && n.fields == heap[n].fields
  {
  }

  /** What Shade does to the heap and the local queue, object by object. */
  lemma ShadeNode(st: State<Node>, t: nat, f: Option<Node>)
    requires t < |st.threads| && (f.Some? ==> f.value in st.heap)
    ensures var s' := Shade(st, t, f);
      && s'.heap.Keys == st.heap.Keys && s'.shared == st.shared && s'.list == st.list
      && s'.phase == st.phase && s'.bytes == st.bytes && s'.busy == st.busy
      && s'.threads == st.threads[t := st.threads[t].(local := s'.threads[t].local)]
      && (f.None? ==> s'.heap == st.heap && s'.threads[t].local == st.threads[t].local)
      && (f.Some? ==>
            && (forall n | n in st.heap && n != f.value :: s'.heap[n] == st.heap[n])
            && s'.heap[f.value] == st.heap[f.value].(color := s'.heap[f.value].color)
            && s'.heap[f.value].color ==
                 (if st.heap[f.value].leaf then Black
                  else if st.heap[f.value].color == White then Gray else st.heap[f.value].color)
            && s'.threads[t].local == st.threads[t].local +
                 (if !st.heap[f.value].leaf && st.heap[f.value].color == White then [f.value] else []))
  {
    assert st.threads[t].local + [] == st.threads[t].local;
  }

  lemma ScanFieldEnabled(st: State<Node>, t: nat, n: Node, i: nat)
    requires Tracing(st, t) && st.threads[t].current == Some(Scan(n, i)) && n in st.heap && i < |st.heap[n].fields|
    ensures Enabled(st, ScanField(t)) && Do(st, ScanField(t)) == DoScanField(st, t)
  {
    hide DoScanField;
  }

  lemma ScanFieldNode(st: State<Node>, t: nat, n: Node, i: nat)
    requires Tracing(st, t) && st.threads[t].current == Some(Scan(n, i)) && n in st.heap && i < |st.heap[n].fields|
    ensures var m := Shade(st, t, st.heap[n].fields[i]);
      DoScanField(st, t) == WithThread(m, t, m.threads[t].(current := Some(Scan(n, i + 1))))
  {
    hide Shade;
  }

  lemma PopEnabled(st: State<Node>, t: nat)
    requires Tracing(st, t) && st.threads[t].current.None? && st.threads[t].local != []
    ensures Enabled(st, Pop(t)) && Do(st, Pop(t)) == DoPop(st, t)
  {
    hide DoPop;
  }

  lemma BlackenEnabled(st: State<Node>, t: nat)
    requires Tracing(st, t) && HasCurrent(st, t)
    requires st.threads[t].current.value.k == |st.heap[st.threads[t].current.value.o].fields|
    ensures Enabled(st, Blacken(t)) && Do(st, Blacken(t)) == DoBlacken(st, t)
  {
    hide DoBlacken;
  }

  lemma {:induction false} BlackeningsConcat<O>(a: seq<Action<O>>, b: seq<Action<O>>)
    ensures Blackenings(a + b) == Blackenings(a) + Blackenings(b)
  {
    if a == [] {
      assert a + b == b;
    } else {
      assert (a + b)[1..] == a[1..] + b;
      BlackeningsConcat(a[1..], b);
    }
  }

  lemma {:induction false} TracingRunFrame<O>(s: State<O>, acts: seq<Action<O>>)
    requires Runs(s, acts) && TracingOnly(acts)
    ensures TracingFrame(s, Exec(s, acts))
    decreases |acts|
  {
    hide Enabled, Do, IsTracing;
    if acts != [] {
      assert acts[0] in acts;
      assert forall a | a in acts[1..] :: a in acts;
      TracingStepFrame(s, acts[0]);
      TracingRunFrame(Do(s, acts[0]), acts[1..]);
    }
  }

  lemma StealStep<O>(s: State<O>, t: nat)
    requires Inv(s) && Tracing(s, t) && Resting(s, t) && s.shared != []
    ensures Enabled(s, Steal(t)) && Inv(Do(s, Steal(t)))
    ensures var s', moved := Do(s, Steal(t)), if |s.shared| < BATCH_SIZE then |s.shared| else BATCH_SIZE;
      && s'.heap == s.heap && s'.list == s.list && s'.phase == s.phase && s'.bytes == s.bytes && s'.busy == s.busy
      && s'.shared == s.shared[..|s.shared| - moved]
      && t < |s'.threads| && s'.threads[t].local == Reverse(s.shared[|s.shared| - moved..])
  {
    hide Inv, Reverse;
    StealPreserves(s, t);
  }

  lemma MergeNeeds<O>(s: State<O>, t: nat)
    requires Enabled(s, Merge(t))
    ensures Tracing(s, t) && s.threads[t].current.None?
  {
  }

  lemma MergeStep<O>(s: State<O>, t: nat)
    requires Inv(s) && Tracing(s, t) && s.threads[t].current.None?
    ensures Enabled(s, Merge(t)) && Inv(Do(s, Merge(t)))
    ensures var s' := Do(s, Merge(t));
      && s'.heap == s.heap && s'.list == s.list && s'.phase == s.phase && s'.bytes == s.bytes && s'.busy == s.busy
      && s'.shared == s.shared + s.threads[t].local && t < |s'.threads| && s'.threads[t].local == []
  {
    hide Inv;
    MergePreserves(s, t);
  }

  lemma StealShrinks<O>(s: State<O>, t: nat)
    requires Enabled(s, Steal(t))
    ensures |Do(s, Steal(t)).shared| < |s.shared| && Tracing(Do(s, Steal(t)), t)
    ensures Do(s, Steal(t)).threads[t].current == s.threads[t].current
  {
    hide Reverse;
  }

  lemma MergeEnabled<O>(s: State<O>, t: nat)
    requires Tracing(s, t) && s.threads[t].current.None?
    ensures Enabled(s, Merge(t))
  {
  }

  lemma MergeEmpties<O>(s: State<O>, t: nat)
    requires Enabled(s, Merge(t))
    ensures Tracing(Do(s, Merge(t)), t) && Resting(Do(s, Merge(t)), t) && Do(s, Merge(t)).heap == s.heap
    ensures Do(s, Merge(t)).shared == s.shared + s.threads[t].local
  {
  }

  lemma {:induction false} FilterSnoc<O>(list: seq<O>, i: nat, keep: set<O>)
    requires i < |list|
    ensures Filter(list[..i + 1], keep) == Filter(list[..i], keep) + (if list[i] in keep then [list[i]] else [])
  {
    if i == 0 {
      assert list[..1] == [list[0]] && list[..0] == [];
      assert list[..1][1..] == [];
    } else {
      assert list[..i + 1][1..] == list[1..][..i] && list[..i][1..] == list[1..][..i - 1];
      FilterSnoc(list[1..], i - 1, keep);
    }
  }

  /** Every listed node is in the heap and shows it, and no node is listed twice. */
  lemma ListShown(st: State<Node>)
    requires Inv(st) && Shown(st.heap)
    ensures ShowsAll(st.list, st.heap) && NoDuplicates(st.list)
    ensures forall n | n in st.heap :: n in st.list
  {
  }

  lemma RootScanEnabled(st: State<Node>, t: nat)
    requires Inv(st) && Is(st, t, Starting)
    ensures Enabled(st, RootScan(t)) && Do(st, RootScan(t)) == DoRootScan(st, t)
  {
    assert forall o | o in st.list :: o in st.heap;
    hide Inv, DoRootScan;
  }

  lemma RootScanFields(st: State<Node>, t: nat)
    requires t < |st.threads|
    ensures var s' := DoRootScan(st, t);
      && s'.heap == GrayRoots(st.heap) && s'.list == st.list && s'.shared == st.shared + Filter(st.list, Unmarked(st.heap))
      && s'.phase == st.phase && s'.bytes == st.bytes && s'.busy == st.busy
      && s'.threads == st.threads[t := st.threads[t].(pc := Collecting)]
  {
    hide Filter, Unmarked, GrayRoots;
  }

  lemma GrayRootsAt(h: map<Node, Object<Node>>, n: Node)
    requires n in h
    ensures n in GrayRoots(h) && GrayRoots(h).Keys == h.Keys
    ensures n in Unmarked(h) <==> h[n].roots > 0 && h[n].color == White
    ensures GrayRoots(h)[n] == if n in Unmarked(h) then h[n].(color := Gray) else h[n]
  {
  }

  lemma ShownByList(list: seq<Node>, heap: map<Node, Object<Node>>)
    requires forall n | n in heap :: n in list
    requires ShowsAll(list, heap)
    ensures Shown(heap)
  {
  }

  // ----- Counting slices -----

  function CeilDiv(n: nat, d: nat): nat
    requires d > 0
  {
    (n + d - 1) / d
  }

  lemma CeilIsUnique(n: nat, d: nat, q: nat)
    requires d > 0 && q * d >= n && (n == 0 ==> q == 0) && (n > 0 ==> q > 0 && (q - 1) * d < n)
    ensures q == CeilDiv(n, d)
  {
    if n > 0 {
      assert (q - 1) * d == q * d - d;
      var r := n + d - 1 - q * d;
      assert 0 <= r < d && n + d - 1 == q * d + r;
      DivisionIsUnique(n + d - 1, d, q, r);
    }
  }

  lemma {:induction false} LargerFactor(p: nat, q: nat, d: nat)
    requires p > q
    ensures p * d >= q * d + d
  {
    assert p * d == (p - 1) * d + d;
    if p - 1 > q {
      LargerFactor(p - 1, q, d);
    }
  }

  lemma DivisionIsUnique(x: nat, d: nat, q: nat, r: nat)
    requires d > 0 && r < d && x == q * d + r
    ensures x / d == q
  {
    var p := x / d;
    assert x == p * d + x % d;
    if p > q {
      LargerFactor(p, q, d);
    } else if p < q {
      LargerFactor(q, p, d);
    }
  }

  /** A further slice extends a run of slices. */
  lemma AnotherSlice<O>(s: State<O>, acts: seq<Action<O>>, more: seq<Action<O>>, t: nat)
    requires Runs(s, acts) && TracingOnly(acts) && Inv(Exec(s, acts)) && Is(Exec(s, acts), t, Collecting)
    requires Runs(Exec(s, acts), more) && TracingOnly(more)
    ensures Runs(s, acts + more) && Exec(s, acts + more) == Exec(Exec(s, acts), more) && TracingOnly(acts + more)
    ensures Blackenings(acts + more) == Blackenings(acts) + Blackenings(more)
    ensures Is(Exec(Exec(s, acts), more), t, Collecting)
    ensures Measure(Exec(Exec(s, acts), more)) + Blackenings(more) <= Measure(Exec(s, acts))
    ensures Exec(Exec(s, acts), more).heap.Keys == Exec(s, acts).heap.Keys
  {
    hide Inv, Measure, IsTracing;
    TracingIsProgress(Exec(s, acts), more);
    CollectingStays(Exec(s, acts), more, t);
    RunsConcat(s, acts, more);
    BlackeningsConcat(acts, more);
    TracingRunFrame(Exec(s, acts), more);
  }

  lemma {:induction false} CollectingStays<O>(s: State<O>, acts: seq<Action<O>>, t: nat)
    requires Runs(s, acts) && TracingOnly(acts) && Is(s, t, Collecting)
    ensures Is(Exec(s, acts), t, Collecting)
    decreases |acts|
  {
    hide Enabled, Do, IsTracing;
    if acts != [] {
      assert acts[0] in acts;
      assert forall a | a in acts[1..] :: a in acts;
      CollectingStep(s, acts[0], t);
      CollectingStays(Do(s, acts[0]), acts[1..], t);
    }
  }

  lemma CollectingStep<O>(s: State<O>, a: Action<O>, t: nat)
    requires Enabled(s, a) && IsTracing(a) && Is(s, t, Collecting)
    ensures Is(Do(s, a), t, Collecting)
  {
    hide Enabled, Do, IsCollector;
    TracingPcs(s, a, t);
  }

  /** Tracing changes no thread's place except between a mutator's own operations and its assist. */
  lemma TracingPcs<O>(s: State<O>, a: Action<O>, u: nat)
    requires Enabled(s, a) && IsTracing(a) && u < |s.threads|
    ensures u < |Do(s, a).threads|
    ensures s.threads[u].pc.Collecting? ==> Do(s, a).threads[u].pc.Collecting?
    ensures !IsCollector(s.threads[u].pc) ==> !IsCollector(Do(s, a).threads[u].pc)
  {
    hide Enabled, Do, IsCollector;
    if a.ScanField? {
      ScanFieldPcs(s, a.t, u);
    } else if a.Steal? || a.Pop? || a.Blacken? || a.Merge? {
      WorkPcs(s, a, u);
    } else {
      AssistPcs(s, a, u);
    }
  }

  lemma ScanFieldPcs<O>(s: State<O>, t: nat, u: nat)
    requires Enabled(s, ScanField(t)) && u < |s.threads|
    ensures u < |Do(s, ScanField(t)).threads| && Do(s, ScanField(t)).threads[u].pc == s.threads[u].pc
  {
    hide Shade;
    var c := s.threads[t].current.value;
    ShadeView(s, t, s.heap[c.o].fields[c.k]);
    ShadePcs(s, t, s.heap[c.o].fields[c.k], u);
  }

  lemma WorkPcs<O>(s: State<O>, a: Action<O>, u: nat)
    requires Enabled(s, a) && (a.Steal? || a.Pop? || a.Blacken? || a.Merge?) && u < |s.threads|
    ensures u < |Do(s, a).threads| && Do(s, a).threads[u].pc == s.threads[u].pc
  {
    hide Reverse;
  }

  lemma AssistPcs<O>(s: State<O>, a: Action<O>, u: nat)
    requires Enabled(s, a) && (a.AssistEnter? || a.AssistCheck? || a.AssistLeave?) && u < |s.threads|
    ensures u < |Do(s, a).threads|
    ensures s.threads[u].pc.Collecting? ==> Do(s, a).threads[u].pc.Collecting?
    ensures !IsCollector(s.threads[u].pc) ==> !IsCollector(Do(s, a).threads[u].pc)
  {
  }

  lemma ShadePcs<O>(s: State<O>, t: nat, f: Option<O>, u: nat)
    requires t < |s.threads| && u < |s.threads|
    ensures Shade(s, t, f).threads[u].pc == s.threads[u].pc
  {
  }

  lemma HandOffEnabled<O>(s: State<O>, t: nat)
    requires Is(s, t, Collecting) && Resting(s, t) && s.shared == [] && s.busy == 0
    ensures Enabled(s, HandOff(t))
  {
  }

  lemma NoActions<O>(s: State<O>)
    ensures Runs(s, []) && Exec(s, []) == s && TracingOnly<O>([]) && Blackenings<O>([]) == 0
  {
  }

  // ----- Steps along the list -----

  ghost function LastOf(kept: seq<Node>): Node? {
    if kept == [] then null else kept[|kept| - 1]
  }

  lemma EndOfList(list: seq<Node>)
    requires Linked(null, list, null)
    ensures list == []
  {
  }

  lemma StartOfWalk(list: seq<Node>, keep: set<Node>, heap: map<Node, Object<Node>>)
    ensures Filter(list[..0], keep) == [] && list[0..] == list && ShowsAll(list[..0], heap)
  {
  }

  lemma StartOfSweep(list: seq<Node>, keep: set<Node>, drop: set<Node>, heap: map<Node, Object<Node>>, head: Node?)
    ensures Filter(list[..0], keep) == [] && Filter(list[..0], drop) == [] && SumSizes([], heap) == 0
    ensures list[0..] == list && ShowsAll([], Whitened(heap)) && AllFreed([]) && Linked(head, [], head)
  {
  }

  /** The current node is the next of the list, and shows its object. */
  lemma NextOfWalk(current: Node?, list: seq<Node>, i: nat, heap: map<Node, Object<Node>>)
    requires i <= |list| && current != null && Linked(current, list[i..], null) && ShowsAll(list[i..], heap) && NoDuplicates(list)
    ensures i < |list| && current == list[i] && list[i + 1..] == list[i..][1..]
    ensures Linked(current.next, list[i + 1..], null) && ShowsAll(list[i + 1..], heap)
    ensures current in heap && Shows(current, heap[current]) && current.alive
    ensures current.color == heap[current].color && current.rootCount == heap[current].roots && current.size == heap[current].size
    ensures current !in list[i + 1..] && current !in list[..i]
  {
    var rest, tail := list[i..], list[i + 1..];
    assert rest != [];
    assert tail == rest[1..];
    forall j | 0 <= j < |tail| ensures tail[j].next == After(tail, j, null) {
      assert rest[j + 1].next == After(rest, j + 1, null);
    }
    assert rest[0].next == After(rest, 0, null);
  }

  lemma OneMoreShown(list: seq<Node>, i: nat, heap: map<Node, Object<Node>>)
    requires i < |list| && ShowsAll(list[..i], heap) && list[i] in heap && Shows(list[i], heap[list[i]])
    ensures ShowsAll(list[..i + 1], heap)
  {
    assert list[..i + 1] == list[..i] + [list[i]];
  }

  lemma LastIsAlive(kept: seq<Node>, heap: map<Node, Object<Node>>)
    requires ShowsAll(kept, heap)
    ensures kept != [] ==> LastOf(kept) in kept && LastOf(kept).alive
  {
  }

  lemma NotFreed(gone: seq<Node>, n: Node)
    requires AllFreed(gone) && n.alive
    ensures n !in gone
  {
  }

  lemma OneMoreFreed(gone: seq<Node>, n: Node)
    requires AllFreed(gone) && !n.alive
    ensures AllFreed(gone + [n])
  {
  }

  lemma OneMoreKept(head: Node?, kept: seq<Node>, n: Node, heap: map<Node, Object<Node>>)
    requires Linked(head, kept, n) && ShowsAll(kept, Whitened(heap)) && n in heap && Shows(n, heap[n].(color := White))
    ensures Linked(head, kept + [n], n.next) && ShowsAll(kept + [n], Whitened(heap))
  {
    var more := kept + [n];
    forall j | 0 <= j < |more| ensures more[j].next == After(more, j, n.next) {
      if j < |kept| {
        assert more[j] == kept[j];
        assert kept[j].next == After(kept, j, n);
      }
    }
  }

  /** What the next node adds to the kept and to the freed ones. */
  lemma NextOfSweep(list: seq<Node>, i: nat, keep: set<Node>, drop: set<Node>, heap: map<Node, Object<Node>>)
    requires i < |list| && NoDuplicates(list) && forall n | n in list :: n in heap
    requires keep == Survivors(heap) && drop == heap.Keys - keep
    ensures Filter(list[..i + 1], keep) == Filter(list[..i], keep) + (if list[i] in keep then [list[i]] else [])
    ensures Filter(list[..i + 1], drop) == Filter(list[..i], drop) + (if list[i] in drop then [list[i]] else [])
    ensures list[i] in keep <==> !(heap[list[i]].color == White && heap[list[i]].roots <= 0)
    ensures list[i] in drop <==> list[i] !in keep
    ensures NoDuplicates(Filter(list[..i], keep))
    ensures forall n | n in Filter(list[..i], keep) :: n in list[..i] && n in heap && n !in list[i..]
    ensures forall n | n in Filter(list[..i], drop) :: n in list[..i] && n !in list[i..]
    ensures SumSizes(Filter(list[..i], drop) + [list[i]], heap) == SumSizes(Filter(list[..i], drop), heap) + heap[list[i]].size
  {
    FilterSnoc(list, i, keep);
    FilterSnoc(list, i, drop);
    FilterKeepsDistinct(list[..i], keep);
    SumSizesSnoc(Filter(list[..i], drop), list[i], heap);
  }

  lemma {:induction false} SumSizesSnoc<O>(list: seq<O>, o: O, heap: map<O, Object<O>>)
    requires o in heap && forall x | x in list :: x in heap
    ensures SumSizes(list + [o], heap) == SumSizes(list, heap) + heap[o].size
  {
    if list == [] {
      assert list + [o] == [o] && [o][1..] == [];
    } else {
      assert (list + [o])[1..] == list[1..] + [o];
      SumSizesSnoc(list[1..], o, heap);
    }
  }

  // ----- Steps of a whole collection -----

  lemma ReadyRests<O>(s: State<O>, t: nat)
    requires Inv(s) && Is(s, t, Ready)
    ensures Resting(s, t)
  {
    ThreadFacts(s, t);
  }

  lemma StartedIsIdle<O>(s: State<O>, t: nat)
    requires Is(s, t, Ready) && Resting(s, t)
    ensures var m := Started(s, t);
      && Is(m, t, Starting) && Resting(m, t) && m.busy == s.busy && m.heap == s.heap && m.list == s.list
      && m.threads[t].local == []
  {
  }

  lemma ScanIsDone<O>(s: State<O>, t: nat)
    requires Inv(s) && Is(s, t, Ready) && s.phase == Idle && Enabled(Started(s, t), RootScan(t))
    ensures Do(Started(s, t), RootScan(t)) == Scanned(s, t)
    ensures Is(Scanned(s, t), t, Collecting) && Scanned(s, t).busy == s.busy && Scanned(s, t).heap.Keys == s.heap.Keys
  {
    hide Inv, Filter, Unmarked, GrayRoots;
    assert GrayRoots(s.heap).Keys == s.heap.Keys by {
      RootScanDarkens(s.heap);
    }
  }

  lemma HandOffStep<O>(s: State<O>, t: nat)
    requires Inv(s) && Enabled(s, HandOff(t))
    ensures t < |s.threads| && Do(s, HandOff(t)) == HandedOff(s, t) && Inv(HandedOff(s, t))
    ensures Enabled(HandedOff(s, t), Sweep(t)) && (forall n | n in s.list :: n in s.heap)
  {
    hide Inv;
    SweepTakesCountedBytes(s);
    HandOffPreserves(s, t);
  }

  lemma SweepStep<O>(s: State<O>, t: nat)
    requires Inv(s) && Enabled(s, HandOff(t)) && SurvivorsClosed(s.heap)
    requires Do(s, HandOff(t)) == HandedOff(s, t) && Inv(HandedOff(s, t)) && Enabled(HandedOff(s, t), Sweep(t))
    ensures var s' := Do(HandedOff(s, t), Sweep(t));
      && Inv(s') && s'.list == Filter(s.list, Survivors(s.heap))
      && s'.heap == Swept(s.heap) && s'.shared == s.shared && s'.phase == Idle && s'.busy == s.busy
      && s'.bytes == s.bytes - SumSizes(Filter(s.list, s.heap.Keys - Survivors(s.heap)), s.heap)
      && s'.bytes >= 0
  {
    hide Inv, Survivors, SurvivorsClosed, Filter;
    SweepTakesCountedBytes(s);
    SweepPreserves(HandedOff(s, t), t);
  }

  /** The end of a cycle: hand-off and sweep. */
  ghost function Finish<O>(t: nat): seq<Action<O>> {
    [HandOff(t), Sweep(t)]
  }

  lemma FinishStep<O>(s: State<O>, t: nat)
    requires Inv(s) && Enabled(s, HandOff(t)) && SurvivorsClosed(s.heap)
    ensures Runs(s, Finish(t))
    ensures var s' := Exec(s, Finish(t));
      && Inv(s') && s'.list == Filter(s.list, Survivors(s.heap))
      && s'.heap == Swept(s.heap) && s'.shared == s.shared && s'.shared == [] && s'.phase == Idle
      && s'.busy == s.busy && s'.busy == 0 && s'.bytes >= 0
      && (forall n | n in s.list :: n in s.heap)
      && s'.bytes == s.bytes - SumSizes(Filter(s.list, s.heap.Keys - Survivors(s.heap)), s.heap)
      && Is(s', t, Ready)
  {
    hide Inv, Enabled, Do, Runs, Exec, SurvivorsClosed, Survivors, Filter, SumSizes, Swept, HandedOff;
    HandOffStep(s, t);
    SweepStep(s, t);
    HandOffState(s, t);
    TwoSteps(s, HandOff(t), Sweep(t));
  }

  /** Storing Sweeping and sweeping, field by field. */
  lemma SweepFields<O>(s: State<O>, t: nat) returns (s': State<O>)
    requires Inv(s) && Is(s, t, Collecting)
    ensures SweptFrom(s, t, s')
    ensures s'.list == Filter(s.list, Survivors(s.heap)) && s'.heap == Swept(s.heap) && s'.shared == s.shared
    ensures s'.phase == Idle && s'.busy == s.busy && s'.bytes >= 0 && (forall n | n in s.list :: n in s.heap)
    ensures s'.bytes == s.bytes - SumSizes(Filter(s.list, s.heap.Keys - Survivors(s.heap)), s.heap)
    ensures Is(s', t, Ready)
    ensures Enabled(s, HandOff(t)) && SurvivorsClosed(s.heap) ==> Inv(s') && Runs(s, Finish(t)) && s' == Exec(s, Finish(t))
  {
    hide Inv, Enabled, Runs, Exec, SurvivorsClosed, Survivors, Filter, SumSizes;
    SweepTakesCountedBytes(s);
    s' := DoSweep(HandedOff(s, t), t);
    if Enabled(s, HandOff(t)) && SurvivorsClosed(s.heap) {
      FinishStep(s, t);
      FinishIsSweep(s, t, s');
    }
  }

  lemma FinishIsSweep<O>(s: State<O>, t: nat, s': State<O>)
    requires Inv(s) && Enabled(s, HandOff(t)) && SweptFrom(s, t, s') && Runs(s, Finish(t))
    ensures Exec(s, Finish(t)) == s'
  {
    hide Inv, SurvivorsClosed, Survivors, Filter, SumSizes, Runs, Exec;
    HandOffStep(s, t);
    TwoSteps(s, HandOff(t), Sweep(t));
  }

  /** Tracing after the scan leaves the byte count and the list alone. */
  lemma ScanIsDoneBy<O>(s: State<O>, t: nat, acts: seq<Action<O>>, e: State<O>)
    requires Inv(s) && Is(s, t, Ready) && s.phase == Idle
    requires Runs(Scanned(s, t), acts) && TracingOnly(acts) && e == Exec(Scanned(s, t), acts)
    ensures e.heap.Keys == s.heap.Keys && e.bytes == s.bytes
  {
    hide Inv, Scanned, Runs, Exec, TracingOnly, MarkedWithin, Queued, Live;
    ScanStartsMarking(s, t);
    TracingRunFrame(Scanned(s, t), acts);
  }

  lemma SweptShown(heap: map<Node, Object<Node>>, list: seq<Node>)
    requires (forall n | n in heap :: n in list)
    requires ShowsAll(Filter(list, Survivors(heap)), Whitened(heap)) && AllFreed(Filter(list, heap.Keys - Survivors(heap)))
    ensures Shown(Swept(heap))
    ensures forall n | n in heap && n !in Swept(heap) :: !n.alive
  {
    SweptFacts(heap);
    hide Survivors;
    forall n | n in Swept(heap) ensures Shows(n, Swept(heap)[n]) {
      assert n in Filter(list, Survivors(heap));
      assert Whitened(heap)[n] == Swept(heap)[n];
    }
  }

  ghost function LivePart<O>(h: map<O, Object<O>>): map<O, Object<O>> {
    map o | o in h && o in Live(h) :: h[o]
  }

  /** The actions of a whole cycle of thread `t` around its tracing steps. */
  ghost function Cycle<O>(t: nat, acts: seq<Action<O>>): seq<Action<O>> {
    [Start(t), RootScan(t)] + acts + Finish(t)
  }

  /** An undisturbed cycle leaves exactly the live part of the heap. */
  lemma CycleIsExact<O>(s: State<O>, t: nat, acts: seq<Action<O>>)
    requires Inv(s) && Is(s, t, Ready) && s.phase == Idle
    requires Runs(Scanned(s, t), acts) && TracingOnly(acts) && Enabled(Exec(Scanned(s, t), acts), HandOff(t))
    requires Runs(Exec(Scanned(s, t), acts), Finish(t))
    ensures var s' := Exec(Exec(Scanned(s, t), acts), Finish(t));
      && Inv(s') && s'.heap == LivePart(s.heap) && s'.list == Filter(s.list, Live(s.heap))
      && s'.shared == [] && s'.phase == Idle && s'.busy == 0 && Is(s', t, Ready)
      && (forall o | o in s'.list :: o in s'.heap)
      && s'.bytes + Uncounted(s'.threads) == SumSizes(s'.list, s'.heap) && s'.bytes >= 0
      && Runs(s, Cycle(t, acts)) && Exec(s, Cycle(t, acts)) == s'
  {
    hide Inv, Scanned, Enabled, Do, Runs, Exec, TracingOnly, Live, Filter, Survivors, SurvivorsClosed, SumSizes,
         Uncounted, LivePart, Swept,
         SameButColor, Cycle;
    var e := Exec(Scanned(s, t), acts);
    SweepAfterMarking(s, t, acts, t);
    FinishStep(e, t);
    SweptIsLive(s, t, acts);
    var s' := Exec(e, Finish(t));
    SweepTakesCountedBytes(s');
    CycleRuns(s, t, acts);
  }

  lemma HandOffState<O>(e: State<O>, t: nat)
    requires Enabled(e, HandOff(t)) && Enabled(HandedOff(e, t), Sweep(t))
    ensures e.shared == [] && e.busy == 0 && Is(Do(HandedOff(e, t), Sweep(t)), t, Ready)
  {
    hide Survivors, Filter, SumSizes;
  }

  lemma SweptIsLive<O>(s: State<O>, t: nat, acts: seq<Action<O>>)
    requires Inv(s) && Is(s, t, Ready) && s.phase == Idle
    requires Runs(Scanned(s, t), acts) && TracingOnly(acts) && Enabled(Exec(Scanned(s, t), acts), HandOff(t))
    ensures var e := Exec(Scanned(s, t), acts);
      Swept(e.heap) == LivePart(s.heap) && e.list == s.list
  {
    hide Inv, Scanned, Enabled, Runs, Exec, TracingOnly, Live, Survivors, SurvivorsClosed, MarkedWithin;
    var e := Exec(Scanned(s, t), acts);
    SweepAfterMarking(s, t, acts, t);
    IdleIsWhite(s, s.heap.Keys);
    ScanStartsMarking(s, t);
    TracingRun(Scanned(s, t), acts, Live(s.heap));
    SweptFacts(e.heap);
    LiveIsListed(s);
    SweptIsLivePart(s.heap, e.heap);
  }

  lemma SweptIsLivePart<O>(h: map<O, Object<O>>, h': map<O, Object<O>>)
    requires SameButColor(h, h') && AllWhite(h, h.Keys) && Survivors(h') == Live(h)
    ensures Swept(h') == LivePart(h)
  {
    SweptFacts(h');
    hide Survivors, Live;
    assert Swept(h').Keys == LivePart(h).Keys;
  }

  lemma CycleRuns<O>(s: State<O>, t: nat, acts: seq<Action<O>>)
    requires Is(s, t, Ready) && s.phase == Idle && Inv(s)
    requires Runs(Scanned(s, t), acts) && Enabled(Exec(Scanned(s, t), acts), HandOff(t))
    requires Runs(Exec(Scanned(s, t), acts), Finish(t))
    ensures Runs(s, Cycle(t, acts))
    ensures Exec(s, Cycle(t, acts)) == Exec(Exec(Scanned(s, t), acts), Finish(t))
  {
    SweepTakesCountedBytes(s);
    ScannedInTwoSteps(s, t);
    hide Inv, Scanned, Enabled, Do;
    var first: seq<Action<O>> := [Start(t), RootScan(t)];
    TwoSteps(s, Start(t), RootScan(t));
    RunsConcat(s, first, acts);
    RunsConcat(s, first + acts, Finish(t));
  }

  lemma TwoSteps<O>(s: State<O>, a: Action<O>, b: Action<O>)
    requires Enabled(s, a) && Enabled(Do(s, a), b)
    ensures Runs(s, [a, b]) && Exec(s, [a, b]) == Do(Do(s, a), b)
  {
    hide Enabled, Do;
    assert [a, b][1..] == [b];
    assert [b][1..] == [];
    var s2 := Do(Do(s, a), b);
    assert Runs(s2, []);
    assert Runs(Do(s, a), [b]) && Exec(Do(s, a), [b]) == s2;
  }

  // ----- Steps of a mutator -----

  ghost function AssistEntry<O>(t: nat): seq<Action<O>> {
    [AssistEnter(t), AssistCheck(t)]
  }

  lemma EntryIsTracing<O>(t: nat)
    ensures TracingOnly(AssistEntry<O>(t)) && Blackenings(AssistEntry<O>(t)) == 0
  {
    var acts := AssistEntry<O>(t);
    assert acts[1..] == [AssistCheck(t)] && acts[1..][1..] == [];
    assert Blackenings(acts[1..]) == 0;
  }

  lemma AssistOpens<O>(s: State<O>, t: nat)
    requires Inv(s) && Is(s, t, Ready) && s.phase != Sweeping
    ensures Runs(s, AssistEntry(t))
    ensures var s' := Exec(s, AssistEntry(t));
      && Inv(s') && s'.heap == s.heap && s'.list == s.list && s'.shared == s.shared && s'.phase == s.phase && s'.bytes == s.bytes
      && s'.busy == s.busy + (if s.phase == Marking then 1 else 0)
      && (s.phase == Marking ==> Is(s', t, Assisting) && Resting(s', t))
      && (s.phase != Marking ==> Is(s', t, Ready))
  {
    hide Inv, Runs, Exec;
    ReadyRests(s, t);
    AssistEnterPreserves(s, t);
    AssistCheckPreserves(Do(s, AssistEnter(t)), t);
    TwoSteps(s, AssistEnter(t), AssistCheck(t));
  }

  /** A thread that is not collecting does not become a collector by tracing. */
  lemma {:induction false} AssistingStays<O>(s: State<O>, acts: seq<Action<O>>, t: nat)
    requires Runs(s, acts) && TracingOnly(acts) && t < |s.threads| && !IsCollector(s.threads[t].pc)
    ensures var e := Exec(s, acts); t < |e.threads| && !IsCollector(e.threads[t].pc)
    decreases |acts|
  {
    hide Enabled, Do, IsTracing;
    if acts != [] {
      assert acts[0] in acts;
      assert forall a | a in acts[1..] :: a in acts;
      AssistingStep(s, acts[0], t);
      AssistingStays(Do(s, acts[0]), acts[1..], t);
    }
  }

  lemma AssistingStep<O>(s: State<O>, a: Action<O>, t: nat)
    requires Enabled(s, a) && IsTracing(a) && t < |s.threads| && !IsCollector(s.threads[t].pc)
    ensures t < |Do(s, a).threads| && !IsCollector(Do(s, a).threads[t].pc)
  {
    hide Enabled, Do, IsCollector;
    TracingPcs(s, a, t);
  }

  lemma AssistCloses<O>(s: State<O>, acts: seq<Action<O>>, m: State<O>, more: seq<Action<O>>, t: nat)
    requires Runs(s, acts) && Exec(s, acts) == m && TracingOnly(acts) && Blackenings(acts) == 0
    requires Is(m, t, Assisting) && Runs(m, more) && TracingOnly(more)
    requires Inv(Exec(m, more)) && Tracing(Exec(m, more), t) && Resting(Exec(m, more), t)
    ensures var e := Exec(m, more);
      && Is(e, t, Assisting) && Enabled(e, AssistLeave(t)) && Inv(Do(e, AssistLeave(t)))
      && Do(e, AssistLeave(t)) == WithPc(e, t, Ready).(busy := e.busy - 1)
      && Runs(s, acts + more + [AssistLeave(t)]) && Exec(s, acts + more + [AssistLeave(t)]) == Do(e, AssistLeave(t))
      && TracingOnly(acts + more + [AssistLeave(t)]) && Blackenings(acts + more + [AssistLeave(t)]) == Blackenings(more)
  {
    hide Inv, Runs, Exec;
    AssistingStays(m, more, t);
    var e := Exec(m, more);
    AssistLeavePreserves(e, t);
    hide Enabled, Do;
    RunsConcat(s, acts, more);
    RunsSnoc(s, acts + more, AssistLeave(t));
    BlackeningsConcat(acts, more);
    BlackeningsSnoc(acts + more, AssistLeave(t));
  }

  lemma Pushed(n: Node, next: Node?, list: seq<Node>)
    requires n.next == next && Linked(next, list, null)
    ensures Linked(n, [n] + list, null)
  {
    var all := [n] + list;
    forall i | 0 <= i < |all| ensures all[i].next == After(all, i, null) {
      if i > 0 {
        assert list[i - 1].next == After(list, i - 1, null);
      }
    }
  }

  lemma LinkedShown(heap: map<Node, Object<Node>>, n: Node, obj: Object<Node>)
    requires Shown(heap) && Shows(n, obj)
    ensures Shown(heap[n := obj])
  {
  }

  lemma LinkThenCount<O>(s: State<O>, t: nat, o: O, leaf: bool, size: nat, fields: seq<Option<O>>)
    requires Inv(s) && Is(s, t, Ready) && s.phase != Sweeping && o !in s.ever
    requires Listed(s.heap, fields) && (leaf ==> fields == [])
    ensures Enabled(s, Link(t, o, leaf, size, fields)) && Enabled(Do(s, Link(t, o, leaf, size, fields)), Count(t))
    ensures var s' := Do(Do(s, Link(t, o, leaf, size, fields)), Count(t));
      && Inv(s') && s'.heap == s.heap[o := Object(White, 1, leaf, size, fields)] && s'.list == [o] + s.list
      && s'.shared == s.shared && s'.phase == s.phase && s'.busy == s.busy && s'.bytes == s.bytes + size
      && Is(s', t, Ready)
  {
    hide Inv, Listed;
    LinkPreserves(s, t, o, Object(White, 1, leaf, size, fields));
    CountPreserves(Do(s, Link(t, o, leaf, size, fields)), t);
  }

  lemma LinkAndCount<O>(s: State<O>, assist: seq<Action<O>>, t: nat, o: O, leaf: bool, size: nat, fields: seq<Option<O>>)
    requires Runs(s, assist) && TracingOnly(assist)
    requires var m := Exec(s, assist); Inv(m) && Is(m, t, Ready) && m.phase != Sweeping && o !in m.ever
    requires Listed(s.heap, fields) && (leaf ==> fields == [])
    ensures var acts := assist + [Link(t, o, leaf, size, fields), Count(t)];
      Runs(s, acts) &&
      var m, e := Exec(s, assist), Exec(s, acts);
      && Inv(e) && e.heap == m.heap[o := Object(White, 1, leaf, size, fields)] && e.list == [o] + m.list
      && e.shared == m.shared && e.phase == m.phase && e.busy == m.busy && e.bytes == m.bytes + size
      && Is(e, t, Ready) && m.heap.Keys == s.heap.Keys && m.list == s.list && m.bytes == s.bytes && o !in m.list && o !in m.heap
  {
    hide Inv, Enabled, Do, Runs, Exec, TracingOnly;
    TracingRunFrame(s, assist);
    var m := Exec(s, assist);
    LinkThenCount(m, t, o, leaf, size, fields);
    NewIsUnlisted(m, o);
    TwoSteps(m, Link(t, o, leaf, size, fields), Count(t));
    RunsConcat(s, assist, [Link(t, o, leaf, size, fields), Count(t)]);
  }

  lemma NewIsUnlisted<O>(s: State<O>, o: O)
    requires Inv(s) && o !in s.ever
    ensures o !in s.list && o !in s.heap
  {
  }

  // ----- Steps of a store -----

  lemma PendingIsListed<O>(s: State<O>, t: nat, o: O, at: nat, vals: seq<Option<O>>, i: nat)
    requires Inv(s) && Is(s, t, SetShading(o, at, vals, i)) && i < |vals|
    ensures vals[i].Some? ==> vals[i].value in s.heap
  {
    hide Inv;
    ThreadFacts(s, t);
  }

  lemma SetShadeStep<O>(s: State<O>, t: nat, o: O, at: nat, vals: seq<Option<O>>, i: nat)
    requires Inv(s) && Is(s, t, SetShading(o, at, vals, i)) && i < |vals|
    ensures Enabled(s, SetShade(t)) && Inv(Do(s, SetShade(t)))
  {
    hide Inv, Shade;
    SetShadePreserves(s, t);
  }

  lemma SetShadeFields<O>(s: State<O>, t: nat, o: O, at: nat, vals: seq<Option<O>>, i: nat)
    requires Is(s, t, SetShading(o, at, vals, i)) && i < |vals|
    ensures Enabled(s, SetShade(t)) && t < |Shade(s, t, vals[i]).threads|
    ensures Do(s, SetShade(t)) == WithPc(Shade(s, t, vals[i]), t, SetShading(o, at, vals, i + 1))
  {
  }

  lemma Recoloured<O>(h: map<O, Object<O>>, m: map<O, Object<O>>, e: map<O, Object<O>>)
    ensures SameButColor(h, h)
    ensures SameButColor(h, m) && SameButColor(m, e) ==> SameButColor(h, e) && e.Keys == h.Keys
  {
  }

  lemma SetMergeStep<O>(s: State<O>, t: nat, o: O, at: nat, vals: seq<Option<O>>)
    requires Inv(s) && Is(s, t, SetShading(o, at, vals, |vals|))
    ensures Enabled(s, SetMerge(t)) && Inv(Do(s, SetMerge(t)))
    ensures var s' := Do(s, SetMerge(t));
      && s'.heap == s.heap && s'.list == s.list && s'.shared == s.shared + s.threads[t].local && s'.phase == s.phase
      && s'.bytes == s.bytes && s'.busy == s.busy && Is(s', t, SetMerged(o, at, vals)) && s'.threads[t].local == []
  {
    hide Inv;
    SetMergePreserves(s, t);
  }

  ghost function SetEntry<O>(t: nat, o: O, at: nat, vals: seq<Option<O>>): seq<Action<O>> {
    [SetEnter(t, o, at, vals), SetCheck(t)]
  }

  lemma SetOpens<O>(s: State<O>, t: nat, o: O, at: nat, vals: seq<Option<O>>)
    requires Inv(s) && Is(s, t, Ready) && s.phase != Sweeping && CanStore(s.heap, o, at, vals) && Listed(s.heap, vals)
    ensures Runs(s, SetEntry(t, o, at, vals))
    ensures var s' := Exec(s, SetEntry(t, o, at, vals));
      && Inv(s') && s'.list == s.list && s'.shared == s.shared && s'.phase == s.phase && s'.bytes == s.bytes
      && |s'.threads| == |s.threads| && s'.threads[t].local == s.threads[t].local
      && (s.phase == Marking ==> s'.heap == s.heap && s'.busy == s.busy + 1 && Is(s', t, SetShading(o, at, vals, 0)))
      && (s.phase != Marking ==> s'.heap == Store(s.heap, o, at, vals) && s'.busy == s.busy && Is(s', t, Ready))
  {
    hide Inv, Runs, Exec, Store, Listed;
    SetEnterPreserves(s, t, o, at, vals);
    SetCheckPreserves(Do(s, SetEnter(t, o, at, vals)), t);
    TwoSteps(s, SetEnter(t, o, at, vals), SetCheck(t));
  }

  lemma SetCloses<O>(s: State<O>, acts: seq<Action<O>>, m: State<O>, more: seq<Action<O>>, t: nat, o: O, at: nat, vals: seq<Option<O>>)
    requires Runs(s, acts) && Exec(s, acts) == m && Runs(m, more)
    requires Inv(Exec(m, more)) && Is(Exec(m, more), t, SetMerged(o, at, vals))
    ensures Runs(s, acts + more + [SetLeave(t)])
    ensures var e, s' := Exec(m, more), Exec(s, acts + more + [SetLeave(t)]);
      && Inv(s') && CanStore(e.heap, o, at, vals) && s'.heap == Store(e.heap, o, at, vals) && s'.busy == e.busy - 1
      && s'.list == e.list && s'.shared == e.shared && s'.phase == e.phase && s'.bytes == e.bytes
      && |s'.threads| == |e.threads| && s'.threads[t].local == e.threads[t].local && Is(s', t, Ready)
      && Shaded(s'.heap, vals)
  {
    hide Inv, Runs, Exec;
    var e := Exec(m, more);
    SetLeaveStep(e, t, o, at, vals);
    hide Enabled, Do, Store, Shaded;
    RunsConcat(s, acts, more);
    RunsSnoc(s, acts + more, SetLeave(t));
  }

  lemma SetLeaveStep<O>(e: State<O>, t: nat, o: O, at: nat, vals: seq<Option<O>>)
    requires Inv(e) && Is(e, t, SetMerged(o, at, vals))
    ensures CanStore(e.heap, o, at, vals) && Enabled(e, SetLeave(t))
    ensures var s' := Do(e, SetLeave(t));
      && Inv(s') && s'.heap == Store(e.heap, o, at, vals) && s'.busy == e.busy - 1
      && s'.list == e.list && s'.shared == e.shared && s'.phase == e.phase && s'.bytes == e.bytes
      && |s'.threads| == |e.threads| && s'.threads[t].local == e.threads[t].local && Is(s', t, Ready)
      && Shaded(s'.heap, vals)
  {
    hide Inv, Shaded, Store;
    MergedIsShaded(e, t, o, at, vals);
    SetLeavePreserves(e, t);
    StoreKeepsShaded(e.heap, o, at, vals);
  }

  lemma MergedIsShaded<O>(e: State<O>, t: nat, o: O, at: nat, vals: seq<Option<O>>)
    requires Inv(e) && Is(e, t, SetMerged(o, at, vals))
    ensures CanStore(e.heap, o, at, vals) && Shaded(e.heap, vals)
  {
    hide Inv;
    ThreadFacts(e, t);
  }

  lemma StoreKeepsShaded<O>(h: map<O, Object<O>>, o: O, at: nat, vals: seq<Option<O>>)
    requires CanStore(h, o, at, vals) && Shaded(h, vals)
    ensures Shaded(Store(h, o, at, vals), vals)
  {
  }

  lemma ShownButOne(heap: map<Node, Object<Node>>, n: Node)
    requires Shown(heap)
    ensures ShownBut(heap, n)
  {
  }

  lemma RootShown(heap: map<Node, Object<Node>>, n: Node, d: int)
    requires n in heap && Shows(n, heap[n].(roots := heap[n].roots + d))
    requires ShownBut(heap, n)
    ensures Shown(heap[n := heap[n].(roots := heap[n].roots + d)])
  {
  }
}
