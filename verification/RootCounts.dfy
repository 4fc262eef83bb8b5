/** Root counts, counted from the actions of a run alone. */
module RootCounts {
  import opened Protocol

  /** What one action adds to the root count of `o`: one for each GcRoot made, less one for each dropped. */
  ghost function RootChange<O>(a: Action<O>, o: O): int {
    match a
    case Root(x) => if x == o then 1 else 0
    case Clone(x) => if x == o then 1 else 0
    case Drop(x) => if x == o then -1 else 0
    case _ => 0
  }

  ghost function RootChanges<O>(acts: seq<Action<O>>, o: O): int {
    if acts == [] then 0 else RootChange(acts[0], o) + RootChanges(acts[1..], o)
  }

  ghost function LinkedBy<O>(a: Action<O>): set<O> {
    if a.Link? then {a.o} else {}
  }
}

module RootCountProofs {
  import opened Protocol
  import opened Invariant
  import opened RunSafety
  import opened Promptness
  import opened RootCounts

  /** What one action does to the heap's domain and to root counts. */
  ghost predicate CountsKept<O>(s: State<O>, a: Action<O>, s': State<O>) {
    && s'.ever == s.ever + LinkedBy(a)
    && s'.heap.Keys <= s.heap.Keys + LinkedBy(a)
    && (forall o | o in s'.heap && o !in LinkedBy(a) :: o in s.heap && s'.heap[o].roots == s.heap[o].roots + RootChange(a, o))
    && (forall o | o in LinkedBy(a) :: o !in s.ever && o in s'.heap && s'.heap[o].roots == 1)
  }

  lemma ViewKeepsCounts<O>(s: State<O>, a: Action<O>, s': State<O>)
    requires SameMutatorView(s, s') && !IsMutation(a)
    ensures CountsKept(s, a, s')
  {
  }

  lemma SetKeepsCounts<O>(s: State<O>, a: Action<O>)
    requires Enabled(s, a) && (a.SetEnter? || a.SetCheck? || a.SetLeave?)
    ensures CountsKept(s, a, Do(s, a))
  {
    hide Listed;
  }

  lemma LinkKeepsCounts<O>(s: State<O>, a: Action<O>)
    requires Enabled(s, a) && a.Link?
    ensures CountsKept(s, a, Do(s, a))
  {
    hide Listed;
  }

  lemma HandleCounts<O>(s: State<O>, a: Action<O>)
    requires Enabled(s, a) && (a.Root? || a.Clone? || a.Drop?)
    ensures CountsKept(s, a, Do(s, a))
  {
  }

  lemma StepCounts<O>(s: State<O>, a: Action<O>)
    requires Enabled(s, a)
    ensures CountsKept(s, a, Do(s, a))
  {
    hide Enabled, Do, CountsKept, SameMutatorView;
    if a.SetEnter? || a.SetCheck? || a.SetLeave? {
      SetKeepsCounts(s, a);
    } else if a.Link? {
      LinkKeepsCounts(s, a);
    } else if a.Root? || a.Clone? || a.Drop? {
      HandleCounts(s, a);
    } else {
      if a.ScanField? || a.SetShade? {
        ShadingView(s, a);
      } else if a.Steal? || a.Pop? || a.Merge? || a.AssistEnter? || a.AssistCheck? || a.AssistLeave? || a.SetMerge? {
        WorkView(s, a);
      } else {
        CollectorView(s, a);
      }
      ViewKeepsCounts(s, a, Do(s, a));
    }
  }

  /** An identity that has been used up does not come back. */
  lemma {:induction false} FreedStaysFreed<O>(s: State<O>, acts: seq<Action<O>>, o: O)
    requires Runs(s, acts) && o in s.ever && o !in s.heap
    ensures o !in Exec(s, acts).heap
    decreases |acts|
  {
    hide Enabled, Do;
    if acts != [] {
      StepCounts(s, acts[0]);
      FreedStaysFreed(Do(s, acts[0]), acts[1..], o);
    }
  }

  /**
   * Over any run the root count of an object still listed at its end is the count it started with, one if it was linked
   * in the run, plus the number of its `root` and `clone` calls, less the number of drops.
   */
  lemma {:induction false} RootCountsByActions<O>(s: State<O>, acts: seq<Action<O>>, o: O)
    requires s.heap.Keys <= s.ever && Runs(s, acts) && o in Exec(s, acts).heap
    ensures Exec(s, acts).heap[o].roots == (if o in s.heap then s.heap[o].roots else 1) + RootChanges(acts, o)
    decreases |acts|
  {
    hide Enabled, Do, RootChange;
    if acts != [] {
      var s1 := Do(s, acts[0]);
      StepCounts(s, acts[0]);
      RootCountsByActions(s1, acts[1..], o);
      if o in s.heap && o !in s1.heap {
        FreedStaysFreed(s1, acts[1..], o);
      }
      if o !in s.heap {
        NotRootedBefore(s, acts[0], o);
      } else {
        assert o !in LinkedBy(acts[0]);
      }
      LinkChangesNothing(acts[0], o);
    }
  }

  lemma NotRootedBefore<O>(s: State<O>, a: Action<O>, o: O)
    requires Enabled(s, a) && o !in s.heap
    ensures RootChange(a, o) == 0
  {
    hide Listed;
  }

  lemma LinkChangesNothing<O>(a: Action<O>, o: O)
    ensures a.Link? ==> RootChange(a, o) == 0
  {
  }

  /** So the handles that are out at the end of a safe run can be counted from its actions. */
  lemma HandlesByActions<O>(s: State<O>, acts: seq<Action<O>>, o: O)
    requires Inv(s) && SafeRun(s, acts) && Runs(s, acts) && o in Exec(s, acts).heap
    requires var e := Exec(s, acts);
      forall t | 0 <= t < |e.threads| :: !(e.threads[t].pc.Counting? && e.threads[t].pc.o == o)
    ensures Exec(s, acts).handles[o] == (if o in s.heap then s.heap[o].roots else 1) + RootChanges(acts, o)
  {
    hide Inv, SafeRun, Runs, Exec, RootChanges;
    EverListed(s);
    HandlesAreRootCounts(s, acts, o);
    RootCountsByActions(s, acts, o);
  }
}
