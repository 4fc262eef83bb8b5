/**
 * Lock-free allocation: any number of threads push onto the intrusive list with a load, a store of
 * `next` and a compare-exchange, while others walk it. No sweep is running.
 */
module AllocList {
  import opened Protocol
  import opened Invariant

  /**
   * Where a pushing thread is. `asOf` records the list at the time of its load of the head, which the
   * thread itself knows only by the pointer `seen`.
   */
  datatype Push<N> =
    | Resting
    | Begun(n: N)
    | Loaded(n: N, seen: Option<N>, asOf: seq<N>)
    | Stored(n: N, seen: Option<N>, asOf: seq<N>)

  /** A walk of the list; `asOf` records the list at the time of its load of the head. */
  datatype Walk<N> = Walk(cursor: Option<N>, visited: seq<N>, asOf: seq<N>)

  /** `pushed` records the completed allocations, newest first, and `used` every node ever begun. */
  datatype List<N> = List(
    head: Option<N>,
    next: map<N, Option<N>>,
    pushers: seq<Push<N>>,
    walks: seq<Walk<N>>,
    pushed: seq<N>,
    used: set<N>)

  datatype Step<N> =
    | Begin(t: nat, n: N)
    | Load(t: nat)
    | StoreNext(t: nat)
    | CompareExchange(t: nat)
    | StartWalk(w: nat)
    | Visit(w: nat)

  ghost function Front<N>(list: seq<N>): Option<N> {
    if list == [] then None else Some(list[0])
  }

  ghost predicate CanStep<N>(s: List<N>, a: Step<N>) {
    match a
    case Begin(t, n) => t < |s.pushers| && s.pushers[t].Resting? && n !in s.used
    case Load(t) => t < |s.pushers| && s.pushers[t].Begun?
    case StoreNext(t) => t < |s.pushers| && s.pushers[t].Loaded?
    case CompareExchange(t) => t < |s.pushers| && s.pushers[t].Stored?
    case StartWalk(w) => w < |s.walks|
    case Visit(w) => w < |s.walks| && s.walks[w].cursor.Some? && s.walks[w].cursor.value in s.next
  }

  ghost function WithPusher<N>(s: List<N>, t: nat, p: Push<N>): List<N>
    requires t < |s.pushers|
  {
    s.(pushers := s.pushers[t := p])
  }

  /** The compare-exchange succeeds when the head is the pointer seen, and otherwise starts over. */
  ghost function DoCompareExchange<N>(s: List<N>, t: nat): List<N>
    requires t < |s.pushers| && s.pushers[t].Stored?
  {
    var p := s.pushers[t];
    if s.head == p.seen
    then WithPusher(s, t, Resting).(head := Some(p.n), pushed := [p.n] + s.pushed)
    else WithPusher(s, t, Begun(p.n))
  }

  ghost function DoVisit<N>(s: List<N>, w: nat): List<N>
    requires w < |s.walks| && s.walks[w].cursor.Some? && s.walks[w].cursor.value in s.next
  {
    var n := s.walks[w].cursor.value;
    s.(walks := s.walks[w := Walk(s.next[n], s.walks[w].visited + [n], s.walks[w].asOf)])
  }

  ghost function After<N>(s: List<N>, a: Step<N>): List<N>
    requires CanStep(s, a)
  {
    match a
    case Begin(t, n) => WithPusher(s, t, Begun(n)).(used := s.used + {n})
    case Load(t) => WithPusher(s, t, Loaded(s.pushers[t].n, s.head, s.pushed))
    case StoreNext(t) =>
      var p := s.pushers[t];
      WithPusher(s, t, Stored(p.n, p.seen, p.asOf)).(next := s.next[p.n := p.seen])
    case CompareExchange(t) => DoCompareExchange(s, t)
    case StartWalk(w) => s.(walks := s.walks[w := Walk(s.head, [], s.pushed)])
    case Visit(w) => DoVisit(s, w)
  }

  ghost predicate IsRun<N>(s: List<N>, steps: seq<Step<N>>)
    decreases |steps|
  {
    steps != [] ==> CanStep(s, steps[0]) && IsRun(After(s, steps[0]), steps[1..])
  }

  ghost function End<N>(s: List<N>, steps: seq<Step<N>>): List<N>
    requires IsRun(s, steps)
    decreases |steps|
  {
    if steps == [] then s else End(After(s, steps[0]), steps[1..])
  }

  ghost function Nothing<N>(pushers: nat, walkers: nat): List<N> {
    List(None, map[], seq(pushers, i => Resting), seq(walkers, i => Walk(None, [], [])), [], {})
  }

  // ----- The invariant -----

  /** What the element at `i` of a list is followed by. */
  ghost function Following<N>(list: seq<N>, i: nat): Option<N>
    requires i < |list|
  {
    Front(list[i + 1..])
  }

  /** Head and `next` cells spell out exactly `list`, and end. */
  ghost predicate Spells<N>(head: Option<N>, next: map<N, Option<N>>, list: seq<N>) {
    && head == Front(list)
    && forall i | 0 <= i < |list| :: list[i] in next && next[list[i]] == Following(list, i)
  }

  ghost predicate IsSuffix<N>(part: seq<N>, list: seq<N>) {
    |part| <= |list| && part == list[|list| - |part|..]
  }

  ghost predicate PusherOk<N>(p: Push<N>, next: map<N, Option<N>>, pushed: seq<N>, used: set<N>) {
    p.Resting? || (
      && p.n in used && p.n !in pushed
      && (!p.Begun? ==> p.seen == Front(p.asOf) && IsSuffix(p.asOf, pushed))
      && (p.Stored? ==> p.n in next && next[p.n] == p.seen))
  }

  ghost predicate Apart<N>(pushers: seq<Push<N>>) {
    forall i, j | 0 <= i < j < |pushers| && !pushers[i].Resting? && !pushers[j].Resting? :: pushers[i].n != pushers[j].n
  }

  ghost predicate WalkOk<N>(w: Walk<N>, pushed: seq<N>) {
    && IsSuffix(w.asOf, pushed) && |w.visited| <= |w.asOf|
    && w.visited == w.asOf[..|w.visited|] && w.cursor == Front(w.asOf[|w.visited|..])
  }

  ghost predicate ListOk<N>(s: List<N>) {
    && Spells(s.head, s.next, s.pushed) && NoDuplicates(s.pushed)
    && (forall n | n in s.pushed :: n in s.used)
    && (forall t | 0 <= t < |s.pushers| :: PusherOk(s.pushers[t], s.next, s.pushed, s.used))
    && Apart(s.pushers)
    && (forall w | 0 <= w < |s.walks| :: WalkOk(s.walks[w], s.pushed))
  }
}

/** Proofs about concurrent allocation. */
module AllocListProofs {
  import opened Protocol
  import opened Invariant
  import opened AllocList

  lemma NothingIsOk<N>(pushers: nat, walkers: nat)
    ensures ListOk(Nothing<N>(pushers, walkers))
  {
  }

  lemma Grown<N>(part: seq<N>, list: seq<N>, n: N)
    requires IsSuffix(part, list)
    ensures IsSuffix(part, [n] + list)
  {
  }

  lemma WholeIsSuffix<N>(list: seq<N>)
    ensures IsSuffix(list, list)
  {
  }

  lemma NewFront<N>(head: Option<N>, next: map<N, Option<N>>, list: seq<N>, n: N)
    requires Spells(head, next, list) && n in next && next[n] == head
    ensures Spells(Some(n), next, [n] + list)
  {
    var all := [n] + list;
    forall i | 0 <= i < |all| ensures all[i] in next && next[all[i]] == Following(all, i) {
      if i == 0 {
        assert all[1..] == list;
      } else {
        assert all[i + 1..] == list[i..];
        assert next[list[i - 1]] == Following(list, i - 1);
      }
    }
  }

  /** A compare-exchange succeeds exactly when no allocation has been completed since the load. */
  lemma SwapSucceedsIff<N>(s: List<N>, t: nat)
    requires ListOk(s) && t < |s.pushers| && s.pushers[t].Stored?
    ensures s.head == s.pushers[t].seen <==> s.pushed == s.pushers[t].asOf
    ensures s.head != s.pushers[t].seen ==> |s.pushed| > |s.pushers[t].asOf|
  {
    var p := s.pushers[t];
    assert PusherOk(p, s.next, s.pushed, s.used);
    var skip := |s.pushed| - |p.asOf|;
    if skip == 0 {
      assert p.asOf == s.pushed;
    } else {
      assert p.asOf != [] ==> s.pushed[skip] == p.asOf[0];
    }
  }

  lemma CompareExchangeOk<N>(s: List<N>, t: nat)
    requires ListOk(s) && t < |s.pushers| && s.pushers[t].Stored?
    ensures ListOk(DoCompareExchange(s, t))
  {
    var p := s.pushers[t];
    var s' := DoCompareExchange(s, t);
    assert PusherOk(p, s.next, s.pushed, s.used);
    if s.head == p.seen {
      NewFront(s.head, s.next, s.pushed, p.n);
      forall u | 0 <= u < |s'.pushers| ensures PusherOk(s'.pushers[u], s'.next, s'.pushed, s'.used) {
        var q := s'.pushers[u];
        if u != t && !q.Resting? {
          assert PusherOk(s.pushers[u], s.next, s.pushed, s.used);
          assert q.n != p.n;
          if !q.Begun? {
            Grown(q.asOf, s.pushed, p.n);
          }
        }
      }
      forall w | 0 <= w < |s'.walks| ensures WalkOk(s'.walks[w], s'.pushed) {
        assert WalkOk(s.walks[w], s.pushed);
        Grown(s.walks[w].asOf, s.pushed, p.n);
      }
    }
  }

  lemma StepAlong<N>(next: map<N, Option<N>>, walk: Walk<N>, pushed: seq<N>)
    requires Spells(Front(pushed), next, pushed) && WalkOk(walk, pushed) && walk.cursor.Some?
    ensures walk.cursor.value in next
    ensures WalkOk(Walk(next[walk.cursor.value], walk.visited + [walk.cursor.value], walk.asOf), pushed)
  {
    var k, skip := |walk.visited|, |pushed| - |walk.asOf|;
    assert walk.asOf[k..] != [] && walk.asOf[k] == walk.cursor.value;
    assert pushed[skip + k] == walk.asOf[k];
    assert next[pushed[skip + k]] == Following(pushed, skip + k);
    assert pushed[skip + k + 1..] == walk.asOf[k + 1..];
    assert walk.asOf[..k + 1] == walk.visited + [walk.asOf[k]];
  }

  lemma VisitOk<N>(s: List<N>, w: nat)
    requires ListOk(s) && CanStep(s, Visit(w))
    ensures ListOk(DoVisit(s, w))
  {
    hide WalkOk, Spells, PusherOk, Apart, NoDuplicates;
    HeadIsFront(s);
    assert WalkOk(s.walks[w], s.pushed);
    StepAlong(s.next, s.walks[w], s.pushed);
  }

  lemma HeadIsFront<N>(s: List<N>)
    requires ListOk(s)
    ensures s.head == Front(s.pushed) && Spells(s.head, s.next, s.pushed)
  {
  }

  lemma StoreNextOk<N>(s: List<N>, t: nat)
    requires ListOk(s) && CanStep(s, StoreNext(t))
    ensures ListOk(After(s, StoreNext(t)))
  {
    var p := s.pushers[t];
    assert PusherOk(p, s.next, s.pushed, s.used);
    var s' := After(s, StoreNext(t));
    forall u | 0 <= u < |s'.pushers| ensures PusherOk(s'.pushers[u], s'.next, s'.pushed, s'.used) {
      assert PusherOk(s.pushers[u], s.next, s.pushed, s.used);
    }
    forall i | 0 <= i < |s.pushed| ensures s.pushed[i] in s'.next && s'.next[s.pushed[i]] == Following(s.pushed, i) {
      assert s.pushed[i] != p.n;
    }
  }

  /** Every step keeps the list well formed, whatever the other threads are in the middle of. */
  lemma StepOk<N>(s: List<N>, a: Step<N>)
    requires ListOk(s) && CanStep(s, a)
    ensures ListOk(After(s, a))
  {
    match a
    case StoreNext(t) => StoreNextOk(s, t);
    case CompareExchange(t) => CompareExchangeOk(s, t);
    case Visit(w) => VisitOk(s, w);
    case Begin(t, n) =>
      var s' := After(s, a);
      forall u | 0 <= u < |s'.pushers| ensures PusherOk(s'.pushers[u], s'.next, s'.pushed, s'.used) {
        assert PusherOk(s.pushers[u], s.next, s.pushed, s.used);
      }
    case Load(t) =>
      WholeIsSuffix(s.pushed);
      assert PusherOk(s.pushers[t], s.next, s.pushed, s.used);
    case StartWalk(w) => WholeIsSuffix(s.pushed);
  }

  /** A step completes at most one allocation, at the front; everything else leaves the list as it was. */
  lemma StepGrows<N>(s: List<N>, a: Step<N>)
    requires CanStep(s, a)
    ensures After(s, a).pushed == s.pushed ||
      (a.CompareExchange? && After(s, a).pushed == [s.pushers[a.t].n] + s.pushed && After(s, a).pushers[a.t] == Resting)
  {
  }

  lemma {:induction false} RunOk<N>(s: List<N>, steps: seq<Step<N>>)
    requires ListOk(s) && IsRun(s, steps)
    ensures ListOk(End(s, steps)) && IsSuffix(s.pushed, End(s, steps).pushed)
    decreases |steps|
  {
    hide ListOk, CanStep, After;
    if steps == [] {
      WholeIsSuffix(s.pushed);
    } else {
      StepOk(s, steps[0]);
      StepGrows(s, steps[0]);
      RunOk(After(s, steps[0]), steps[1..]);
    }
  }

  // ----- What the list is after any run -----

  /** The cell reached from `from` by `k` steps along `next`. */
  ghost function Follow<N>(next: map<N, Option<N>>, from: Option<N>, k: nat): Option<N>
    decreases k
  {
    if k == 0 || from.None? then from
    else if from.value !in next then None
    else Follow(next, next[from.value], k - 1)
  }

  lemma {:induction false} FollowSpells<N>(next: map<N, Option<N>>, list: seq<N>, k: nat)
    requires Spells(Front(list), next, list) && k <= |list|
    ensures Follow(next, Front(list), k) == Front(list[k..])
  {
    if k > 0 {
      var tail := list[1..];
      assert next[list[0]] == Following(list, 0);
      forall i | 0 <= i < |tail| ensures tail[i] in next && next[tail[i]] == Following(tail, i) {
        assert next[list[i + 1]] == Following(list, i + 1);
        assert tail[i + 1..] == list[i + 2..];
      }
      FollowSpells(next, tail, k - 1);
      assert tail[k - 1..] == list[k..];
    }
  }

  /** The allocation a step completes, if any. */
  ghost function CompletedBy<N>(s: List<N>, a: Step<N>): multiset<N>
    requires CanStep(s, a)
  {
    if a.CompareExchange? && s.head == s.pushers[a.t].seen then multiset{s.pushers[a.t].n} else multiset{}
  }

  ghost function Completed<N>(s: List<N>, steps: seq<Step<N>>): multiset<N>
    requires IsRun(s, steps)
    decreases |steps|
  {
    if steps == [] then multiset{} else CompletedBy(s, steps[0]) + Completed(After(s, steps[0]), steps[1..])
  }

  lemma CompletedStep<N>(s: List<N>, a: Step<N>)
    requires CanStep(s, a)
    ensures multiset(After(s, a).pushed) == multiset(s.pushed) + CompletedBy(s, a)
  {
  }

  lemma {:induction false} CompletedAreListed<N>(s: List<N>, steps: seq<Step<N>>)
    requires IsRun(s, steps)
    ensures multiset(End(s, steps).pushed) == multiset(s.pushed) + Completed(s, steps)
    decreases |steps|
  {
    hide CanStep, After, CompletedBy;
    if steps != [] {
      CompletedStep(s, steps[0]);
      CompletedAreListed(After(s, steps[0]), steps[1..]);
    }
  }

  /**
   * However the pushes interleave, following `next` from the head visits each completed allocation exactly
   * once and then ends.
   */
  lemma ConcurrentAllocation<N>(pushers: nat, walkers: nat, steps: seq<Step<N>>)
    requires IsRun(Nothing(pushers, walkers), steps)
    ensures var s := Nothing<N>(pushers, walkers);
      var e := End(s, steps);
      && (forall k | 0 <= k < |e.pushed| :: Follow(e.next, e.head, k) == Some(e.pushed[k]))
      && Follow(e.next, e.head, |e.pushed|) == None
      && multiset(e.pushed) == Completed(s, steps)
      && (forall n | n in Completed(s, steps) :: Completed(s, steps)[n] == 1)
  {
    hide CanStep, After, IsRun;
    var s := Nothing<N>(pushers, walkers);
    NothingIsOk<N>(pushers, walkers);
    RunOk(s, steps);
    CompletedAreListed(s, steps);
    var e := End(s, steps);
    assert multiset(e.pushed) == Completed(s, steps);
    ListIsSpelt(e);
    EachOnce(e.pushed);
  }

  lemma ListIsSpelt<N>(e: List<N>)
    requires ListOk(e)
    ensures forall k | 0 <= k < |e.pushed| :: Follow(e.next, e.head, k) == Some(e.pushed[k])
    ensures Follow(e.next, e.head, |e.pushed|) == None && NoDuplicates(e.pushed)
  {
    HeadIsFront(e);
    forall k | 0 <= k <= |e.pushed| ensures Follow(e.next, e.head, k) == Front(e.pushed[k..]) {
      FollowSpells(e.next, e.pushed, k);
    }
  }

  lemma {:induction false} EachOnce<N>(list: seq<N>)
    requires NoDuplicates(list)
    ensures forall n | n in multiset(list) :: multiset(list)[n] == 1
  {
    if list != [] {
      var tail := list[1..];
      assert forall i | 0 <= i < |tail| :: tail[i] == list[i + 1];
      EachOnce(tail);
      assert list == [list[0]] + tail;
      assert list[0] !in tail;
    }
  }

  // ----- What a walk sees -----

  ghost predicate LeavesWalk<N>(steps: seq<Step<N>>, w: nat) {
    forall a | a in steps :: a != StartWalk(w)
  }

  lemma {:induction false} WalkKeepsSnapshot<N>(s: List<N>, steps: seq<Step<N>>, w: nat)
    requires w < |s.walks| && IsRun(s, steps) && LeavesWalk(steps, w)
    ensures w < |End(s, steps).walks| && End(s, steps).walks[w].asOf == s.walks[w].asOf
    decreases |steps|
  {
    hide CanStep, After;
    if steps != [] {
      assert steps[0] in steps;
      assert forall a | a in steps[1..] :: a in steps;
      SnapshotStep(s, steps[0], w);
      WalkKeepsSnapshot(After(s, steps[0]), steps[1..], w);
    }
  }

  lemma SnapshotStep<N>(s: List<N>, a: Step<N>, w: nat)
    requires w < |s.walks| && CanStep(s, a) && a != StartWalk(w)
    ensures w < |After(s, a).walks| && After(s, a).walks[w].asOf == s.walks[w].asOf
  {
  }

  /** A walk that has come to its end has visited exactly the list as of its load, whatever was pushed meanwhile. */
  lemma WalkSeesListAsOfLoad<N>(s: List<N>, w: nat, steps: seq<Step<N>>)
    requires ListOk(s) && CanStep(s, StartWalk(w))
    requires IsRun(After(s, StartWalk(w)), steps) && LeavesWalk(steps, w)
    requires var e := End(After(s, StartWalk(w)), steps); w < |e.walks| && e.walks[w].cursor.None?
    ensures End(After(s, StartWalk(w)), steps).walks[w].visited == s.pushed
  {
    StepOk(s, StartWalk(w));
    var s1 := After(s, StartWalk(w));
    assert s1.walks[w].asOf == s.pushed;
    hide CanStep, After, ListOk;
    WalkKeepsSnapshot(s1, steps, w);
    RunOk(s1, steps);
    EndedWalk(End(s1, steps), w);
  }

  lemma EndedWalk<N>(e: List<N>, w: nat)
    requires ListOk(e) && w < |e.walks| && e.walks[w].cursor.None?
    ensures e.walks[w].visited == e.walks[w].asOf
  {
    assert WalkOk(e.walks[w], e.pushed);
    var walk := e.walks[w];
    assert walk.asOf[|walk.visited|..] == [];
  }

  /** A walk is never left without a next cell to read. */
  lemma WalkIsNeverStuck<N>(s: List<N>, w: nat)
    requires ListOk(s) && w < |s.walks| && s.walks[w].cursor.Some?
    ensures CanStep(s, Visit(w)) && |s.walks[w].visited| < |s.walks[w].asOf|
  {
    HeadIsFront(s);
    assert WalkOk(s.walks[w], s.pushed);
    StepAlong(s.next, s.walks[w], s.pushed);
  }

  // ----- No allocation is lost -----

  ghost function Hands<N>(pushers: seq<Push<N>>): set<N> {
    set t | 0 <= t < |pushers| && !pushers[t].Resting? :: pushers[t].n
  }

  /** Every node ever begun is listed or still in the hands of the thread that began it. */
  ghost predicate NothingLost<N>(s: List<N>) {
    s.used == (set n | n in s.pushed) + Hands(s.pushers)
  }

  /** Only a compare-exchange that succeeds takes a node out of a thread's hands. */
  lemma StepLosesNothing<N>(s: List<N>, a: Step<N>)
    requires ListOk(s) && NothingLost(s) && CanStep(s, a)
    ensures NothingLost(After(s, a))
  {
    var s' := After(s, a);
    if !a.StartWalk? && !a.Visit? {
      HandsChange(s.pushers, s'.pushers, a.t);
      assert s'.pushers[a.t].Resting? ==> s.pushers[a.t].n in s'.pushed;
    }
  }

  /** When one thread moves on, the nodes in the hands of the others stay there. */
  lemma HandsChange<N>(pushers: seq<Push<N>>, pushers': seq<Push<N>>, t: nat)
    requires t < |pushers| == |pushers'| && pushers' == pushers[t := pushers'[t]] && Apart(pushers)
    ensures forall n | n in Hands(pushers') :: n in Hands(pushers) || (!pushers'[t].Resting? && n == pushers'[t].n)
    ensures forall n | n in Hands(pushers) :: n in Hands(pushers') || (!pushers[t].Resting? && n == pushers[t].n)
    ensures !pushers'[t].Resting? ==> pushers'[t].n in Hands(pushers')
    ensures !pushers[t].Resting? ==> pushers[t].n in Hands(pushers)
  {
    forall n | n in Hands(pushers') ensures n in Hands(pushers) || (!pushers'[t].Resting? && n == pushers'[t].n) {
      var u :| 0 <= u < |pushers'| && !pushers'[u].Resting? && pushers'[u].n == n;
      assert u != t ==> pushers[u] == pushers'[u];
    }
    forall n | n in Hands(pushers) ensures n in Hands(pushers') || (!pushers[t].Resting? && n == pushers[t].n) {
      var u :| 0 <= u < |pushers| && !pushers[u].Resting? && pushers[u].n == n;
      assert u != t ==> pushers'[u] == pushers[u];
    }
  }

  lemma {:induction false} RunLosesNothing<N>(s: List<N>, steps: seq<Step<N>>)
    requires ListOk(s) && NothingLost(s) && IsRun(s, steps)
    ensures ListOk(End(s, steps)) && NothingLost(End(s, steps))
    decreases |steps|
  {
    hide ListOk, CanStep, After, NothingLost;
    if steps != [] {
      StepOk(s, steps[0]);
      StepLosesNothing(s, steps[0]);
      RunLosesNothing(After(s, steps[0]), steps[1..]);
    }
  }

  /**
   * Over every run a node that was begun is in the list or in the hands of exactly one thread, never both: a thread that
   * is at rest again has listed its node, whatever contention it met.
   */
  lemma NoAllocationIsLost<N>(pushers: nat, walkers: nat, steps: seq<Step<N>>, n: N)
    requires IsRun(Nothing(pushers, walkers), steps)
    ensures var e := End(Nothing<N>(pushers, walkers), steps);
      && (n in e.used <==> n in e.pushed || exists t | 0 <= t < |e.pushers| :: !e.pushers[t].Resting? && e.pushers[t].n == n)
      && (forall t, u | 0 <= t < u < |e.pushers| && !e.pushers[t].Resting? && !e.pushers[u].Resting? :: e.pushers[t].n != e.pushers[u].n)
      && (forall t | 0 <= t < |e.pushers| && !e.pushers[t].Resting? :: e.pushers[t].n !in e.pushed)
  {
    hide CanStep, After, IsRun;
    NothingIsOk<N>(pushers, walkers);
    assert NothingLost(Nothing<N>(pushers, walkers));
    RunLosesNothing(Nothing<N>(pushers, walkers), steps);
    HandsAreApart(End(Nothing<N>(pushers, walkers), steps));
    var e := End(Nothing<N>(pushers, walkers), steps);
    assert n in Hands(e.pushers) || n !in Hands(e.pushers);
  }

  lemma HandsAreApart<N>(e: List<N>)
    requires ListOk(e)
    ensures forall t, u | 0 <= t < u < |e.pushers| && !e.pushers[t].Resting? && !e.pushers[u].Resting? :: e.pushers[t].n != e.pushers[u].n
    ensures forall t | 0 <= t < |e.pushers| && !e.pushers[t].Resting? :: e.pushers[t].n !in e.pushed
  {
    forall t | 0 <= t < |e.pushers| && !e.pushers[t].Resting? ensures e.pushers[t].n !in e.pushed {
      assert PusherOk(e.pushers[t], e.next, e.pushed, e.used);
    }
  }

  // ----- A thread on its own -----

  /** Undisturbed, load, store of next and compare-exchange put the node in front of the list. */
  lemma PushAlone<N>(s: List<N>, t: nat)
    requires t < |s.pushers| && s.pushers[t].Begun?
    ensures var n, steps := s.pushers[t].n, [Load(t), StoreNext(t), CompareExchange(t)];
      IsRun(s, steps) &&
      var e := End(s, steps);
      && e.head == Some(n) && n in e.next && e.next[n] == s.head && e.pushed == [n] + s.pushed
      && e.pushers == s.pushers[t := Resting]
  {
    var n := s.pushers[t].n;
    var s1 := WithPusher(s, t, Loaded(n, s.head, s.pushed));
    var s2 := WithPusher(s, t, Stored(n, s.head, s.pushed)).(next := s.next[n := s.head]);
    var s3 := WithPusher(s, t, Resting).(next := s.next[n := s.head], head := Some(n), pushed := [n] + s.pushed);
    assert After(s, Load(t)) == s1;
    assert After(s1, StoreNext(t)) == s2;
    assert After(s2, CompareExchange(t)) == s3;
    OneStep(s2, CompareExchange(t), []);
    OneStep(s1, StoreNext(t), [CompareExchange(t)]);
    OneStep(s, Load(t), [StoreNext(t), CompareExchange(t)]);
  }

  lemma OneStep<N>(s: List<N>, a: Step<N>, rest: seq<Step<N>>)
    requires CanStep(s, a) && IsRun(After(s, a), rest)
    ensures IsRun(s, [a] + rest) && End(s, [a] + rest) == End(After(s, a), rest)
    ensures rest == [] ==> [a] + rest == [a]
  {
    hide CanStep, After;
    assert ([a] + rest)[1..] == rest;
  }

  /** From a compare-exchange, one try more at most: a failed one is followed by an undisturbed push. */
  lemma RetryAlone<N>(s: List<N>, t: nat) returns (steps: seq<Step<N>>)
    requires t < |s.pushers| && s.pushers[t].Stored?
    ensures |steps| <= 4 && IsRun(s, steps) && (forall a | a in steps :: !a.StartWalk? && !a.Visit? && a.t == t)
    ensures End(s, steps).pushed == [s.pushers[t].n] + s.pushed && End(s, steps).pushers == s.pushers[t := Resting]
  {
    var s1 := After(s, CompareExchange(t));
    if s.head == s.pushers[t].seen {
      steps := [CompareExchange(t)];
      OneStep(s, CompareExchange(t), []);
    } else {
      PushAlone(s1, t);
      var again := [Load(t), StoreNext(t), CompareExchange(t)];
      steps := [CompareExchange(t)] + again;
      OneStep(s, CompareExchange(t), again);
      assert s1.pushers[t := Resting] == s.pushers[t := Resting];
    }
  }

  /** Left to itself a thread completes its allocation within five steps, wherever it stands and however stale its load. */
  lemma FinishAlone<N>(s: List<N>, t: nat) returns (steps: seq<Step<N>>)
    requires t < |s.pushers| && !s.pushers[t].Resting?
    ensures |steps| <= 5 && IsRun(s, steps) && (forall a | a in steps :: !a.StartWalk? && !a.Visit? && a.t == t)
    ensures End(s, steps).pushed == [s.pushers[t].n] + s.pushed && End(s, steps).pushers == s.pushers[t := Resting]
  {
    if s.pushers[t].Begun? {
      steps := [Load(t), StoreNext(t), CompareExchange(t)];
      PushAlone(s, t);
    } else if s.pushers[t].Stored? {
      steps := RetryAlone(s, t);
    } else {
      var s1 := After(s, StoreNext(t));
      var rest := RetryAlone(s1, t);
      steps := [StoreNext(t)] + rest;
      OneStep(s, StoreNext(t), rest);
      assert s1.pushers[t := Resting] == s.pushers[t := Resting];
    }
  }
}
