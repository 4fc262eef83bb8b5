/** When to collect: the threshold, its laws, and what they amount to over a whole run. */
module Pacing {

  const USIZE_MAX: nat := 0xFFFF_FFFF_FFFF_FFFF

  /** usize arithmetic of a release build wraps around. */
  function Wrap(n: nat): (w: nat)
    ensures w <= USIZE_MAX && (n <= USIZE_MAX ==> w == n)
  {
    n % (USIZE_MAX + 1)
  }

  /** `collectionInterval` in milliseconds. */
  datatype Options = Options(
    collectionInterval: nat,
    incrementalWorkBudget: nat,
    assistWorkBudget: nat,
    thresholdPercent: nat,
    thresholdShrinkPercent: nat,
    minThresholdBytes: nat,
    limitBytes: nat)
  {
    predicate ThresholdOff() {
      thresholdPercent == 0 || thresholdPercent == USIZE_MAX
    }

    predicate LimitOff() {
      limitBytes == USIZE_MAX
    }

    predicate BackgroundCollectionOff() {
      ThresholdOff() || collectionInterval == 0
    }
  }

  /** The extra memory a collection grants above the live bytes. */
  function Headroom(o: Options, live: nat): nat {
    live * o.thresholdPercent / 100
  }

  /** The computation for these live bytes does not wrap around. */
  predicate Fits(o: Options, live: nat) {
    live * o.thresholdPercent <= USIZE_MAX && live + Headroom(o, live) <= USIZE_MAX
  }

  function Proposed(o: Options, live: nat): nat {
    Wrap(live + Wrap(live * o.thresholdPercent) / 100)
  }

  /** The hysteresis: a threshold that would not shrink far enough is left as it is. */
  predicate KeepsOld(o: Options, oldThreshold: nat, live: nat) {
    && Proposed(o, live) < oldThreshold
    && (|| o.thresholdShrinkPercent == 0
        || (o.thresholdShrinkPercent < 100 && Proposed(o, live) > Wrap(oldThreshold * o.thresholdShrinkPercent) / 100))
  }

  function CalculateThreshold(o: Options, oldThreshold: nat, live: nat): nat {
    if o.ThresholdOff() then USIZE_MAX
    else if KeepsOld(o, oldThreshold, live) then oldThreshold
    else if Proposed(o, live) < o.minThresholdBytes then o.minThresholdBytes
    else Proposed(o, live)
  }

  // ----- Laws of the threshold -----

  /** The threshold leaves the promised headroom above the live bytes, and never falls below the minimum. */
  lemma ThresholdLeavesHeadroom(o: Options, oldThreshold: nat, live: nat)
    requires Fits(o, live) && o.minThresholdBytes <= oldThreshold
    ensures o.ThresholdOff() || CalculateThreshold(o, oldThreshold, live) >= live + Headroom(o, live)
    ensures o.minThresholdBytes <= USIZE_MAX ==> CalculateThreshold(o, oldThreshold, live) >= o.minThresholdBytes
  {
    assert Wrap(live * o.thresholdPercent) / 100 == Headroom(o, live);
    assert Wrap(live + Headroom(o, live)) == live + Headroom(o, live);
  }

  /** For the same live bytes a second update changes nothing, wrap-around or not. */
  lemma ThresholdIsIdempotent(o: Options, oldThreshold: nat, live: nat)
    ensures var once := CalculateThreshold(o, oldThreshold, live);
      CalculateThreshold(o, once, live) == once
  {
    var once := CalculateThreshold(o, oldThreshold, live);
    if !o.ThresholdOff() && once != oldThreshold && Proposed(o, live) < once {
      assert once == o.minThresholdBytes;
    }
  }

  /**
   * The threshold in plain arithmetic where nothing wraps around, with n the live bytes and the percentage of them: it
   * becomes n, or the minimum, when it grows, when shrinking is never held back, and when n is small enough against the
   * old threshold. Otherwise the old one stays.
   */
  lemma ThresholdInPlainTerms(o: Options, oldThreshold: nat, live: nat)
    requires o.thresholdPercent != 0 && o.thresholdPercent != USIZE_MAX
    requires live * o.thresholdPercent <= USIZE_MAX && live + live * o.thresholdPercent / 100 <= USIZE_MAX
    requires oldThreshold * o.thresholdShrinkPercent <= USIZE_MAX
    ensures var n, result := live + live * o.thresholdPercent / 100, CalculateThreshold(o, oldThreshold, live);
      if n >= oldThreshold || o.thresholdShrinkPercent >= 100
         || (o.thresholdShrinkPercent > 0 && n <= oldThreshold * o.thresholdShrinkPercent / 100)
      then result == if n < o.minThresholdBytes then o.minThresholdBytes else n
      else result == oldThreshold
  {
  }

  /** Wrap-around or not, the threshold never exceeds the largest of the old one, the minimum and n; off, it is the maximum. */
  lemma ThresholdIsBounded(o: Options, oldThreshold: nat, live: nat)
    ensures var n, result := live + live * o.thresholdPercent / 100, CalculateThreshold(o, oldThreshold, live);
      if o.thresholdPercent == 0 || o.thresholdPercent == USIZE_MAX then result == USIZE_MAX
      else result <= oldThreshold || result <= o.minThresholdBytes || result <= n
  {
    var product := live * o.thresholdPercent;
    assert Wrap(product) <= product;
    assert Proposed(o, live) <= live + Wrap(product) / 100;
  }

  lemma HeadroomIsMonotone(o: Options, less: nat, more: nat)
    requires less <= more
    ensures less * o.thresholdPercent <= more * o.thresholdPercent
    ensures Headroom(o, less) <= Headroom(o, more)
  {
    var d := more - less;
    assert more * o.thresholdPercent == less * o.thresholdPercent + d * o.thresholdPercent;
  }

  /** More live bytes never give a lower threshold, through the hysteresis too, from a threshold no lower than the minimum. */
  lemma ThresholdIsMonotone(o: Options, oldThreshold: nat, less: nat, more: nat)
    requires less <= more && Fits(o, more) && o.minThresholdBytes <= oldThreshold
    ensures Fits(o, less)
    ensures CalculateThreshold(o, oldThreshold, less) <= CalculateThreshold(o, oldThreshold, more)
  {
    HeadroomIsMonotone(o, less, more);
    assert Wrap(less * o.thresholdPercent) / 100 == Headroom(o, less);
    assert Wrap(more * o.thresholdPercent) / 100 == Headroom(o, more);
    assert Wrap(less + Headroom(o, less)) == less + Headroom(o, less);
    assert Wrap(more + Headroom(o, more)) == more + Headroom(o, more);
  }

  lemma WrappedIsLess(o: Options, live: nat)
    requires !Fits(o, live)
    ensures Wrap(live + Wrap(live * o.thresholdPercent) / 100) < live + Headroom(o, live)
  {
    var product := live * o.thresholdPercent;
    if product > USIZE_MAX {
      assert Wrap(product) <= product - (USIZE_MAX + 1);
    }
    var sum := live + Wrap(product) / 100;
    assert Wrap(sum) <= sum;
  }

  /**
   * Exactly when the promise is kept: nothing wraps around, or else the old threshold, if it is kept, or the minimum,
   * if it is not, is large enough anyway.
   */
  lemma ThresholdLeavesHeadroomIff(o: Options, oldThreshold: nat, live: nat)
    requires !o.ThresholdOff()
    ensures CalculateThreshold(o, oldThreshold, live) >= live + Headroom(o, live) <==>
      || Fits(o, live)
      || (if KeepsOld(o, oldThreshold, live) then oldThreshold else o.minThresholdBytes) >= live + Headroom(o, live)
  {
    if Fits(o, live) {
      assert Wrap(live * o.thresholdPercent) / 100 == Headroom(o, live);
      assert Proposed(o, live) == live + Headroom(o, live);
    } else {
      WrappedIsLess(o, live);
    }
  }

  /** Without the bound the promise fails: the product wraps and the threshold grants less than the percentage. */
  lemma OverflowGrantsLess()
    ensures exists o: Options, oldThreshold: nat, live: nat ::
      && !o.ThresholdOff() && o.minThresholdBytes <= oldThreshold && !Fits(o, live)
      && live <= USIZE_MAX && oldThreshold <= USIZE_MAX
      && CalculateThreshold(o, oldThreshold, live) < live + Headroom(o, live)
  {
    var o := Options(100, 100, 5, 30, 30, 1048576, USIZE_MAX);
    var live := 0x1000_0000_0000_0000;
    assert live * 30 == 0x1_E000_0000_0000_0000;
    assert Wrap(live * 30) == 0xE000_0000_0000_0000;
    assert CalculateThreshold(o, 1048576, live) < live + Headroom(o, live);
  }

  // ----- A sequential run -----

  /** Bytes allocated and the current threshold. */
  datatype Pacer = Pacer(bytes: nat, threshold: nat)

  /** `live` is what a collection at this point would leave. */
  datatype Op = Alloc(size: nat) | Collect(live: nat)

  predicate ShouldCollect(o: Options, p: Pacer) {
    && !(o.ThresholdOff() && o.LimitOff())
    && ((!o.LimitOff() && p.bytes > o.limitBytes) || p.bytes > p.threshold)
  }

  function Collected(o: Options, p: Pacer, live: nat): Pacer {
    Pacer(live, CalculateThreshold(o, p.threshold, live))
  }

  function Apply(o: Options, p: Pacer, op: Op): Pacer {
    match op
    case Alloc(size) => p.(bytes := p.bytes + size)
    case Collect(live) => if ShouldCollect(o, p) then Collected(o, p, live) else p
  }

  /** No collection leaves more than there was, and no computation wraps around. */
  ghost predicate Plausible(o: Options, p: Pacer, ops: seq<Op>)
    decreases |ops|
  {
    ops != [] ==>
      && (ops[0].Collect? ==> ops[0].live <= p.bytes && Fits(o, ops[0].live))
      && Plausible(o, Apply(o, p, ops[0]), ops[1..])
  }

  ghost function AfterRun(o: Options, p: Pacer, ops: seq<Op>): Pacer
    decreases |ops|
  {
    if ops == [] then p else AfterRun(o, Apply(o, p, ops[0]), ops[1..])
  }

  /** The live bytes after each collection that took place. */
  ghost function Lives(o: Options, p: Pacer, ops: seq<Op>): seq<nat>
    decreases |ops|
  {
    if ops == [] then [] else
      (if ops[0].Collect? && ShouldCollect(o, p) then [ops[0].live] else []) + Lives(o, Apply(o, p, ops[0]), ops[1..])
  }

  lemma {:induction false} AfterRunSnoc(o: Options, p: Pacer, ops: seq<Op>, i: nat)
    requires i < |ops|
    ensures AfterRun(o, p, ops[..i + 1]) == Apply(o, AfterRun(o, p, ops[..i]), ops[i])
    ensures var q := AfterRun(o, p, ops[..i]);
      Lives(o, p, ops[..i + 1]) == Lives(o, p, ops[..i]) + (if ops[i].Collect? && ShouldCollect(o, q) then [ops[i].live] else [])
    decreases i
  {
    hide Apply, ShouldCollect;
    var p1 := Apply(o, p, ops[0]);
    if i == 0 {
      assert ops[..1] == [ops[0]] && ops[..1][1..] == [] && ops[..0] == [];
      assert AfterRun(o, p1, []) == p1 && Lives(o, p1, []) == [];
    } else {
      assert ops[..i + 1][1..] == ops[1..][..i] && ops[..i][1..] == ops[1..][..i - 1];
      AfterRunSnoc(o, p1, ops[1..], i - 1);
    }
  }

  /**
   * Every Collect of a run collects exactly when collection is not switched off altogether and the bytes exceed the
   * threshold or the byte limit. After it, then, the bytes are within both or are what that collection left.
   */
  lemma CollectsWhenDue(o: Options, p: Pacer, ops: seq<Op>, i: nat)
    requires i < |ops| && ops[i].Collect?
    ensures var before, after := AfterRun(o, p, ops[..i]), AfterRun(o, p, ops[..i + 1]);
      var off := (o.thresholdPercent == 0 || o.thresholdPercent == USIZE_MAX) && o.limitBytes == USIZE_MAX;
      var exceeded := before.bytes > before.threshold || (o.limitBytes != USIZE_MAX && before.bytes > o.limitBytes);
      && (if !off && exceeded then after.bytes == ops[i].live else after == before)
      && Lives(o, p, ops[..i + 1]) == Lives(o, p, ops[..i]) + (if !off && exceeded then [ops[i].live] else [])
      && (off || after.bytes == ops[i].live
          || (after.bytes <= after.threshold && (o.limitBytes == USIZE_MAX || after.bytes <= o.limitBytes)))
  {
    AfterRunSnoc(o, p, ops, i);
  }

  ghost function Allocated(ops: seq<Op>): nat {
    if ops == [] then 0 else (if ops[0].Alloc? then ops[0].size else 0) + Allocated(ops[1..])
  }

  ghost function Granted(o: Options, lives: seq<nat>): nat {
    if lives == [] then 0 else Headroom(o, lives[0]) + 1 + Granted(o, lives[1..])
  }

  /** The same over all but the last collection. */
  ghost function GrantedBeforeLast(o: Options, lives: seq<nat>): nat {
    if |lives| <= 1 then 0 else Granted(o, lives[..|lives| - 1])
  }

  /** Over any run, wrap-around or not. */
  lemma {:induction false} ThresholdStaysAboveMinimum(o: Options, p: Pacer, ops: seq<Op>)
    requires o.minThresholdBytes <= USIZE_MAX && o.minThresholdBytes <= p.threshold
    ensures AfterRun(o, p, ops).threshold >= o.minThresholdBytes
    decreases |ops|
  {
    if ops != [] {
      ThresholdStaysAboveMinimum(o, Apply(o, p, ops[0]), ops[1..]);
    }
  }

  lemma GrantedPrefix(o: Options, live: nat, rest: seq<nat>)
    requires rest != []
    ensures GrantedBeforeLast(o, [live] + rest) == Headroom(o, live) + 1 + GrantedBeforeLast(o, rest)
  {
    hide Headroom;
    var all := [live] + rest;
    var front := all[..|all| - 1];
    assert |front| == |rest| && front[0] == live;
    assert front[1..] == rest[..|rest| - 1];
    assert Granted(o, front) == Headroom(o, live) + 1 + Granted(o, rest[..|rest| - 1]);
    assert |rest| == 1 ==> rest[..|rest| - 1] == [];
  }

  /** From a state whose last collection left `last`: every further collection has been paid for by allocation. */
  lemma {:induction false} CollectionsArePaidFor(o: Options, p: Pacer, ops: seq<Op>, last: nat)
    requires !o.ThresholdOff() && o.LimitOff() && Plausible(o, p, ops) && o.minThresholdBytes <= p.threshold
    requires o.minThresholdBytes <= USIZE_MAX
    requires last <= p.bytes && p.threshold >= last + Headroom(o, last)
    ensures var lives := Lives(o, p, ops);
      lives != [] ==> Headroom(o, last) + 1 + GrantedBeforeLast(o, lives) <= (p.bytes - last) + Allocated(ops)
    decreases |ops|
  {
    hide CalculateThreshold, Headroom, Fits, Granted;
    if ops != [] {
      var p' := Apply(o, p, ops[0]);
      if ops[0].Collect? && ShouldCollect(o, p) {
        var live := ops[0].live;
        ThresholdLeavesHeadroom(o, p.threshold, live);
        CollectionsArePaidFor(o, p', ops[1..], live);
        var rest := Lives(o, p', ops[1..]);
        assert Lives(o, p, ops) == [live] + rest;
        if rest != [] {
          GrantedPrefix(o, live, rest);
        }
      } else {
        CollectionsArePaidFor(o, p', ops[1..], last);
        assert Lives(o, p, ops) == Lives(o, p', ops[1..]);
      }
    }
  }

  /**
   * Amortised pacing: with the threshold on and the limit off, the headroom granted by all collections but
   * the last, plus one byte each, is at most what has been allocated over the whole run.
   */
  lemma {:induction false} AmortisedPacing(o: Options, p: Pacer, ops: seq<Op>)
    requires !o.ThresholdOff() && o.LimitOff() && Plausible(o, p, ops) && o.minThresholdBytes <= p.threshold
    requires o.minThresholdBytes <= USIZE_MAX
    ensures GrantedBeforeLast(o, Lives(o, p, ops)) <= p.bytes + Allocated(ops)
    decreases |ops|
  {
    hide CalculateThreshold, Headroom, Fits, Granted;
    if ops != [] {
      var p' := Apply(o, p, ops[0]);
      if ops[0].Collect? && ShouldCollect(o, p) {
        var live := ops[0].live;
        ThresholdLeavesHeadroom(o, p.threshold, live);
        CollectionsArePaidFor(o, p', ops[1..], live);
        var rest := Lives(o, p', ops[1..]);
        assert Lives(o, p, ops) == [live] + rest;
        if rest != [] {
          GrantedPrefix(o, live, rest);
        }
      } else {
        AmortisedPacing(o, p', ops[1..]);
        assert Lives(o, p, ops) == Lives(o, p', ops[1..]);
      }
    }
  }

  /** Right after a collection another is due exactly when the live bytes exceed the byte limit. */
  lemma SecondCollectIsIdle(o: Options, p: Pacer, live: nat)
    requires Fits(o, live) && o.minThresholdBytes <= p.threshold
    ensures ShouldCollect(o, Collected(o, p, live)) <==> !o.LimitOff() && live > o.limitBytes
  {
    ThresholdLeavesHeadroom(o, p.threshold, live);
  }

  /**
   * A percentage that switches the threshold off does not do so before the first collection when there is a byte
   * limit: the initial threshold, the minimum, still triggers one below the limit.
   */
  lemma SwitchedOffThresholdStillFires()
    ensures exists o: Options, bytes: nat ::
      o.ThresholdOff() && !o.LimitOff() && bytes <= o.limitBytes && ShouldCollect(o, Pacer(bytes, o.minThresholdBytes))
  {
    var o := Options(100, 100, 5, 0, 30, 10, 1000);
    assert ShouldCollect(o, Pacer(11, o.minThresholdBytes));
  }

  /** Exactly when the switched-off threshold is silent from the start: the byte limit is no larger than the minimum. */
  lemma SwitchedOffIff(o: Options)
    requires o.ThresholdOff() && !o.LimitOff()
    ensures (forall bytes: nat | bytes <= o.limitBytes :: !ShouldCollect(o, Pacer(bytes, o.minThresholdBytes)))
      <==> o.limitBytes <= o.minThresholdBytes
  {
    if o.minThresholdBytes < o.limitBytes {
      assert ShouldCollect(o, Pacer(o.minThresholdBytes + 1, o.minThresholdBytes));
    }
  }

  /** Some collection of the run takes place at or below the byte limit. */
  ghost predicate CollectsEarly(o: Options, p: Pacer, ops: seq<Op>)
    decreases |ops|
  {
    ops != [] && (
      || (ops[0].Collect? && ShouldCollect(o, p) && p.bytes <= o.limitBytes)
      || CollectsEarly(o, Apply(o, p, ops[0]), ops[1..]))
  }

  lemma {:induction false} HighThresholdIsSilent(o: Options, p: Pacer, ops: seq<Op>)
    requires o.ThresholdOff() && !o.LimitOff() && o.limitBytes <= USIZE_MAX && o.limitBytes <= p.threshold
    ensures !CollectsEarly(o, p, ops)
    decreases |ops|
  {
    if ops != [] {
      HighThresholdIsSilent(o, Apply(o, p, ops[0]), ops[1..]);
    }
  }

  /** Allocating one byte more than the minimum and collecting. */
  lemma EarlyRun(o: Options) returns (ops: seq<Op>)
    requires o.ThresholdOff() && !o.LimitOff() && o.minThresholdBytes < o.limitBytes
    ensures CollectsEarly(o, Pacer(0, o.minThresholdBytes), ops) && Plausible(o, Pacer(0, o.minThresholdBytes), ops)
  {
    ops := [Alloc(o.minThresholdBytes + 1), Collect(0)];
    var p1 := Pacer(o.minThresholdBytes + 1, o.minThresholdBytes);
    assert Apply(o, Pacer(0, o.minThresholdBytes), ops[0]) == p1 && ops[1..] == [Collect(0)] && ops[1..][1..] == [];
    assert ShouldCollect(o, p1) && Fits(o, 0);
    assert CollectsEarly(o, p1, ops[1..]) && Plausible(o, p1, ops[1..]);
  }

  /**
   * The same over runs of a new heap, all of them or only the plausible ones: some collects early iff the minimum is
   * below the limit.
   */
  lemma SwitchedOffRunsIff(o: Options)
    requires o.ThresholdOff() && !o.LimitOff() && o.limitBytes <= USIZE_MAX
    ensures var p := Pacer(0, o.minThresholdBytes);
      && ((exists ops :: CollectsEarly(o, p, ops)) <==> o.minThresholdBytes < o.limitBytes)
      && ((exists ops :: Plausible(o, p, ops) && CollectsEarly(o, p, ops)) <==> o.minThresholdBytes < o.limitBytes)
  {
    var p := Pacer(0, o.minThresholdBytes);
    if o.limitBytes <= o.minThresholdBytes {
      forall ops ensures !CollectsEarly(o, p, ops) {
        HighThresholdIsSilent(o, p, ops);
      }
    } else {
      var ops := EarlyRun(o);
      assert exists r :: CollectsEarly(o, p, r);
      assert exists r :: Plausible(o, p, r) && CollectsEarly(o, p, r);
    }
  }

  /**
   * From the first collection on, which sets it to the maximum, it is off: until bytes exceed the limit nothing is
   * due, whatever is allocated.
   */
  lemma {:induction false} SwitchedOffAfterACollection(o: Options, p: Pacer, ops: seq<Op>)
    requires o.ThresholdOff() && !o.LimitOff() && p.threshold == USIZE_MAX
    requires p.bytes + Allocated(ops) <= o.limitBytes <= USIZE_MAX
    ensures Lives(o, p, ops) == [] && AfterRun(o, p, ops) == Pacer(p.bytes + Allocated(ops), USIZE_MAX)
    decreases |ops|
  {
    if ops != [] {
      SwitchedOffAfterACollection(o, Apply(o, p, ops[0]), ops[1..]);
    }
  }
}
