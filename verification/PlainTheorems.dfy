/**
 What the plain path guarantees about its proposals: direction safety and monotonicity in
 load, each with its exact condition, conservative refills and capacity, over tallies and
 over pods and metrics.
 */
module PlainTheorems {
  import opened Wrappers
  import opened Arithmetic
  import opened PodMetrics
  import opened ReplicaCalculators
  import opened ReplicaTheorems

  // ---- facts about tallies ----

  /** The entries left in the metric map: ready pods and pods that are not listed. */
  function Kept(t: PlainTally): nat {
    t.ready + t.extra
  }

  ghost predicate PlausiblePlain(t: PlainTally) {
    0 <= t.usage && 0 < Kept(t)
  }

  /** The current count lies between the pods taken into account and all listed ones. */
  predicate Spread(t: PlainTally, current: int) {
    t.ready + t.missing <= current <= t.ready + t.missing + t.unready
  }

  /**
   Entries of unlisted pods do not outnumber the current pods that are not taken into account, or no pod is
   missing.
   */
  predicate PlainStrangersFit(t: PlainTally, current: int) {
    t.missing == 0 || Kept(t) + t.missing <= current
  }

  function Average(t: PlainTally): int
    requires 0 < Kept(t)
  {
    TruncDiv(t.usage, Kept(t))
  }

  function PlainRatio(t: PlainTally, target: Target): real
    requires 0 < Kept(t)
  {
    Ratio(Average(t), target)
  }

  lemma {:induction false} TruncIsDiv(a: int, b: int)
    requires 0 <= a && 0 < b
    ensures 0 <= TruncDiv(a, b) == a / b
  {
    DivAtLeast(a, b, 0);
  }

  // ---- refills ----

  /**
   The plain refill is conservative on both sides. Below target it raises the average
   but keeps it below target, so the scale-down half of the reversal guard never fires.
   */
  lemma {:induction false} PlainRefillConservative(t: PlainTally, target: Target)
    requires PlausiblePlain(t)
    ensures var PlainLoad(usage, count) := PlainRefill(t, PlainRatio(t, target), target);
      var a, a' := Average(t), TruncDiv(usage, count);
      && (a < target ==> a <= a' < target)
      && (a >= target ==> 0 <= a' <= a && usage == t.usage)
  {
    RatioVersusOne(Average(t), target);
    if Average(t) < target {
      ChargedAverage(t.usage, Kept(t), target, t.missing);
    } else {
      ThinnedAverage(t.usage, Kept(t), t.missing + if Average(t) > target then t.unready else 0);
    }
  }

  lemma {:induction false} ChargedStaysBelow(usage: int, count: int, target: Target, more: nat)
    requires 0 < count && usage / count < target
    ensures (usage + target * more) / (count + more) < target
  {
    DivAtLeast(usage, count, target);
    DivAtLeast(usage + target * more, count + more, target);
    DistributeAdd(target, count, more);
  }

  lemma {:induction false} ChargedAverage(usage: int, count: int, target: Target, more: nat)
    requires 0 <= usage && 0 < count && TruncDiv(usage, count) < target
    ensures TruncDiv(usage, count) <= TruncDiv(usage + target * more, count + more) < target
  {
    MulNonNegative(target, more);
    TruncIsDiv(usage, count);
    TruncIsDiv(usage + target * more, count + more);
    hide TruncDiv;
    FlooredMediant(usage, count, target, more);
    ChargedStaysBelow(usage, count, target, more);
  }

  lemma {:induction false} ThinnedAverage(usage: int, count: int, more: nat)
    requires 0 <= usage && 0 < count
    ensures 0 <= TruncDiv(usage, count + more) <= TruncDiv(usage, count)
  {
    TruncIsDiv(usage, count);
    TruncIsDiv(usage, count + more);
    hide TruncDiv;
    DivLargerDivisor(usage, count, more);
  }

  // ---- direction ----

  /** Above target at least, otherwise at most the current count. */
  predicate PlainDirected(average: int, replicas: int, current: int, target: Target) {
    && (average > target ==> replicas >= current)
    && (average <= target ==> 0 <= replicas <= current)
  }

  /** The average up to the target, after the missing pods were charged the target, or nothing on it. */
  function FilledAverage(t: PlainTally, target: Target): int
    requires 0 < Kept(t)
  {
    TruncDiv(t.usage + (if Average(t) < target then target * t.missing else 0), Kept(t) + t.missing)
  }

  /**
   Up to the target, with pods missing, the filled average is outside the tolerance and, multiplied by
   every counted entry, exceeds what the current pods would carry on target.
   */
  predicate PlainTips(t: PlainTally, current: int, target: Target, tolerance: real)
    requires 0 < Kept(t)
  {
    && Average(t) <= target && 0 < t.missing
    && Abs(1.0 - Ratio(FilledAverage(t, target), target)) > tolerance
    && FilledAverage(t, target) * (Kept(t) + t.missing) > current * target
  }

  lemma {:induction false} UpToTarget(t: PlainTally, current: int, target: Target, tolerance: real)
    requires PlausiblePlain(t) && Spread(t, current) && 0.0 <= tolerance && Average(t) <= target
    ensures var r := PlainReplicas(t, current, target, tolerance);
      && 0 <= r && (r > current <==> PlainTips(t, current, target, tolerance))
      && (Average(t) == target && t.missing == 0 ==> r == current)
  {
    var ratio := PlainRatio(t, target);
    TruncIsDiv(t.usage, Kept(t));
    RatioVersusOne(Average(t), target);
    if t.missing == 0 {
      CeilScaled(ratio, t.ready);
    } else {
      var count, a := Kept(t) + t.missing, FilledAverage(t, target);
      PlainRefillConservative(t, target);
      RatioVersusOne(a, target);
      CeilScaled(Ratio(a, target), count);
      RoundsAbove(a, target, count, current);
      hide RoundUp, Ratio, TruncDiv;
    }
  }

  lemma {:induction false} AboveTarget(t: PlainTally, current: int, target: Target, tolerance: real)
    requires PlausiblePlain(t) && Spread(t, current) && 0.0 <= tolerance && Average(t) > target
    ensures PlainReplicas(t, current, target, tolerance) >= current
  {
    var ratio := PlainRatio(t, target);
    RatioVersusOne(Average(t), target);
    CeilScaled(ratio, t.ready);
    PlainRefillConservative(t, target);
    var PlainLoad(usage, count) := PlainRefill(t, ratio, target);
    RatioVersusOne(TruncDiv(usage, count), target);
    CeilScaled(Ratio(TruncDiv(usage, count), target), count);
    hide RoundUp, Ratio, TruncDiv;
  }

  /** Direction safety holds exactly when the tally does not tip. */
  lemma {:induction false} PlainDirectionIff(t: PlainTally, current: int, target: Target, tolerance: real)
    requires PlausiblePlain(t) && Spread(t, current) && 0.0 <= tolerance
    ensures PlainDirected(Average(t), PlainReplicas(t, current, target, tolerance), current, target)
      <==> !PlainTips(t, current, target, tolerance)
  {
    if Average(t) <= target {
      UpToTarget(t, current, target, tolerance);
    } else {
      AboveTarget(t, current, target, tolerance);
    }
    hide PlainReplicas, TruncDiv, Ratio, FilledAverage;
  }

  /** The head counts alone rule a tip out when strangers fit. */
  lemma {:induction false} PlainFitNeverTips(t: PlainTally, current: int, target: Target, tolerance: real)
    requires PlausiblePlain(t) && Spread(t, current) && PlainStrangersFit(t, current)
    ensures !PlainTips(t, current, target, tolerance)
  {
    var count, a := Kept(t) + t.missing, FilledAverage(t, target);
    if Average(t) <= target && 0 < t.missing {
      PlainRefillConservative(t, target);
      RatioVersusOne(Average(t), target);
      MulLe(a, target, count);
      MulLe(count, current, target);
    }
    hide TruncDiv, Ratio;
  }

  lemma {:induction false} PlainTallyDirection(t: PlainTally, current: int, target: Target, tolerance: real)
    requires PlausiblePlain(t) && Spread(t, current) && PlainStrangersFit(t, current) && 0.0 <= tolerance
    ensures var a, r := Average(t), PlainReplicas(t, current, target, tolerance);
      && (a > target ==> r >= current)
      && (a <= target ==> 0 <= r <= current)
      && (a == target && t.missing == 0 ==> r == current)
  {
    PlainFitNeverTips(t, current, target, tolerance);
    if Average(t) <= target {
      UpToTarget(t, current, target, tolerance);
    } else {
      AboveTarget(t, current, target, tolerance);
    }
    hide PlainReplicas, TruncDiv, PlainTips;
  }

  // ---- the exact guard on head counts ----

  datatype PlainSetting = PlainSetting(usage: nat, target: Target, tolerance: real)

  predicate PlainDirectedUnder(t: PlainTally, current: int, s: PlainSetting)
    requires 0 < Kept(t)
  {
    var chosen := t.(usage := s.usage);
    PlainDirected(Average(chosen), PlainReplicas(chosen, current, s.target, s.tolerance), current, s.target)
  }

  /** Over all usages, targets and tolerances, direction safety holds exactly when the strangers fit. */
  lemma {:induction false} PlainGuardIff(t: PlainTally, current: int)
    requires 0 < Kept(t) && Spread(t, current)
    ensures (forall s: PlainSetting | 0.0 <= s.tolerance :: PlainDirectedUnder(t, current, s))
      <==> PlainStrangersFit(t, current)
  {
    if PlainStrangersFit(t, current) {
      forall s: PlainSetting | 0.0 <= s.tolerance
        ensures PlainDirectedUnder(t, current, s)
      {
        PlainFitNeverTips(t.(usage := s.usage), current, s.target, s.tolerance);
        PlainDirectionIff(t.(usage := s.usage), current, s.target, s.tolerance);
      }
    } else {
      var s := PlainTippingSetting(t, current);
    }
  }

  /** With more strangers: one unit below a target of one more than the counted entries tips. */
  lemma {:induction false} PlainTippingSetting(t: PlainTally, current: int) returns (s: PlainSetting)
    requires 0 < Kept(t) && Spread(t, current) && !PlainStrangersFit(t, current)
    ensures 0.0 == s.tolerance && !PlainDirectedUnder(t, current, s)
  {
    var count := Kept(t) + t.missing;
    MulNonNegative(count, Kept(t));
    s := PlainSetting(count * Kept(t), count + 1, 0.0);
    var chosen := t.(usage := s.usage);
    TippingAverages(Kept(t), t.missing);
    TruncIsDiv(count * Kept(t), Kept(t));
    MulNonNegative(count + 1, t.missing);
    TruncIsDiv(count * Kept(t) + (count + 1) * t.missing, count);
    assert FilledAverage(chosen, s.target) == count;
    RatioVersusOne(count, count + 1);
    MulLe(current, count - 1, count + 1);
    assert (count - 1) * (count + 1) == count * count - 1;
    PlainDirectionIff(chosen, current, s.target, 0.0);
    hide PlainReplicas, TruncDiv, Ratio, FilledAverage;
  }

  lemma {:induction false} TippingAverages(kept: nat, missing: nat)
    requires 0 < kept
    ensures var count := kept + missing;
      count * kept / kept == count && (count * kept + (count + 1) * missing) / count == count
  {
    var count := kept + missing;
    DivAtLeast(count * kept, kept, count);
    DivAtLeast(count * kept, kept, count + 1);
    var total := count * kept + (count + 1) * missing;
    DistributeAdd(count, kept, missing);
    assert total == count * count + missing;
    DivAtLeast(total, count, count);
    DivAtLeast(total, count, count + 1);
  }

  // ---- monotonicity ----

  /**
   Loads on the same side of the target, or both exactly on it, are answered monotonically unless the lower
   one tips.
   */
  lemma {:induction false} PlainMonotoneSameSide(
    t: PlainTally, t': PlainTally, current: int, target: Target, tolerance: real)
    requires PlausiblePlain(t) && Spread(t, current) && 0.0 <= tolerance
    requires t' == t.(usage := t'.usage) && t.usage <= t'.usage && !PlainTips(t, current, target, tolerance)
    requires Average(t') < target || Average(t) == target == Average(t') || Average(t) > target
    ensures PlainReplicas(t, current, target, tolerance) <= PlainReplicas(t', current, target, tolerance)
  {
    var a, a' := Average(t), Average(t');
    var ratio, ratio' := PlainRatio(t, target), PlainRatio(t', target);
    TruncIsDiv(t.usage, Kept(t));
    TruncIsDiv(t'.usage, Kept(t));
    DivMonotone(t.usage, t'.usage, Kept(t));
    RatioMonotone(a, a', target);
    RatioVersusOne(a, target);
    RatioVersusOne(a', target);
    if a <= target {
      UpToTarget(t, current, target, tolerance);
    }
    if (t.unready == 0 || ratio <= 1.0) && t.missing == 0 {
      CeilScaled(ratio, t.ready);
      CeilScaled(ratio', t.ready);
      CeilScaledMonotone(ratio, ratio', t.ready);
    } else {
      PlainRefillConservative(t, target);
      PlainRefillConservative(t', target);
      var PlainLoad(usage, count) := PlainRefill(t, ratio, target);
      var usage' := PlainRefill(t', ratio', target).usage;
      MulNonNegative(target, t.missing);
      hide Ratio, TruncDiv, RoundUp, AfterRefill, PlainTips;
      PlainAfterRefillMonotone(ratio, ratio', usage, usage', count, current, target, tolerance);
    }
  }

  lemma {:induction false} PlainAfterRefillMonotone(
    ratio: real, ratio': real, usage: int, usage': int, count: nat, current: int, target: Target, tolerance: real)
    requires 0 < count && 0 <= usage <= usage' && 0.0 <= tolerance
    requires
      || (ratio <= 1.0 && ratio' <= 1.0 && TruncDiv(usage', count) <= target
          && AfterRefill(ratio, Ratio(TruncDiv(usage, count), target), count, current, tolerance) <= current)
      || (ratio > 1.0 && ratio' > 1.0 && current <= count)
    ensures AfterRefill(ratio, Ratio(TruncDiv(usage, count), target), count, current, tolerance)
         <= AfterRefill(ratio', Ratio(TruncDiv(usage', count), target), count, current, tolerance)
  {
    TruncIsDiv(usage, count);
    TruncIsDiv(usage', count);
    DivMonotone(usage, usage', count);
    var a, a' := TruncDiv(usage, count), TruncDiv(usage', count);
    RatioMonotone(a, a', target);
    RatioVersusOne(a, target);
    RatioVersusOne(a', target);
    hide TruncDiv, Ratio, RoundUp;
    CeilScaled(Ratio(a, target), count);
    CeilScaled(Ratio(a', target), count);
    CeilScaledMonotone(Ratio(a, target), Ratio(a', target), count);
  }

  /** The largest average below the target whose ratio to it is outside the tolerance. */
  function LastOutside(target: Target, tolerance: real): int {
    Ceil((1.0 - tolerance) * target as real) - 1
  }

  lemma {:induction false} OutsideUpTo(a: int, target: Target, tolerance: real)
    requires a <= target && 0.0 <= tolerance
    ensures Abs(1.0 - Ratio(a, target)) > tolerance <==> a <= LastOutside(target, tolerance)
  {
    RatioVersusOne(a, target);
    RatioTimes(a, target);
    MulOrder(Ratio(a, target), 1.0 - tolerance, target as real);
    hide Ratio;
  }

  /** No usage at all tips the tally: a condition on head counts, target and tolerance. */
  predicate NoUsageTips(t: PlainTally, current: int, target: Target, tolerance: real) {
    t.missing == 0 || LastOutside(target, tolerance) * (Kept(t) + t.missing) <= current * target
  }

  lemma {:induction false} NoUsageTipsHere(t: PlainTally, current: int, target: Target, tolerance: real)
    requires PlausiblePlain(t) && Spread(t, current) && 0.0 <= tolerance && NoUsageTips(t, current, target, tolerance)
    ensures !PlainTips(t, current, target, tolerance)
  {
    var a := FilledAverage(t, target);
    if Average(t) <= target && 0 < t.missing && Abs(1.0 - Ratio(a, target)) > tolerance {
      FilledUpToTarget(t, target);
      OutsideUpTo(a, target, tolerance);
      MulLe(a, LastOutside(target, tolerance), Kept(t) + t.missing);
    }
    hide Average, FilledAverage, LastOutside, Ratio;
  }

  lemma {:induction false} FilledUpToTarget(t: PlainTally, target: Target)
    requires PlausiblePlain(t) && Average(t) <= target
    ensures 0 <= FilledAverage(t, target) <= target
    ensures Average(t) < target ==> FilledAverage(t, target) < target
  {
    PlainRefillConservative(t, target);
    RatioVersusOne(Average(t), target);
    MulNonNegative(target, t.missing);
    TruncIsDiv(t.usage, Kept(t));
    hide Ratio, TruncDiv;
  }

  /** Otherwise the usage that is filled to exactly the last average outside the tolerance tips. */
  lemma {:induction false} TippingUsage(t: PlainTally, current: int, target: Target, tolerance: real) returns (u: nat)
    requires 0 < Kept(t) && Spread(t, current) && 0.0 <= tolerance && !NoUsageTips(t, current, target, tolerance)
    ensures u < Kept(t) * target && PlainTips(t.(usage := u), current, target, tolerance)
  {
    var x, n := LastOutside(target, tolerance), Kept(t) + t.missing;
    LastOutsideBelow(target, tolerance);
    hide LastOutside, Ratio, Average, FilledAverage;
    MulLe(t.missing, current, target);
    MulLe(x, target - 1, n);
    DistributeAdd(target, Kept(t), t.missing);
    Distribute(target, 1, n);
    u := x * n - t.missing * target;
    FilledTo(t, u, x, target);
    OutsideUpTo(x, target, tolerance);
  }

  lemma {:induction false} LastOutsideBelow(target: Target, tolerance: real)
    requires 0.0 <= tolerance
    ensures LastOutside(target, tolerance) < target
  {
    ProductNonNegative(tolerance, target as real);
    assert (1.0 - tolerance) * target as real == target as real - tolerance * target as real;
  }

  lemma {:induction false} FilledTo(t: PlainTally, u: nat, x: int, target: Target)
    requires 0 < Kept(t) && u < Kept(t) * target && u + target * t.missing == x * (Kept(t) + t.missing)
    ensures Average(t.(usage := u)) < target && FilledAverage(t.(usage := u), target) == x
  {
    var n := Kept(t) + t.missing;
    AverageVersusTarget(t.(usage := u), target);
    MulNonNegative(target, t.missing);
    TruncIsDiv(x * n, n);
    DivAtLeast(x * n, n, x);
    DivAtLeast(x * n, n, x + 1);
    DistributeAdd(n, x, 1);
    hide TruncDiv;
  }

  /** One unit above the target, zero fills for the missing pods reverse the direction, and the count is kept. */
  lemma {:induction false} JustAboveKeeps(t: PlainTally, current: int, target: Target, tolerance: real)
    requires 0 < Kept(t) && 0 < t.missing && 0.0 <= tolerance
    ensures PlainReplicas(t.(usage := Kept(t) * (target + 1)), current, target, tolerance) == current
  {
    var total, count := Kept(t) * (target + 1), Kept(t) + t.missing + t.unready;
    WholeAverages(Kept(t), t.missing + t.unready, target + 1);
    RatioVersusOne(target + 1, target);
    RatioVersusOne(TruncDiv(total, count), target);
    hide Ratio, TruncDiv, RoundUp;
  }

  lemma {:induction false} WholeAverages(kept: nat, more: nat, x: nat)
    requires 0 < kept && 0 < more && 0 < x
    ensures TruncDiv(kept * x, kept) == x && TruncDiv(kept * x, kept + more) < x
  {
    MulNonNegative(kept, x);
    TruncIsDiv(kept * x, kept);
    TruncIsDiv(kept * x, kept + more);
    hide TruncDiv;
    DivAtLeast(kept * x, kept, x);
    DivAtLeast(kept * x, kept, x + 1);
    PositiveProduct(more, x);
    DivAtLeast(kept * x, kept + more, x);
  }

  // ---- landing on the target ----

  /** The average of the kept entries, each exactly on target, once the missing pods are filled with zeros. */
  function ThinnedOnTarget(t: PlainTally, target: Target): int
    requires 0 < Kept(t)
  {
    Kept(t) * target / (Kept(t) + t.missing)
  }

  /**
   Landing exactly on the target does no harm: no pod is missing, or so few that the floored
   average loses only one unit, or the zero fill stays within tolerance.
   */
  predicate OnTargetIsHarmless(t: PlainTally, target: Target, tolerance: real)
    requires 0 < Kept(t)
  {
    || t.missing * target <= Kept(t) + t.missing
    || Abs(1.0 - Ratio(ThinnedOnTarget(t, target), target)) <= tolerance
  }

  /**
   The same when entries of unlisted pods are counted: the zero fill may then be rounded up to the
   current count, which no answer below the target exceeds if the last one is within tolerance.
   */
  predicate LandsWell(t: PlainTally, current: int, target: Target, tolerance: real)
    requires 0 < Kept(t)
  {
    || OnTargetIsHarmless(t, target, tolerance)
    || (Abs(1.0 - Ratio(target - 1, target)) <= tolerance
        && ThinnedOnTarget(t, target) * (Kept(t) + t.missing) > (current - 1) * target)
  }

  function KeepOrRound(average: int, count: nat, current: int, target: Target, tolerance: real): int {
    if Abs(1.0 - Ratio(average, target)) <= tolerance then current else RoundUp(Ratio(average, target), count)
  }

  lemma {:induction false} JustBelowAverages(kept: nat, missing: nat, target: Target)
    requires 0 < kept
    ensures (kept * target - 1) / kept == target - 1
    ensures (kept * target - 1 + target * missing) / (kept + missing) == target - 1
  {
    DivAtLeast(kept * target - 1, kept, target - 1);
    DivAtLeast(kept * target - 1, kept, target);
    DistributeAdd(target, kept, missing);
    var total := kept * target - 1 + target * missing;
    Distribute(target, 1, kept);
    Distribute(target, 1, kept + missing);
    DivAtLeast(total, kept + missing, target - 1);
    DivAtLeast(total, kept + missing, target);
  }

  /** One unit of usage below the target the missing pods are charged the target. */
  lemma {:induction false} JustBelowTarget(t: PlainTally, current: int, target: Target, tolerance: real)
    requires PlausiblePlain(t) && 0 < t.missing
    ensures PlainReplicas(t.(usage := Kept(t) * target - 1), current, target, tolerance)
      == KeepOrRound(target - 1, Kept(t) + t.missing, current, target, tolerance)
  {
    PositiveProduct(Kept(t), target);
    MulNonNegative(target, t.missing);
    JustBelowAverages(Kept(t), t.missing, target);
    TruncIsDiv(Kept(t) * target - 1, Kept(t));
    TruncIsDiv(Kept(t) * target - 1 + target * t.missing, Kept(t) + t.missing);
    RatioVersusOne(target - 1, target);
    hide Ratio, RoundUp, TruncDiv;
  }

  /** On the target they are charged nothing. */
  lemma {:induction false} ExactlyOnTarget(t: PlainTally, current: int, target: Target, tolerance: real)
    requires PlausiblePlain(t) && 0 < t.missing
    ensures PlainReplicas(t.(usage := Kept(t) * target), current, target, tolerance)
      == KeepOrRound(ThinnedOnTarget(t, target), Kept(t) + t.missing, current, target, tolerance)
  {
    PositiveProduct(Kept(t), target);
    AverageVersusTarget(t.(usage := Kept(t) * target), target);
    TruncIsDiv(Kept(t) * target, Kept(t) + t.missing);
    RatioVersusOne(target, target);
    hide Ratio, RoundUp, TruncDiv;
  }

  lemma {:induction false} ThinnedBounds(t: PlainTally, target: Target)
    requires 0 < Kept(t)
    ensures 0 <= ThinnedOnTarget(t, target) && ThinnedOnTarget(t, target) * (Kept(t) + t.missing) <= Kept(t) * target
    ensures 0 < t.missing && t.missing * target <= Kept(t) + t.missing ==> ThinnedOnTarget(t, target) == target - 1
  {
    var n, total := Kept(t) + t.missing, Kept(t) * target;
    MulNonNegative(Kept(t), target);
    DivAtLeast(total, n, 0);
    DivAtLeast(total, n, total / n);
    DivAtLeast(total, n, target - 1);
    DivAtLeast(total, n, target);
    DistributeAdd(target, Kept(t), t.missing);
    Distribute(target, 1, n);
    if 0 < t.missing {
      PositiveProduct(target, t.missing);
    }
  }

  /** With more pods missing than that, the count computed on the target is below the one computed just below it. */
  lemma {:induction false} ThinnedRoundsLower(t: PlainTally, target: Target)
    requires 0 < Kept(t) && t.missing * target > Kept(t) + t.missing
    ensures var n := Kept(t) + t.missing;
      RoundUp(Ratio(ThinnedOnTarget(t, target), target), n) <= Kept(t) < RoundUp(Ratio(target - 1, target), n)
  {
    var n, f := Kept(t) + t.missing, ThinnedOnTarget(t, target);
    ThinnedBounds(t, target);
    CeilOfRatio(f, target, n);
    CeilOfRatio(target - 1, target, n);
    hide RoundUp, Ratio, ThinnedOnTarget;
    var low, high := RoundUp(Ratio(f, target), n), RoundUp(Ratio(target - 1, target), n);
    if low > Kept(t) {
      MulLe(Kept(t), low - 1, target);
      assert false;
    }
    if high <= Kept(t) {
      MulLe(high, Kept(t), target);
      DistributeAdd(target, Kept(t), t.missing);
      Distribute(target, 1, n);
      assert false;
    }
  }

  /** Up to the target, with pods missing, the answer is kept or rounded from the filled average. */
  lemma {:induction false} FilledAnswer(t: PlainTally, current: int, target: Target, tolerance: real)
    requires PlausiblePlain(t) && 0 < t.missing && Average(t) <= target && 0.0 <= tolerance
    ensures PlainReplicas(t, current, target, tolerance)
      == KeepOrRound(FilledAverage(t, target), Kept(t) + t.missing, current, target, tolerance)
  {
    RatioVersusOne(Average(t), target);
    FilledUpToTarget(t, target);
    RatioVersusOne(FilledAverage(t, target), target);
    hide Ratio, RoundUp, TruncDiv;
  }

  /** On the target the filled average is at least the thinned one. */
  lemma {:induction false} ThinnedIsLeast(t: PlainTally, target: Target)
    requires PlausiblePlain(t) && Average(t) == target
    ensures ThinnedOnTarget(t, target) <= FilledAverage(t, target)
  {
    var n := Kept(t) + t.missing;
    AverageVersusTarget(t, target);
    TruncIsDiv(t.usage, n);
    DivMonotone(Kept(t) * target, t.usage, n);
    hide TruncDiv, Average;
  }

  lemma {:induction false} RoundUpMonotone(a: int, a': int, target: Target, count: nat)
    requires a <= a'
    ensures RoundUp(Ratio(a, target), count) <= RoundUp(Ratio(a', target), count)
  {
    RatioMonotone(a, a', target);
    CeilScaledMonotone(Ratio(a, target), Ratio(a', target), count);
    hide Ratio, RoundUp;
  }

  /** A load below the target that does not tip is answered with no more than one exactly on it. */
  lemma {:induction false} OntoTarget(t: PlainTally, t': PlainTally, current: int, target: Target, tolerance: real)
    requires PlausiblePlain(t) && Spread(t, current) && 0.0 <= tolerance
    requires t' == t.(usage := t'.usage) && t.usage <= t'.usage && !PlainTips(t, current, target, tolerance)
    requires Average(t) < target == Average(t') && LandsWell(t, current, target, tolerance)
    ensures PlainReplicas(t, current, target, tolerance) <= PlainReplicas(t', current, target, tolerance)
  {
    UpToTarget(t, current, target, tolerance);
    UpToTarget(t', current, target, tolerance);
    if 0 < t.missing {
      var a, a', n := FilledAverage(t, target), FilledAverage(t', target), Kept(t) + t.missing;
      FilledAnswer(t, current, target, tolerance);
      FilledAnswer(t', current, target, tolerance);
      FilledUpToTarget(t, target);
      FilledUpToTarget(t', target);
      ThinnedIsLeast(t', target);
      ThinnedBounds(t, target);
      hide PlainReplicas, PlainTips, Average, FilledAverage;
      KeepsOrRises(a, a', ThinnedOnTarget(t, target), n, current, target, tolerance);
      hide Ratio, RoundUp, ThinnedOnTarget, KeepOrRound;
    }
  }

  /** The arithmetic of landing: `thin` is the least average on the target, `a` one below it and `a'` one on it. */
  lemma {:induction false} KeepsOrRises(
    a: int, a': int, thin: int, count: nat, current: int, target: Target, tolerance: real)
    requires 0 <= a < target && 0 <= thin <= a' <= target && 0.0 <= tolerance
    requires KeepOrRound(a, count, current, target, tolerance) <= current
    requires
      || thin == target - 1
      || Abs(1.0 - Ratio(thin, target)) <= tolerance
      || thin * count > (current - 1) * target
    ensures KeepOrRound(a, count, current, target, tolerance) <= KeepOrRound(a', count, current, target, tolerance)
  {
    OutsideUpTo(a, target, tolerance);
    OutsideUpTo(a', target, tolerance);
    OutsideUpTo(thin, target, tolerance);
    RoundUpMonotone(thin, a', target, count);
    if a <= a' {
      RoundUpMonotone(a, a', target, count);
    }
    RoundsAbove(thin, target, count, current - 1);
    hide Ratio, RoundUp, LastOutside;
  }

  /** Loads that avoid the exact target, or land on it well, are answered monotonically unless the lower one tips. */
  lemma {:induction false} PlainMonotone(
    t: PlainTally, t': PlainTally, current: int, target: Target, tolerance: real)
    requires PlausiblePlain(t) && Spread(t, current) && 0.0 <= tolerance
    requires t' == t.(usage := t'.usage) && t.usage <= t'.usage && !PlainTips(t, current, target, tolerance)
    requires LandsWell(t, current, target, tolerance) || (Average(t) != target && Average(t') != target)
    ensures PlainReplicas(t, current, target, tolerance) <= PlainReplicas(t', current, target, tolerance)
  {
    TruncIsDiv(t.usage, Kept(t));
    TruncIsDiv(t'.usage, Kept(t));
    DivMonotone(t.usage, t'.usage, Kept(t));
    hide PlainReplicas, TruncDiv, PlainTips, LandsWell;
    if Average(t') < target || Average(t) > target || Average(t) == target == Average(t') {
      PlainMonotoneSameSide(t, t', current, target, tolerance);
    } else if Average(t') == target {
      OntoTarget(t, t', current, target, tolerance);
    } else {
      UpToTarget(t, current, target, tolerance);
      AboveTarget(t', current, target, tolerance);
    }
  }

  /** Where the landing is not good, the answer on the target is below the one just below it. */
  lemma {:induction false} LandingDrops(t: PlainTally, current: int, target: Target, tolerance: real)
    requires PlausiblePlain(t) && 0.0 <= tolerance && !LandsWell(t, current, target, tolerance)
    ensures 0 < Kept(t) * target
    ensures PlainReplicas(t.(usage := Kept(t) * target - 1), current, target, tolerance)
          > PlainReplicas(t.(usage := Kept(t) * target), current, target, tolerance)
  {
    PositiveProduct(Kept(t), target);
    JustBelowTarget(t, current, target, tolerance);
    ExactlyOnTarget(t, current, target, tolerance);
    ThinnedRoundsLower(t, target);
    RoundsAbove(ThinnedOnTarget(t, target), target, Kept(t) + t.missing, current - 1);
    hide PlainReplicas, Ratio, RoundUp, ThinnedOnTarget;
  }

  // ---- the exact condition ----

  /** No usage tips, and landing on the target is good. */
  predicate Steady(t: PlainTally, current: int, target: Target, tolerance: real)
    requires 0 < Kept(t)
  {
    NoUsageTips(t, current, target, tolerance) && LandsWell(t, current, target, tolerance)
  }

  predicate MonotoneAt(t: PlainTally, current: int, target: Target, tolerance: real, u: nat, u': nat)
    requires 0 < Kept(t)
  {
    u <= u' ==>
      PlainReplicas(t.(usage := u), current, target, tolerance)
        <= PlainReplicas(t.(usage := u'), current, target, tolerance)
  }

  /**
   Over all usages, entries of unlisted pods included, the answers are monotone exactly when the head
   counts, the target and the tolerance rule out a tip and let the average land on the target.
   */
  lemma {:induction false} PlainMonotoneIff(t: PlainTally, current: int, target: Target, tolerance: real)
    requires PlausiblePlain(t) && Spread(t, current) && 0.0 <= tolerance
    ensures (forall u: nat, u': nat :: MonotoneAt(t, current, target, tolerance, u, u'))
      <==> Steady(t, current, target, tolerance)
  {
    if Steady(t, current, target, tolerance) {
      forall u: nat, u': nat
        ensures MonotoneAt(t, current, target, tolerance, u, u')
      {
        SteadyIsMonotone(t, current, target, tolerance, u, u');
      }
    } else {
      var u, u' := Drop(t, current, target, tolerance);
    }
  }

  lemma {:induction false} SteadyIsMonotone(
    t: PlainTally, current: int, target: Target, tolerance: real, u: nat, u': nat)
    requires PlausiblePlain(t) && Spread(t, current) && 0.0 <= tolerance && Steady(t, current, target, tolerance)
    ensures MonotoneAt(t, current, target, tolerance, u, u')
  {
    if u <= u' {
      NoUsageTipsHere(t.(usage := u), current, target, tolerance);
      PlainMonotone(t.(usage := u), t.(usage := u'), current, target, tolerance);
    }
    hide PlainReplicas, PlainTips, LastOutside, ThinnedOnTarget, Ratio, Average;
  }

  /** Two usages that are answered the wrong way round. */
  lemma {:induction false} Drop(t: PlainTally, current: int, target: Target, tolerance: real) returns (u: nat, u': nat)
    requires PlausiblePlain(t) && Spread(t, current) && 0.0 <= tolerance && !Steady(t, current, target, tolerance)
    ensures !MonotoneAt(t, current, target, tolerance, u, u')
  {
    if NoUsageTips(t, current, target, tolerance) {
      LandingDrops(t, current, target, tolerance);
      u, u' := Kept(t) * target - 1, Kept(t) * target;
    } else {
      u := TippingUsage(t, current, target, tolerance);
      u' := Kept(t) * (target + 1);
      DistributeAdd(Kept(t), target, 1);
      UpToTarget(t.(usage := u), current, target, tolerance);
      JustAboveKeeps(t, current, target, tolerance);
    }
    hide PlainReplicas, LastOutside, LandsWell, Average;
  }

  /** When strangers fit, landing on the target is all that matters. */
  lemma {:induction false} FitIsSteadyIff(t: PlainTally, current: int, target: Target, tolerance: real)
    requires 0 < Kept(t) && Spread(t, current) && PlainStrangersFit(t, current) && 0.0 <= tolerance
    ensures Steady(t, current, target, tolerance) <==> OnTargetIsHarmless(t, target, tolerance)
  {
    if 0 < t.missing {
      var x, n := LastOutside(target, tolerance), Kept(t) + t.missing;
      LastOutsideBelow(target, tolerance);
      MulLe(x, target, n);
      MulLe(n, current, target);
      ThinnedBounds(t, target);
      MulLe(Kept(t), current - 1, target);
      hide LastOutside, Ratio, ThinnedOnTarget;
    }
  }

  lemma {:induction false} AverageVersusTarget(t: PlainTally, target: Target)
    requires PlausiblePlain(t)
    ensures Average(t) >= target <==> t.usage >= Kept(t) * target
    ensures t.usage == Kept(t) * target ==> Average(t) == target
  {
    TruncIsDiv(t.usage, Kept(t));
    DivAtLeast(t.usage, Kept(t), target);
    DivAtLeast(t.usage, Kept(t), target + 1);
  }

  /** A computed plain proposal carries the counted total, and one pod less would not carry the floored average. */
  lemma {:induction false} PlainCapacity(usage: int, count: int, target: Target)
    requires 0 <= usage && 0 < count
    ensures var r := RoundUp(Ratio(TruncDiv(usage, count), target), count);
      usage - count < r * target < usage + target
  {
    var a := TruncDiv(usage, count);
    TruncIsDiv(usage, count);
    DivAtLeast(usage, count, a);
    DivAtLeast(usage, count, a + 1);
    CeilOfRatio(a, target, count);
    var r := RoundUp(Ratio(a, target), count);
    assert (r - 1) * target == r * target - target;
    assert (a + 1) * count == a * count + count;
  }

  /** Every plain proposal either keeps the current count or is sized by the counted load. */
  lemma {:induction false} PlainKeepsOrFits(t: PlainTally, current: int, target: Target, tolerance: real)
    requires PlausiblePlain(t)
    ensures var a, ratio, r := Average(t), PlainRatio(t, target), PlainReplicas(t, current, target, tolerance);
      var PlainLoad(usage, count) := PlainRefill(t, ratio, target);
      || r == current
      || (if (t.unready == 0 || ratio <= 1.0) && t.missing == 0
          then a * t.ready <= r * target < a * t.ready + target
            && (t.extra == 0 ==> t.usage - t.ready < r * target < t.usage + target)
          else usage - count < r * target < usage + target)
  {
    var ratio := PlainRatio(t, target);
    if (t.unready == 0 || ratio <= 1.0) && t.missing == 0 {
      var r := RoundUp(ratio, t.ready);
      CeilOfRatio(Average(t), target, t.ready);
      Distribute(r, 1, target);
      if t.extra == 0 {
        PlainCapacity(t.usage, t.ready, target);
      }
    } else {
      var PlainLoad(usage, count) := PlainRefill(t, ratio, target);
      MulNonNegative(target, t.missing);
      PlainCapacity(usage, count, target);
    }
    hide RoundUp, Ratio, TruncDiv;
  }

  // ---- over pods and metrics ----

  lemma {:induction false} PlainTallyOfPods(pods: set<Pod>, metrics: Metrics, current: int)
    requires Injective(pods) && Accounted(pods, metrics, current)
    ensures var t := PlainTallyOf(pods, metrics);
      && 0 <= t.usage && Spread(t, current)
      && (PlainStrangersFit(t, current) <==> StrangersFit(pods, metrics))
  {
    var kept := metrics - NotReadyNames(pods);
    ClassesPartition(pods, metrics);
    SumNonNegative(kept, kept.Keys);
  }

  ghost predicate PlainOnTheSideOf(r: Result<Proposal, CalcError>, current: int, target: Target) {
    r.Ok? ==> PlainDirected(r.value.utilization, r.value.replicas, current, target)
  }

  ghost predicate PlainTipsOver(pods: set<Pod>, metrics: Metrics, current: int, target: Target, tolerance: real) {
    var t := PlainTallyOf(pods, metrics);
    0 < Kept(t) && PlainTips(t, current, target, tolerance)
  }

  lemma {:induction false} PlainOutcomeDirectionIff(
    t: PlainTally, current: int, target: Target, tolerance: real, timestamp: Time)
    requires 0 <= t.usage && Spread(t, current) && 0.0 <= tolerance
    ensures PlainOnTheSideOf(PlainTallyOutcome(t, current, target, tolerance, timestamp), current, target)
      <==> !(0 < Kept(t) && PlainTips(t, current, target, tolerance))
  {
    hide PlainReplicas, TruncDiv, PlainTips, PlainDirected;
    if 0 < Kept(t) {
      PlainDirectionIff(t, current, target, tolerance);
    }
  }

  lemma {:induction false} PlainTallyOfPodsDirectionIff(
    pods: set<Pod>, metrics: Metrics, timestamp: Time, current: int, target: Target, tolerance: real)
    requires Injective(pods) && Accounted(pods, metrics, current) && 0.0 <= tolerance
    ensures PlainOnTheSideOf(
        PlainTallyOutcome(PlainTallyOf(pods, metrics), current, target, tolerance, timestamp), current, target)
      <==> !PlainTipsOver(pods, metrics, current, target, tolerance)
  {
    hide PlainTallyOf, PlainTallyOutcome, PlainOnTheSideOf, Accounted, Injective, SumOf, ReadyNames, PlainTips;
    hide StrangersFit, PlainStrangersFit;
    PlainTallyOfPods(pods, metrics, current);
    PlainOutcomeDirectionIff(PlainTallyOf(pods, metrics), current, target, tolerance, timestamp);
  }

  /**
   Over all pods and metrics, strangers included: direction safety holds exactly when the tally of the pods
   does not tip.
   */
  lemma {:induction false} PlainDirectionOfPodsIff(
    pods: set<Pod>, metrics: Metrics, timestamp: Time, current: int, target: Target, tolerance: real)
    requires Injective(pods) && Accounted(pods, metrics, current) && 0.0 <= tolerance
    ensures PlainOnTheSideOf(PlainOutcome(pods, metrics, timestamp, current, target, tolerance), current, target)
      <==> NoneListed(pods) || !PlainTipsOver(pods, metrics, current, target, tolerance)
  {
    hide PlainTallyOf, PlainTallyOutcome, NoneListed, Accounted, Injective, PlainTipsOver;
    PlainTallyOfPodsDirectionIff(pods, metrics, timestamp, current, target, tolerance);
  }

  lemma {:induction false} PlainFittingStrangersNeverTip(
    pods: set<Pod>, metrics: Metrics, current: int, target: Target, tolerance: real)
    requires Injective(pods) && Accounted(pods, metrics, current) && StrangersFit(pods, metrics)
    ensures !PlainTipsOver(pods, metrics, current, target, tolerance)
  {
    hide PlainTallyOf, Accounted, Injective, StrangersFit, PlainStrangersFit, PlainTips, Spread;
    PlainTallyOfPods(pods, metrics, current);
    var t := PlainTallyOf(pods, metrics);
    if 0 < Kept(t) {
      PlainFitNeverTips(t, current, target, tolerance);
    }
  }

  /** Direction safety of the plain path, through every fill; on target it may still lower the count. */
  lemma {:induction false} PlainDirectionSafety(
    pods: set<Pod>, metrics: Metrics, timestamp: Time, current: int, target: Target, tolerance: real)
    requires Injective(pods) && Accounted(pods, metrics, current) && StrangersFit(pods, metrics) && 0.0 <= tolerance
    ensures PlainOnTheSideOf(PlainOutcome(pods, metrics, timestamp, current, target, tolerance), current, target)
  {
    hide PlainOutcome, PlainOnTheSideOf, Accounted, Injective, PlainTipsOver, StrangersFit;
    PlainFittingStrangersNeverTip(pods, metrics, current, target, tolerance);
    PlainDirectionOfPodsIff(pods, metrics, timestamp, current, target, tolerance);
  }

  // ---- monotonicity over pods and metrics ----

  /** The same pods report, and no entry that the pod loop keeps reports less. */
  ghost predicate KeptLoadGrows(pods: set<Pod>, low: Metrics, high: Metrics) {
    low.Keys == high.Keys && forall k :: k in low && k !in NotReadyNames(pods) ==> low[k] <= high[k]
  }

  lemma {:induction false} PlainTallyUnderLoad(pods: set<Pod>, low: Metrics, high: Metrics)
    requires KeptLoadGrows(pods, low, high)
    ensures var t, t' := PlainTallyOf(pods, low), PlainTallyOf(pods, high);
      t' == t.(usage := t'.usage) && t.usage <= t'.usage
  {
    var kept, kept' := low - NotReadyNames(pods), high - NotReadyNames(pods);
    SameClassesUnderLoad(pods, low, high);
    assert kept.Keys == kept'.Keys;
    SumMonotone(kept, kept', kept.Keys);
    hide ReadyNames, MissingNames, NotReadyNames, Names, SumOf;
  }

  ghost predicate PlainNoFewer(low: Result<Proposal, CalcError>, high: Result<Proposal, CalcError>) {
    && (low.Err? ==> high == low)
    && (low.Ok? ==> high.Ok? && low.value.replicas <= high.value.replicas)
  }

  /** The loads land on the target well, or neither of them averages exactly the target. */
  predicate AvoidsHarm(t: PlainTally, t': PlainTally, current: int, target: Target, tolerance: real) {
    0 < Kept(t) && 0 < Kept(t') ==>
      LandsWell(t, current, target, tolerance) || (Average(t) != target && Average(t') != target)
  }

  lemma {:induction false} PlainOutcomeMonotone(
    t: PlainTally, t': PlainTally, current: int, target: Target, tolerance: real, timestamp: Time, timestamp': Time)
    requires 0 <= t.usage && Spread(t, current) && 0.0 <= tolerance
    requires t' == t.(usage := t'.usage) && t.usage <= t'.usage
    requires !(0 < Kept(t) && PlainTips(t, current, target, tolerance))
    requires AvoidsHarm(t, t', current, target, tolerance)
    ensures PlainNoFewer(PlainTallyOutcome(t, current, target, tolerance, timestamp),
                         PlainTallyOutcome(t', current, target, tolerance, timestamp'))
  {
    hide PlainReplicas, TruncDiv, LandsWell, PlainTips;
    if 0 < Kept(t) {
      PlainMonotone(t, t', current, target, tolerance);
    }
  }

  lemma {:induction false} PlainTalliesUnderLoad(
    pods: set<Pod>, low: Metrics, high: Metrics, t1: Time, t2: Time, current: int, target: Target, tolerance: real)
    requires Injective(pods) && Accounted(pods, low, current) && 0.0 <= tolerance
    requires KeptLoadGrows(pods, low, high) && !PlainTipsOver(pods, low, current, target, tolerance)
    requires AvoidsHarm(PlainTallyOf(pods, low), PlainTallyOf(pods, high), current, target, tolerance)
    ensures PlainNoFewer(PlainTallyOutcome(PlainTallyOf(pods, low), current, target, tolerance, t1),
                         PlainTallyOutcome(PlainTallyOf(pods, high), current, target, tolerance, t2))
  {
    hide PlainTallyOf, PlainTallyOutcome, PlainNoFewer, AvoidsHarm, Accounted, Injective, KeptLoadGrows, StrangersFit;
    hide PlainStrangersFit, Spread, PlainTips;
    PlainTallyOfPods(pods, low, current);
    PlainTallyUnderLoad(pods, low, high);
    PlainOutcomeMonotone(PlainTallyOf(pods, low), PlainTallyOf(pods, high), current, target, tolerance, t1, t2);
  }

  /**
   More usage of the kept entries never lowers the plain proposal, unless the lower load tips or one of
   the loads sits exactly on the target where that is not good.
   */
  lemma {:induction false} PlainMonotoneInLoad(
    pods: set<Pod>, low: Metrics, high: Metrics, t1: Time, t2: Time, current: int, target: Target, tolerance: real)
    requires Injective(pods) && Accounted(pods, low, current) && 0.0 <= tolerance
    requires KeptLoadGrows(pods, low, high) && !PlainTipsOver(pods, low, current, target, tolerance)
    requires AvoidsHarm(PlainTallyOf(pods, low), PlainTallyOf(pods, high), current, target, tolerance)
    ensures PlainNoFewer(PlainOutcome(pods, low, t1, current, target, tolerance),
                         PlainOutcome(pods, high, t2, current, target, tolerance))
  {
    if !NoneListed(pods) {
      hide PlainTallyOf, PlainTallyOutcome, NoneListed, AvoidsHarm, Accounted, KeptLoadGrows, Injective, PlainTipsOver;
      PlainTalliesUnderLoad(pods, low, high, t1, t2, current, target, tolerance);
    }
  }

  // ---- the exact conditions over pods and metrics ----

  /** With the same keys only the sum over the kept entries can differ. */
  lemma {:induction false} KeptOnly(pods: set<Pod>, metrics: Metrics, low: Metrics)
    requires Injective(pods) && low.Keys == metrics.Keys
    ensures var kept := low - NotReadyNames(pods);
      && kept.Keys == (metrics - NotReadyNames(pods)).Keys
      && |kept.Keys| == Kept(PlainTallyOf(pods, metrics))
      && PlainTallyOf(pods, low) == PlainTallyOf(pods, metrics).(usage := SumOf(kept, kept.Keys))
  {
    SameClassesUnderLoad(pods, low, metrics);
    KeptSize(pods, low);
    MapSize(low - NotReadyNames(pods));
    hide ReadyNames, MissingNames, NotReadyNames, Names, SumOf;
  }

  lemma {:induction false} ConcentratedTally(pods: set<Pod>, metrics: Metrics, k: string, usage: int)
    requires Injective(pods) && k in metrics && k !in NotReadyNames(pods)
    ensures PlainTallyOf(pods, Concentrated(metrics, k, usage)) == PlainTallyOf(pods, metrics).(usage := usage)
  {
    var low := Concentrated(metrics, k, usage);
    assert low.Keys == metrics.Keys;
    var kept := (metrics - NotReadyNames(pods)).Keys;
    assert k in kept && kept <= metrics.Keys && (low - NotReadyNames(pods)).Keys == kept;
    hide PlainTallyOf, SumOf, NotReadyNames, Injective, Kept;
    KeptOnly(pods, metrics, low);
    hide Concentrated;
    ConcentratedSum(metrics, kept, k, usage);
    SumAgree(low - NotReadyNames(pods), low, kept);
  }

  lemma {:induction false} ConcentratedGrows(pods: set<Pod>, metrics: Metrics, k: string, u: nat, u': nat)
    requires u <= u'
    ensures var low := Concentrated(metrics, k, u);
      low.Keys == metrics.Keys && NonNegative(low) && KeptLoadGrows(pods, low, Concentrated(metrics, k, u'))
  {
    hide NotReadyNames;
  }

  lemma {:induction false} SomeKept(pods: set<Pod>, metrics: Metrics) returns (k: string)
    requires Injective(pods) && 0 < Kept(PlainTallyOf(pods, metrics))
    ensures k in metrics && k !in NotReadyNames(pods)
  {
    KeptOnly(pods, metrics, metrics);
    hide PlainTallyOf, NotReadyNames, SumOf;
    k :| k in (metrics - NotReadyNames(pods)).Keys;
  }

  lemma {:induction false} SameHeads(pods: set<Pod>, metrics: Metrics, low: Metrics)
    requires low.Keys == metrics.Keys
    ensures PlainTallyOf(pods, low) == PlainTallyOf(pods, metrics).(usage := PlainTallyOf(pods, low).usage)
    ensures StrangersFit(pods, low) <==> StrangersFit(pods, metrics)
  {
    SameClassesUnderLoad(pods, low, metrics);
    hide ReadyNames, MissingNames, NotReadyNames, UnreadyNames, Names, SumOf;
  }

  lemma {:induction false} ListedOutcome(
    pods: set<Pod>, metrics: Metrics, timestamp: Time, current: int, target: Target, tolerance: real)
    requires !NoneListed(pods)
    ensures PlainOutcome(pods, metrics, timestamp, current, target, tolerance)
      == PlainTallyOutcome(PlainTallyOf(pods, metrics), current, target, tolerance, timestamp)
  {
    hide PlainTallyOf, PlainTallyOutcome;
  }

  /** Any two loads of the pods and entries of `metrics`. */
  ghost predicate PlainMonotoneFor(
    pods: set<Pod>, metrics: Metrics, low: Metrics, high: Metrics, current: int, target: Target, tolerance: real)
  {
    low.Keys == metrics.Keys && Accounted(pods, low, current) && KeptLoadGrows(pods, low, high) ==>
      forall t1: Time, t2: Time :: PlainNoFewer(PlainOutcome(pods, low, t1, current, target, tolerance),
                                                PlainOutcome(pods, high, t2, current, target, tolerance))
  }

  lemma {:induction false} SteadyLoads(
    pods: set<Pod>, metrics: Metrics, low: Metrics, high: Metrics, current: int, target: Target, tolerance: real)
    requires Injective(pods) && low.Keys == metrics.Keys && Accounted(pods, low, current) && 0.0 <= tolerance
    requires 0 < Kept(PlainTallyOf(pods, metrics)) && Steady(PlainTallyOf(pods, metrics), current, target, tolerance)
    ensures !PlainTipsOver(pods, low, current, target, tolerance)
    ensures AvoidsHarm(PlainTallyOf(pods, low), PlainTallyOf(pods, high), current, target, tolerance)
  {
    hide PlainTallyOf, Accounted, Injective, StrangersFit, PlainStrangersFit, PlainTips, AvoidsHarm, Steady, Spread;
    SameHeads(pods, metrics, low);
    PlainTallyOfPods(pods, low, current);
    SteadyTallies(PlainTallyOf(pods, metrics), PlainTallyOf(pods, low), PlainTallyOf(pods, high), current, target,
      tolerance);
  }

  lemma {:induction false} SteadyTallies(
    t: PlainTally, low: PlainTally, high: PlainTally, current: int, target: Target, tolerance: real)
    requires 0 < Kept(t) && low == t.(usage := low.usage) && 0 <= low.usage && Spread(low, current) && 0.0 <= tolerance
    requires Steady(t, current, target, tolerance)
    ensures !PlainTips(low, current, target, tolerance) && AvoidsHarm(low, high, current, target, tolerance)
  {
    hide PlainTips, Average, LastOutside, Ratio;
    NoUsageTipsHere(low, current, target, tolerance);
  }

  lemma {:induction false} SteadyPodsAreMonotone(
    pods: set<Pod>, metrics: Metrics, low: Metrics, high: Metrics, current: int, target: Target, tolerance: real)
    requires Injective(pods) && 0.0 <= tolerance
    requires 0 < Kept(PlainTallyOf(pods, metrics)) && Steady(PlainTallyOf(pods, metrics), current, target, tolerance)
    ensures PlainMonotoneFor(pods, metrics, low, high, current, target, tolerance)
  {
    hide PlainTallyOf, PlainOutcome, PlainNoFewer, Accounted, KeptLoadGrows, Injective, AvoidsHarm, Steady,
      PlainTipsOver;
    if low.Keys == metrics.Keys && Accounted(pods, low, current) && KeptLoadGrows(pods, low, high) {
      SteadyLoads(pods, metrics, low, high, current, target, tolerance);
      forall t1: Time, t2: Time {
        PlainMonotoneInLoad(pods, low, high, t1, t2, current, target, tolerance);
      }
    }
  }

  lemma {:induction false} TallyOutcomesDrop(
    t: PlainTally, current: int, target: Target, tolerance: real) returns (u: nat, u': nat)
    requires PlausiblePlain(t) && Spread(t, current) && 0.0 <= tolerance && !Steady(t, current, target, tolerance)
    ensures u <= u'
    ensures !PlainNoFewer(PlainTallyOutcome(t.(usage := u), current, target, tolerance, 0),
                          PlainTallyOutcome(t.(usage := u'), current, target, tolerance, 0))
  {
    u, u' := Drop(t, current, target, tolerance);
    hide PlainReplicas, TruncDiv, Spread, Steady;
  }

  lemma {:induction false} UnsteadyPodsDrop(
    pods: set<Pod>, metrics: Metrics, current: int, target: Target, tolerance: real)
    returns (low: Metrics, high: Metrics)
    requires Injective(pods) && Accounted(pods, metrics, current) && 0.0 <= tolerance && !NoneListed(pods)
    requires 0 < Kept(PlainTallyOf(pods, metrics)) && !Steady(PlainTallyOf(pods, metrics), current, target, tolerance)
    ensures !PlainMonotoneFor(pods, metrics, low, high, current, target, tolerance)
  {
    hide PlainTallyOf, PlainOutcome, PlainTallyOutcome, PlainNoFewer, KeptLoadGrows, Injective, Steady, NoneListed;
    hide Concentrated, NonNegative, NonFailedNames, NotReadyNames, Spread, StrangersFit;
    var k := SomeKept(pods, metrics);
    PlainTallyOfPods(pods, metrics, current);
    var u, u' := TallyOutcomesDrop(PlainTallyOf(pods, metrics), current, target, tolerance);
    low, high := Concentrated(metrics, k, u), Concentrated(metrics, k, u');
    ConcentratedGrows(pods, metrics, k, u, u');
    ConcentratedTally(pods, metrics, k, u);
    ConcentratedTally(pods, metrics, k, u');
    ListedOutcome(pods, low, 0, current, target, tolerance);
    ListedOutcome(pods, high, 0, current, target, tolerance);
    assert Accounted(pods, low, current);
    assert !PlainNoFewer(PlainOutcome(pods, low, 0, current, target, tolerance),
                         PlainOutcome(pods, high, 0, current, target, tolerance));
  }

  /**
   Over all loads of the pods and entries, unlisted ones included, monotonicity holds exactly when the
   tally is steady: a condition on the numbers of ready, missing and unlisted entries and of current
   pods, the target and the tolerance.
   */
  lemma {:induction false} PlainMonotoneOfPodsIff(
    pods: set<Pod>, metrics: Metrics, current: int, target: Target, tolerance: real)
    requires Injective(pods) && Accounted(pods, metrics, current) && 0.0 <= tolerance
    requires !NoneListed(pods) && 0 < Kept(PlainTallyOf(pods, metrics))
    ensures
      (forall low: Metrics, high: Metrics :: PlainMonotoneFor(pods, metrics, low, high, current, target, tolerance))
      <==> Steady(PlainTallyOf(pods, metrics), current, target, tolerance)
  {
    hide PlainTallyOf, PlainMonotoneFor, Accounted, Injective, Steady, NoneListed;
    if Steady(PlainTallyOf(pods, metrics), current, target, tolerance) {
      forall low: Metrics, high: Metrics
        ensures PlainMonotoneFor(pods, metrics, low, high, current, target, tolerance)
      {
        SteadyPodsAreMonotone(pods, metrics, low, high, current, target, tolerance);
      }
    } else {
      var low, high := UnsteadyPodsDrop(pods, metrics, current, target, tolerance);
    }
  }

  /** Direction safety of one load of the pods and entries of `metrics`. */
  ghost predicate PlainDirectedFor(
    pods: set<Pod>, metrics: Metrics, low: Metrics, current: int, target: Target, tolerance: real)
  {
    low.Keys == metrics.Keys && Accounted(pods, low, current) && 0.0 <= tolerance ==>
      PlainOnTheSideOf(PlainOutcome(pods, low, 0, current, target, tolerance), current, target)
  }

  lemma {:induction false} TippingLoad(pods: set<Pod>, metrics: Metrics, current: int)
    returns (low: Metrics, target: Target)
    requires Injective(pods) && Accounted(pods, metrics, current) && !NoneListed(pods)
    requires 0 < Kept(PlainTallyOf(pods, metrics)) && !StrangersFit(pods, metrics)
    ensures !PlainDirectedFor(pods, metrics, low, current, target, 0.0)
  {
    hide PlainTallyOf, PlainOutcome, Injective, NoneListed, Concentrated, NonNegative, NonFailedNames, NotReadyNames;
    hide Spread, StrangersFit, PlainStrangersFit, KeptLoadGrows, PlainReplicas, TruncDiv;
    var t := PlainTallyOf(pods, metrics);
    var k := SomeKept(pods, metrics);
    PlainTallyOfPods(pods, metrics, current);
    var s := PlainTippingSetting(t, current);
    low, target := Concentrated(metrics, k, s.usage), s.target;
    ConcentratedGrows(pods, metrics, k, s.usage, s.usage);
    ConcentratedTally(pods, metrics, k, s.usage);
    ListedOutcome(pods, low, 0, current, target, 0.0);
    assert Accounted(pods, low, current);
  }

  /**
   Given pods and metric keys, direction safety holds for all loads, targets and tolerances exactly when
   strangers fit.
   */
  lemma {:induction false} PlainGuardOfPodsIff(pods: set<Pod>, metrics: Metrics, current: int)
    requires Injective(pods) && Accounted(pods, metrics, current)
    requires !NoneListed(pods) && 0 < Kept(PlainTallyOf(pods, metrics))
    ensures
      (forall low: Metrics, target: Target, tolerance: real ::
        PlainDirectedFor(pods, metrics, low, current, target, tolerance))
      <==> StrangersFit(pods, metrics)
  {
    hide PlainTallyOf, PlainOnTheSideOf, PlainOutcome, Accounted, Injective, StrangersFit, NoneListed;
    if StrangersFit(pods, metrics) {
      forall low: Metrics, target: Target, tolerance: real
        ensures PlainDirectedFor(pods, metrics, low, current, target, tolerance)
      {
        if low.Keys == metrics.Keys && Accounted(pods, low, current) && 0.0 <= tolerance {
          SameHeads(pods, metrics, low);
          PlainDirectionSafety(pods, low, 0, current, target, tolerance);
        }
      }
    } else {
      var low, target := TippingLoad(pods, metrics, current);
    }
  }
}
