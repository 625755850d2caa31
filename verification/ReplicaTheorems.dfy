/**
 What the resource path guarantees about its proposals: direction safety and monotonicity
 in load, each with the exact condition on metric entries of pods that are not listed;
 conservative refills, capacity of the external paths, and independence of pod order.
 */
module ReplicaTheorems {
  import opened Wrappers
  import opened Arithmetic
  import opened PodMetrics
  import opened ReplicaCalculators

  // ---- direction, over tallies ----

  /** What every tally of non-negative metrics satisfies. */
  ghost predicate Plausible(t: Tally) {
    && 0 <= t.usage
    && (t.missing == 0 ==> t.missingRequest == 0)
    && (t.unready == 0 ==> t.unreadyRequest == 0)
  }

  function UsageRatio(t: Tally, target: Target): real
    requires 0 < t.readyRequest
  {
    Ratio(Percent(t.usage, t.readyRequest), target)
  }

  lemma {:induction false} PercentNonNegative(usage: int, request: nat)
    requires 0 <= usage && 0 < request
    ensures 0 <= Percent(usage, request) == usage * 100 / request
  {
    DivAtLeast(usage * 100, request, 0);
  }

  /** Above target at least, below target at most, on target exactly the current count. */
  predicate Directed(percent: int, replicas: int, current: int, target: Target) {
    && (percent > target ==> replicas >= current)
    && (percent < target ==> replicas <= current)
    && (percent == target ==> replicas == current)
  }

  /** The percentage after the missing pods were charged their full requests. */
  function Charged(t: Tally): int
    requires 0 < t.readyRequest
  {
    Percent(t.usage + t.missingRequest, t.readyRequest + t.missingRequest)
  }

  /**
   Below target, with pods missing, the charged percentage is outside the tolerance and, multiplied
   by every metric entry that is left, exceeds what the current pods would carry on target.
   */
  predicate Tips(t: Tally, current: int, target: Target, tolerance: real)
    requires 0 < t.readyRequest
  {
    && Percent(t.usage, t.readyRequest) < target && 0 < t.missing
    && Charged(t) <= target && Abs(1.0 - Ratio(Charged(t), target)) > tolerance
    && Charged(t) * (t.ready + t.extra + t.missing) > current * target
  }

  /** Entries of unlisted pods are at most as many as the unready pods, or no pod is missing. */
  predicate FewStrangers(t: Tally) {
    t.missing == 0 || t.extra <= t.unready
  }

  /** A rounded-up product exceeds a bound exactly when the product does. */
  lemma {:induction false} RoundsAbove(a: int, target: Target, count: nat, bound: int)
    ensures RoundUp(Ratio(a, target), count) > bound <==> a * count > bound * target
  {
    var r := RoundUp(Ratio(a, target), count);
    CeilOfRatio(a, target, count);
    if r > bound {
      MulLe(bound, r - 1, target);
    } else {
      MulLe(r, bound, target);
    }
  }

  /** Below target: the answer is above the current count exactly when the tally tips. */
  lemma {:induction false} BelowTarget(t: Tally, current: int, target: Target, tolerance: real)
    requires 0 < t.readyRequest && 0 <= t.usage && 0.0 <= tolerance
    requires current == t.ready + t.missing + t.unready
    requires Percent(t.usage, t.readyRequest) < target
    ensures ResourceReplicas(t, current, target, tolerance) > current <==> Tips(t, current, target, tolerance)
  {
    var ratio := UsageRatio(t, target);
    PercentNonNegative(t.usage, t.readyRequest);
    RatioVersusOne(Percent(t.usage, t.readyRequest), target);
    if t.missing == 0 {
      CeilScaled(ratio, t.ready);
    } else {
      RatioVersusOne(Charged(t), target);
      RoundsAbove(Charged(t), target, t.ready + t.extra + t.missing, current);
      hide RoundUp, Ratio, Percent;
    }
  }

  /** On or above target the direction is kept whatever entries are left. */
  lemma {:induction false} FromTargetUp(t: Tally, current: int, target: Target, tolerance: real)
    requires 0 < t.readyRequest && 0 <= t.usage && 0.0 <= tolerance
    requires current == t.ready + t.missing + t.unready
    ensures var u, r := Percent(t.usage, t.readyRequest), ResourceReplicas(t, current, target, tolerance);
      (u > target ==> r >= current) && (u == target ==> r == current)
  {
    var ratio := UsageRatio(t, target);
    PercentNonNegative(t.usage, t.readyRequest);
    RatioVersusOne(Percent(t.usage, t.readyRequest), target);
    if (t.unready == 0 || ratio <= 1.0) && t.missing == 0 {
      CeilScaled(ratio, t.ready);
    } else {
      var load := ResourceRefill(t, ratio);
      PercentNonNegative(load.usage, load.request);
      RatioVersusOne(Percent(load.usage, load.request), target);
      CeilScaled(Ratio(Percent(load.usage, load.request), target), load.count);
    }
  }

  /** Direction safety holds exactly when the tally does not tip. */
  lemma {:induction false} TallyDirectionIff(t: Tally, current: int, target: Target, tolerance: real)
    requires 0 < t.readyRequest && 0 <= t.usage && 0.0 <= tolerance
    requires current == t.ready + t.missing + t.unready
    ensures Directed(Percent(t.usage, t.readyRequest), ResourceReplicas(t, current, target, tolerance), current, target)
      <==> !Tips(t, current, target, tolerance)
  {
    FromTargetUp(t, current, target, tolerance);
    if Percent(t.usage, t.readyRequest) < target {
      BelowTarget(t, current, target, tolerance);
    }
    hide ResourceReplicas, Percent, Charged, Ratio;
  }

  /** The head counts alone rule a tip out when strangers are few. */
  lemma {:induction false} FewStrangersNeverTip(t: Tally, current: int, target: Target, tolerance: real)
    requires 0 < t.readyRequest && 0 <= t.usage && FewStrangers(t)
    requires current == t.ready + t.missing + t.unready
    ensures !Tips(t, current, target, tolerance)
  {
    var count := t.ready + t.extra + t.missing;
    if 0 < t.missing && Charged(t) <= target {
      MulLe(Charged(t), target, count);
      MulLe(count, current, target);
    }
    hide Charged, Percent, Ratio;
  }

  lemma {:induction false} TallyDirection(t: Tally, current: int, target: Target, tolerance: real)
    requires 0 < t.readyRequest && Plausible(t) && FewStrangers(t) && 0.0 <= tolerance
    requires current == t.ready + t.missing + t.unready
    ensures var ratio, r := UsageRatio(t, target), ResourceReplicas(t, current, target, tolerance);
      && (ratio > 1.0 ==> r >= current)
      && (ratio < 1.0 ==> r <= current)
      && (ratio == 1.0 ==> r == current)
  {
    FewStrangersNeverTip(t, current, target, tolerance);
    TallyDirectionIff(t, current, target, tolerance);
    RatioVersusOne(Percent(t.usage, t.readyRequest), target);
    hide ResourceReplicas, Percent, Ratio, Tips;
  }

  // ---- monotonicity, over tallies ----

  lemma {:induction false} PercentMonotone(usage: int, usage': int, request: nat)
    requires 0 <= usage <= usage' && 0 < request
    ensures Percent(usage, request) <= Percent(usage', request)
  {
    PercentNonNegative(usage, request);
    PercentNonNegative(usage', request);
    DivMonotone(usage * 100, usage' * 100, request);
  }

  /** On one side of the target the proposal can only follow the refilled ratio upward. */
  lemma {:induction false} AfterRefillMonotone(
    ratio: real, ratio': real, newRatio: real, newRatio': real, count: nat, current: int, tolerance: real)
    requires 0.0 <= tolerance && 0.0 <= newRatio <= newRatio'
    requires (ratio < 1.0 && ratio' < 1.0 && AfterRefill(ratio, newRatio, count, current, tolerance) <= current)
          || (ratio > 1.0 && ratio' > 1.0 && current <= count)
    ensures AfterRefill(ratio, newRatio, count, current, tolerance)
         <= AfterRefill(ratio', newRatio', count, current, tolerance)
  {
    CeilScaled(newRatio, count);
    CeilScaled(newRatio', count);
    CeilScaledMonotone(newRatio, newRatio', count);
    hide RoundUp;
  }

  /** More usage never lowers the answer, unless the answer to the smaller usage was a reversed one. */
  lemma {:induction false} TallyMonotone(t: Tally, t': Tally, current: int, target: Target, tolerance: real)
    requires 0 < t.readyRequest && 0 <= t.usage && 0.0 <= tolerance
    requires t' == t.(usage := t'.usage) && t.usage <= t'.usage
    requires current == t.ready + t.missing + t.unready && !Tips(t, current, target, tolerance)
    ensures ResourceReplicas(t, current, target, tolerance) <= ResourceReplicas(t', current, target, tolerance)
  {
    var u, u' := Percent(t.usage, t.readyRequest), Percent(t'.usage, t.readyRequest);
    PercentMonotone(t.usage, t'.usage, t.readyRequest);
    if (u < target && u' < target) || (u > target && u' > target) {
      TallyMonotoneSameSide(t, t', current, target, tolerance);
    } else {
      TallyDirectionIff(t, current, target, tolerance);
      FromTargetUp(t', current, target, tolerance);
      hide ResourceReplicas, Percent, Tips;
    }
  }

  lemma {:induction false} TallyMonotoneSameSide(
    t: Tally, t': Tally, current: int, target: Target, tolerance: real)
    requires 0 < t.readyRequest && 0 <= t.usage && 0.0 <= tolerance
    requires t' == t.(usage := t'.usage) && t.usage <= t'.usage
    requires current == t.ready + t.missing + t.unready && !Tips(t, current, target, tolerance)
    requires var u, u' := Percent(t.usage, t.readyRequest), Percent(t'.usage, t.readyRequest);
      u <= u' && ((u < target && u' < target) || (u > target && u' > target))
    ensures ResourceReplicas(t, current, target, tolerance) <= ResourceReplicas(t', current, target, tolerance)
  {
    var ratio, ratio' := UsageRatio(t, target), UsageRatio(t', target);
    PercentNonNegative(t.usage, t.readyRequest);
    RatioVersusOne(Percent(t.usage, t.readyRequest), target);
    RatioVersusOne(Percent(t'.usage, t.readyRequest), target);
    RatioMonotone(Percent(t.usage, t.readyRequest), Percent(t'.usage, t.readyRequest), target);
    TallyDirectionIff(t, current, target, tolerance);
    if (t.unready == 0 || ratio <= 1.0) && t.missing == 0 {
      CeilScaled(ratio, t.ready);
      CeilScaled(ratio', t.ready);
      CeilScaledMonotone(ratio, ratio', t.ready);
    } else {
      var load, load' := ResourceRefill(t, ratio), ResourceRefill(t', ratio');
      PercentNonNegative(load.usage, load.request);
      PercentMonotone(load.usage, load'.usage, load.request);
      var a, a' := Percent(load.usage, load.request), Percent(load'.usage, load.request);
      RatioVersusOne(a, target);
      RatioMonotone(a, a', target);
      hide Percent, Ratio, RoundUp, AfterRefill, Tips;
      AfterRefillMonotone(ratio, ratio', Ratio(a, target), Ratio(a', target), load.count, current, tolerance);
    }
  }

  // ---- the exact guard on head counts ----

  /** One choice of everything but the head counts and the ready pods' request. */
  datatype Setting = Setting(usage: nat, missingRequest: nat, target: Target, tolerance: real)

  function Under(t: Tally, s: Setting): Tally {
    t.(usage := s.usage, missingRequest := s.missingRequest)
  }

  predicate DirectedUnder(t: Tally, current: int, s: Setting)
    requires 0 < t.readyRequest
  {
    var chosen := Under(t, s);
    Directed(Percent(chosen.usage, chosen.readyRequest),
             ResourceReplicas(chosen, current, s.target, s.tolerance), current, s.target)
  }

  predicate MonotoneUnder(t: Tally, current: int, s: Setting, more: nat)
    requires 0 < t.readyRequest
  {
    ResourceReplicas(Under(t, s), current, s.target, s.tolerance)
      <= ResourceReplicas(Under(t, s.(usage := s.usage + more)), current, s.target, s.tolerance)
  }

  /**
   Over all usages, requests of the missing pods, targets and tolerances, direction safety holds
   exactly when the strangers are few, and so does monotonicity in load.
   */
  lemma {:induction false} StrangersGuardIff(t: Tally, current: int)
    requires 0 < t.readyRequest && current == t.ready + t.missing + t.unready
    ensures (forall s: Setting | 0.0 <= s.tolerance :: DirectedUnder(t, current, s)) <==> FewStrangers(t)
    ensures (forall s: Setting, more: nat | 0.0 <= s.tolerance :: MonotoneUnder(t, current, s, more))
      <==> FewStrangers(t)
  {
    if FewStrangers(t) {
      forall s: Setting | 0.0 <= s.tolerance
        ensures DirectedUnder(t, current, s)
        ensures forall more: nat :: MonotoneUnder(t, current, s, more)
      {
        FewStrangersNeverTip(Under(t, s), current, s.target, s.tolerance);
        TallyDirectionIff(Under(t, s), current, s.target, s.tolerance);
        forall more: nat
          ensures MonotoneUnder(t, current, s, more)
        {
          TallyMonotone(Under(t, s), Under(t, s.(usage := s.usage + more)), current, s.target, s.tolerance);
        }
      }
    } else {
      var s := TippingSetting(t, current);
      assert !DirectedUnder(t, current, s) && !MonotoneUnder(t, current, s, t.readyRequest);
    }
  }

  /** With more strangers: `100 * k` percent of a target `100 * (k + 1)` tips for `k` above the current count. */
  lemma {:induction false} TippingSetting(t: Tally, current: int) returns (s: Setting)
    requires 0 < t.readyRequest && current == t.ready + t.missing + t.unready && !FewStrangers(t)
    ensures s.tolerance == 0.0 && s.missingRequest == 0
    ensures !DirectedUnder(t, current, s) && !MonotoneUnder(t, current, s, t.readyRequest)
  {
    var k := current + 1;
    MulNonNegative(t.readyRequest, k);
    s := Setting(t.readyRequest * k, 0, 100 * (k + 1), 0.0);
    WholePercent(t.readyRequest, k);
    WholePercent(t.readyRequest, k + 1);
    Distribute(k + 1, k, t.readyRequest);
    var chosen, more := Under(t, s), Under(t, s.(usage := s.usage + t.readyRequest));
    assert more.usage == t.readyRequest * (k + 1);
    RatioVersusOne(100 * k, s.target);
    TipArithmetic(k, current, t.ready + t.extra + t.missing);
    assert Tips(chosen, current, s.target, 0.0);
    TallyDirectionIff(chosen, current, s.target, 0.0);
    FromTargetUp(more, current, s.target, 0.0);
    hide ResourceReplicas, Percent, Tips, Charged;
  }

  lemma {:induction false} WholePercent(request: nat, k: nat)
    requires 0 < request
    ensures 0 <= request * k && Percent(request * k, request) == 100 * k
  {
    MulNonNegative(request, k);
    PercentNonNegative(request * k, request);
    DivAtLeast(request * k * 100, request, 100 * k);
    DivAtLeast(request * k * 100, request, 100 * k + 1);
  }

  lemma {:induction false} TipArithmetic(k: nat, current: nat, count: nat)
    requires k == current + 1 && current < count
    ensures 100 * k * count > current * (100 * (k + 1))
  {
    MulLe(k, count, 100 * k);
    assert k * (100 * k) > current * (100 * (k + 1));
  }

  // ---- the resource path over pods and metrics ----

  ghost predicate NonNegative(metrics: Metrics) {
    forall k :: k in metrics ==> 0 <= metrics[k]
  }

  /** Metrics are non-negative, and every pod that has not failed is counted as current. */
  ghost predicate Accounted(pods: set<Pod>, metrics: Metrics, current: int) {
    NonNegative(metrics) && current == |NonFailedNames(pods)|
  }

  /**
   No ready pod is missing from the metrics, or at most as many unlisted pods are in them as listed pods
   are unready.
   */
  ghost predicate StrangersFit(pods: set<Pod>, metrics: Metrics) {
    |MissingNames(pods, metrics)| == 0 || |metrics.Keys - Names(pods)| <= |UnreadyNames(pods)|
  }

  ghost predicate TipsOver(pods: set<Pod>, metrics: Metrics, current: int, target: Target, tolerance: real)
    requires Injective(pods)
  {
    var t := ResourceTally(pods, metrics);
    0 < t.ready && 0 < t.readyRequest && Tips(t, current, target, tolerance)
  }

  lemma {:induction false} TallyIsPlausible(pods: set<Pod>, metrics: Metrics, current: int)
    requires Injective(pods) && Accounted(pods, metrics, current)
    ensures Plausible(ResourceTally(pods, metrics))
    ensures var t := ResourceTally(pods, metrics); current == t.ready + t.missing + t.unready
    ensures FewStrangers(ResourceTally(pods, metrics)) <==> StrangersFit(pods, metrics)
  {
    SumNonNegative(metrics, ReadyNames(pods, metrics));
    ClassesPartition(pods, metrics);
  }

  ghost predicate OnTheSideOf(r: Result<ResourceProposal, CalcError>, current: int, target: Target) {
    r.Ok? ==> Directed(r.value.percentage, r.value.replicas, current, target)
  }

  lemma {:induction false} OutcomeDirectionIff(
    t: Tally, current: int, target: Target, tolerance: real, timestamp: Time)
    requires 0 <= t.usage && 0.0 <= tolerance && current == t.ready + t.missing + t.unready
    ensures OnTheSideOf(TallyOutcome(t, current, target, tolerance, timestamp), current, target)
      <==> !(0 < t.ready && 0 < t.readyRequest && Tips(t, current, target, tolerance))
  {
    hide Percent, TruncDiv, ResourceReplicas, Tips, Directed;
    if 0 < t.readyRequest {
      TallyDirectionIff(t, current, target, tolerance);
    }
  }

  lemma {:induction false} TallyOfPodsDirectionIff(
    pods: set<Pod>, metrics: Metrics, timestamp: Time, current: int, target: Target, tolerance: real)
    requires Injective(pods) && Accounted(pods, metrics, current) && 0.0 <= tolerance
    ensures OnTheSideOf(
        TallyOutcome(ResourceTally(pods, metrics), current, target, tolerance, timestamp), current, target)
      <==> !TipsOver(pods, metrics, current, target, tolerance)
  {
    hide ResourceTally, TallyOutcome, OnTheSideOf, Accounted, Injective, Tips;
    TallyIsPlausible(pods, metrics, current);
    OutcomeDirectionIff(ResourceTally(pods, metrics), current, target, tolerance, timestamp);
  }

  /**
   Over all pods and metrics, strangers included: a computed proposal is on the right side of the
   current count exactly when the tally of the pods does not tip.
   */
  lemma {:induction false} ResourceDirectionIff(
    pods: set<Pod>, metrics: Metrics, timestamp: Time, current: int, target: Target, tolerance: real)
    requires Injective(pods) && Accounted(pods, metrics, current) && 0.0 <= tolerance
    ensures OnTheSideOf(ResourceOutcome(pods, metrics, timestamp, current, target, tolerance), current, target)
      <==> NoneListed(pods) || SomeRequestMissing(pods) || !TipsOver(pods, metrics, current, target, tolerance)
  {
    hide ResourceTally, TallyOutcome, NoneListed, Accounted, Injective, SomeRequestMissing, TipsOver;
    TallyOfPodsDirectionIff(pods, metrics, timestamp, current, target, tolerance);
  }

  lemma {:induction false} FittingStrangersNeverTip(
    pods: set<Pod>, metrics: Metrics, current: int, target: Target, tolerance: real)
    requires Injective(pods) && Accounted(pods, metrics, current) && StrangersFit(pods, metrics)
    ensures !TipsOver(pods, metrics, current, target, tolerance)
  {
    hide ResourceTally, Accounted, Injective, StrangersFit, FewStrangers, Tips;
    TallyIsPlausible(pods, metrics, current);
    var t := ResourceTally(pods, metrics);
    if 0 < t.readyRequest {
      FewStrangersNeverTip(t, current, target, tolerance);
    }
  }

  /** Below target never a larger count, above target never a smaller one, on target the current one. */
  lemma {:induction false} ResourceDirectionSafety(
    pods: set<Pod>, metrics: Metrics, timestamp: Time, current: int, target: Target, tolerance: real)
    requires Injective(pods) && Accounted(pods, metrics, current) && StrangersFit(pods, metrics) && 0.0 <= tolerance
    ensures OnTheSideOf(ResourceOutcome(pods, metrics, timestamp, current, target, tolerance), current, target)
  {
    hide ResourceOutcome, OnTheSideOf, Accounted, Injective, TipsOver, StrangersFit;
    FittingStrangersNeverTip(pods, metrics, current, target, tolerance);
    ResourceDirectionIff(pods, metrics, timestamp, current, target, tolerance);
  }

  /** The same pods report, and no ready pod reports less. */
  ghost predicate LoadGrows(pods: set<Pod>, low: Metrics, high: Metrics) {
    low.Keys == high.Keys && forall k :: k in ReadyNames(pods, low) ==> low[k] <= high[k]
  }

  lemma {:induction false} SameClassesUnderLoad(pods: set<Pod>, low: Metrics, high: Metrics)
    requires low.Keys == high.Keys
    ensures ReadyNames(pods, low) == ReadyNames(pods, high) && MissingNames(pods, low) == MissingNames(pods, high)
  {
  }

  /** The tally depends on the metrics only through the usage of the ready pods. */
  lemma {:induction false} TallyUnderLoad(pods: set<Pod>, metrics: Metrics, metrics': Metrics)
    requires Injective(pods) && LoadGrows(pods, metrics, metrics')
    ensures var t, t' := ResourceTally(pods, metrics), ResourceTally(pods, metrics');
      t' == t.(usage := t'.usage) && t.usage <= t'.usage
  {
    SameClassesUnderLoad(pods, metrics, metrics');
    SumMonotone(metrics, metrics', ReadyNames(pods, metrics));
  }

  ghost predicate NoFewer(low: Result<ResourceProposal, CalcError>, high: Result<ResourceProposal, CalcError>) {
    && (low.Err? ==> high == low)
    && (low.Ok? ==> high.Ok? && low.value.replicas <= high.value.replicas)
  }

  lemma {:induction false} OutcomeMonotone(
    t: Tally, t': Tally, current: int, target: Target, tolerance: real, timestamp: Time, timestamp': Time)
    requires 0 <= t.usage && 0.0 <= tolerance && current == t.ready + t.missing + t.unready
    requires t' == t.(usage := t'.usage) && t.usage <= t'.usage
    requires !(0 < t.ready && 0 < t.readyRequest && Tips(t, current, target, tolerance))
    ensures NoFewer(TallyOutcome(t, current, target, tolerance, timestamp),
                    TallyOutcome(t', current, target, tolerance, timestamp'))
  {
    hide Percent, TruncDiv, ResourceReplicas, Tips;
    if 0 < t.ready && 0 < t.readyRequest {
      TallyMonotone(t, t', current, target, tolerance);
    }
  }

  lemma {:induction false} TalliesUnderLoad(
    pods: set<Pod>, low: Metrics, high: Metrics, t1: Time, t2: Time, current: int, target: Target, tolerance: real)
    requires Injective(pods) && Accounted(pods, low, current) && 0.0 <= tolerance
    requires LoadGrows(pods, low, high) && !TipsOver(pods, low, current, target, tolerance)
    ensures NoFewer(TallyOutcome(ResourceTally(pods, low), current, target, tolerance, t1),
                    TallyOutcome(ResourceTally(pods, high), current, target, tolerance, t2))
  {
    hide ResourceTally, TallyOutcome, NoFewer, Accounted, LoadGrows, Injective, Tips;
    TallyUnderLoad(pods, low, high);
    TallyIsPlausible(pods, low, current);
    OutcomeMonotone(ResourceTally(pods, low), ResourceTally(pods, high), current, target, tolerance, t1, t2);
  }

  /**
   Raising the usage of ready pods never lowers the proposal, across every branch of the calculation,
   unless the answer to the smaller usage had already been reversed by strangers.
   */
  lemma {:induction false} ResourceMonotoneInLoad(
    pods: set<Pod>, low: Metrics, high: Metrics, t1: Time, t2: Time, current: int, target: Target, tolerance: real)
    requires Injective(pods) && Accounted(pods, low, current) && 0.0 <= tolerance
    requires LoadGrows(pods, low, high) && !TipsOver(pods, low, current, target, tolerance)
    ensures NoFewer(ResourceOutcome(pods, low, t1, current, target, tolerance),
                    ResourceOutcome(pods, high, t2, current, target, tolerance))
  {
    hide ResourceTally, TallyOutcome, NoneListed, Accounted, LoadGrows, Injective, SomeRequestMissing, TipsOver;
    TalliesUnderLoad(pods, low, high, t1, t2, current, target, tolerance);
  }

  // ---- the exact guard over pods and metrics ----

  /** The whole usage on one entry. */
  ghost function Concentrated(metrics: Metrics, k: string, usage: int): Metrics {
    map j | j in metrics :: if j == k then usage else 0
  }

  /** The same pods in the same classes; only what their containers request may differ. */
  ghost predicate SameClasses(pods: set<Pod>, pods': set<Pod>, metrics: Metrics) {
    && Names(pods) == Names(pods') && ReadyNames(pods, metrics) == ReadyNames(pods', metrics)
    && MissingNames(pods, metrics) == MissingNames(pods', metrics)
    && UnreadyNames(pods) == UnreadyNames(pods') && NonFailedNames(pods) == NonFailedNames(pods')
  }

  /** Direction safety of one load of `metrics`' entries and one choice of requests. */
  ghost predicate DirectedFor(
    pods: set<Pod>, metrics: Metrics, pods': set<Pod>, low: Metrics, current: int, target: Target, tolerance: real)
  {
    Injective(pods') && SameClasses(pods, pods', metrics) && low.Keys == metrics.Keys
      && Accounted(pods', low, current) && 0.0 <= tolerance ==>
      OnTheSideOf(ResourceOutcome(pods', low, 0, current, target, tolerance), current, target)
  }

  /** Each counted pod requests one unit, and the others nothing. */
  function Requesting(p: Pod, metrics: Metrics): Pod {
    p.(requests := if p.IsReady() && p.name in metrics then [Some(1)] else [])
  }

  ghost function AllRequesting(pods: set<Pod>, metrics: Metrics): set<Pod> {
    set p | p in pods :: Requesting(p, metrics)
  }

  lemma {:induction false} RequestingSameClasses(pods: set<Pod>, metrics: Metrics)
    requires Injective(pods)
    ensures Injective(AllRequesting(pods, metrics))
    ensures SameClasses(pods, AllRequesting(pods, metrics), metrics)
    ensures !SomeRequestMissing(AllRequesting(pods, metrics))
    ensures NoneListed(AllRequesting(pods, metrics)) <==> NoneListed(pods)
  {
    var pods' := AllRequesting(pods, metrics);
    forall p | p in pods
      ensures Requesting(p, metrics) in pods'
    {
    }
  }

  lemma {:induction false} RequestingTotals(pods: set<Pod>, metrics: Metrics)
    requires Injective(pods)
    ensures var pods' := AllRequesting(pods, metrics);
      && Injective(pods')
      && (forall k :: k in ReadyNames(pods, metrics) ==> k in RequestsOf(pods') && RequestsOf(pods')[k] == 1)
      && (forall k :: k in MissingNames(pods, metrics) ==> k in RequestsOf(pods') && RequestsOf(pods')[k] == 0)
      && (forall k :: k in UnreadyNames(pods) ==> k in RequestsOf(pods') && RequestsOf(pods')[k] == 0)
  {
    RequestingSameClasses(pods, metrics);
    var pods' := AllRequesting(pods, metrics);
    assert [Some(1)][..0] == [];
    forall p | p in pods
      ensures p.name in RequestsOf(pods')
      ensures RequestsOf(pods')[p.name] == if p.IsReady() && p.name in metrics then 1 else 0
    {
      assert Requesting(p, metrics) in pods';
    }
    hide AllRequesting, RequestsOf, Injective;
  }

  /** The tally of those pods when one ready pod carries the whole usage. */
  ghost function Heads(pods: set<Pod>, metrics: Metrics, usage: int): Tally {
    var ready := |ReadyNames(pods, metrics)|;
    Tally(ready, |MissingNames(pods, metrics)|, |UnreadyNames(pods)|, |metrics.Keys - Names(pods)|, usage, ready, 0, 0)
  }

  lemma {:induction false} ConcentratedSum(metrics: Metrics, keys: set<string>, k: string, usage: int)
    requires k in keys && keys <= metrics.Keys
    ensures keys <= Concentrated(metrics, k, usage).Keys && SumOf(Concentrated(metrics, k, usage), keys) == usage
  {
    var m := Concentrated(metrics, k, usage);
    SumPick(m, keys, k);
    SumConstant(m, keys - {k}, 0);
  }

  lemma {:induction false} RequestingSums(pods: set<Pod>, metrics: Metrics)
    requires Injective(pods)
    ensures Injective(AllRequesting(pods, metrics))
    ensures var requests, ready := RequestsOf(AllRequesting(pods, metrics)), ReadyNames(pods, metrics);
      && ready <= requests.Keys && MissingNames(pods, metrics) <= requests.Keys && UnreadyNames(pods) <= requests.Keys
      && SumOf(requests, ready) == |ready|
      && SumOf(requests, MissingNames(pods, metrics)) == 0 == SumOf(requests, UnreadyNames(pods))
  {
    hide AllRequesting, RequestsOf, Injective, ReadyNames, MissingNames, UnreadyNames, SumOf;
    RequestingTotals(pods, metrics);
    var requests := RequestsOf(AllRequesting(pods, metrics));
    SumConstant(requests, ReadyNames(pods, metrics), 1);
    SumConstant(requests, MissingNames(pods, metrics), 0);
    SumConstant(requests, UnreadyNames(pods), 0);
  }

  lemma {:induction false} RequestingTally(pods: set<Pod>, metrics: Metrics, k: string, usage: int)
    requires Injective(pods) && k in ReadyNames(pods, metrics)
    ensures Injective(AllRequesting(pods, metrics))
    ensures ResourceTally(AllRequesting(pods, metrics), Concentrated(metrics, k, usage)) == Heads(pods, metrics, usage)
  {
    var pods', low := AllRequesting(pods, metrics), Concentrated(metrics, k, usage);
    assert low.Keys == metrics.Keys;
    ReadyAreListed(pods, metrics);
    hide AllRequesting, Concentrated, Injective, ReadyNames, MissingNames, UnreadyNames, Names, RequestsOf, SumOf;
    RequestingSameClasses(pods, metrics);
    SameClassesUnderLoad(pods', metrics, low);
    RequestingSums(pods, metrics);
    ConcentratedSum(metrics, ReadyNames(pods, metrics), k, usage);
  }

  lemma {:induction false} HeadsFit(pods: set<Pod>, metrics: Metrics, current: int)
    requires Injective(pods) && Accounted(pods, metrics, current)
    ensures var t := Heads(pods, metrics, 0);
      && current == t.ready + t.missing + t.unready && (FewStrangers(t) <==> StrangersFit(pods, metrics))
      && t.readyRequest == t.ready == |ReadyNames(pods, metrics)|
  {
    ClassesPartition(pods, metrics);
    hide ReadyNames, MissingNames, UnreadyNames, Names, NonFailedNames;
  }

  lemma {:induction false} NotDirectedOutcome(t: Tally, current: int, s: Setting)
    requires 0 < t.ready && 0 < t.readyRequest && !DirectedUnder(t, current, s)
    ensures !OnTheSideOf(TallyOutcome(Under(t, s), current, s.target, s.tolerance, 0), current, s.target)
  {
    hide Percent, TruncDiv, ResourceReplicas, Directed;
  }

  lemma {:induction false} ListedResourceOutcome(
    pods: set<Pod>, metrics: Metrics, current: int, target: Target, tolerance: real)
    requires Injective(pods) && !NoneListed(pods) && !SomeRequestMissing(pods)
    ensures ResourceOutcome(pods, metrics, 0, current, target, tolerance)
      == TallyOutcome(ResourceTally(pods, metrics), current, target, tolerance, 0)
  {
    hide ResourceTally, TallyOutcome, NoneListed, SomeRequestMissing, Injective;
  }

  lemma {:induction false} ConcentratedAccounted(
    pods: set<Pod>, pods': set<Pod>, metrics: Metrics, k: string, usage: nat, current: int)
    requires SameClasses(pods, pods', metrics) && Accounted(pods, metrics, current)
    ensures var low := Concentrated(metrics, k, usage); low.Keys == metrics.Keys && Accounted(pods', low, current)
  {
    hide Names, ReadyNames, MissingNames, UnreadyNames, NonFailedNames;
  }

  lemma {:induction false} TippingPods(pods: set<Pod>, metrics: Metrics, current: int)
    returns (pods': set<Pod>, low: Metrics, target: Target)
    requires Injective(pods) && Accounted(pods, metrics, current) && !NoneListed(pods)
    requires 0 < |ReadyNames(pods, metrics)| && !StrangersFit(pods, metrics)
    ensures !DirectedFor(pods, metrics, pods', low, current, target, 0.0)
  {
    hide AllRequesting, Concentrated, ResourceTally, ResourceOutcome, TallyOutcome, OnTheSideOf, Injective, Accounted;
    hide ReadyNames, SameClasses, SomeRequestMissing, NoneListed, DirectedUnder, StrangersFit, FewStrangers;
    var k :| k in ReadyNames(pods, metrics);
    var t := Heads(pods, metrics, 0);
    HeadsFit(pods, metrics, current);
    var s := TippingSetting(t, current);
    pods', low, target := AllRequesting(pods, metrics), Concentrated(metrics, k, s.usage), s.target;
    RequestingSameClasses(pods, metrics);
    RequestingTally(pods, metrics, k, s.usage);
    assert Heads(pods, metrics, s.usage) == Under(t, s);
    hide Heads, Under;
    ConcentratedAccounted(pods, pods', metrics, k, s.usage, current);
    ListedResourceOutcome(pods', low, current, target, 0.0);
    NotDirectedOutcome(t, current, s);
  }

  /**
   Given pods and metric keys: direction safety holds for all loads, requests, targets and tolerances
   exactly when strangers fit.
   */
  lemma {:induction false} ResourceGuardOfPodsIff(pods: set<Pod>, metrics: Metrics, current: int)
    requires Injective(pods) && Accounted(pods, metrics, current)
    requires !NoneListed(pods) && 0 < |ReadyNames(pods, metrics)|
    ensures
      (forall pods': set<Pod>, low: Metrics, target: Target, tolerance: real ::
        DirectedFor(pods, metrics, pods', low, current, target, tolerance))
      <==> StrangersFit(pods, metrics)
  {
    if StrangersFit(pods, metrics) {
      forall pods': set<Pod>, low: Metrics, target: Target, tolerance: real
        ensures DirectedFor(pods, metrics, pods', low, current, target, tolerance)
      {
        FittingPodsDirected(pods, metrics, pods', low, current, target, tolerance);
      }
    } else {
      var pods', low, target := TippingPods(pods, metrics, current);
    }
    hide DirectedFor, StrangersFit, Injective, Accounted;
  }

  /**
   With the requests given as well, strangers that do not fit may still be harmless: here the missing pods
   request so much that no usage tips.
   */
  lemma {:induction false} LargeRequestsProtect(usage: nat, target: Target, tolerance: real)
    requires 0.0 <= tolerance
    ensures var t := Tally(1, 999, 0, 1, usage, 1, 1_000_000, 0);
      !FewStrangers(t) && !Tips(t, 1000, target, tolerance)
  {
    var t := Tally(1, 999, 0, 1, usage, 1, 1_000_000, 0);
    PercentNonNegative(usage, 1);
    PercentNonNegative(usage + 1_000_000, 1_000_001);
    RatioVersusOne(Charged(t), target);
    var charged := Charged(t);
    if charged == target {
      RatioTimes(charged, target);
    }
  }

  lemma {:induction false} FittingPodsDirected(
    pods: set<Pod>, metrics: Metrics, pods': set<Pod>, low: Metrics, current: int, target: Target, tolerance: real)
    requires StrangersFit(pods, metrics)
    ensures DirectedFor(pods, metrics, pods', low, current, target, tolerance)
  {
    hide OnTheSideOf, ResourceOutcome, Accounted, Injective, ReadyNames, MissingNames, UnreadyNames, Names,
      NonFailedNames;
    if Injective(pods') && SameClasses(pods, pods', metrics) && low.Keys == metrics.Keys
      && Accounted(pods', low, current) && 0.0 <= tolerance {
      SameClassesUnderLoad(pods', metrics, low);
      ResourceDirectionSafety(pods', low, 0, current, target, tolerance);
    }
  }

  /** The order in which the lister returns the pods has no influence on either calculation. */
  lemma {:induction false} OrderIndependent(pods: seq<Pod>, pods': seq<Pod>)
    requires multiset(pods) == multiset(pods')
    ensures PodSet(pods) == PodSet(pods')
    ensures UniqueNames(pods) ==> UniqueNames(pods')
  {
    forall p
      ensures p in pods <==> p in pods'
    {
      assert p in pods <==> p in multiset(pods);
      assert p in pods' <==> p in multiset(pods');
    }
    if UniqueNames(pods) {
      UniqueIsInjective(pods);
      forall i, j | 0 <= i < j < |pods'|
        ensures pods'[i].name != pods'[j].name
      {
        if pods'[i].name == pods'[j].name {
          assert pods'[i] in PodSet(pods) && pods'[j] in PodSet(pods);
          TwiceInMultiset(pods', i, j);
          OnceInMultiset(pods, pods'[i]);
        }
      }
    }
  }

  lemma {:induction false} TwiceInMultiset(s: seq<Pod>, i: int, j: int)
    requires 0 <= i < j < |s| && s[i] == s[j]
    ensures multiset(s)[s[i]] >= 2
  {
    assert s == s[..j] + [s[j]] + s[j + 1..];
    assert s[i] in s[..j];
    assert multiset(s) == multiset(s[..j]) + multiset{s[j]} + multiset(s[j + 1..]);
  }

  lemma {:induction false} OnceInMultiset(s: seq<Pod>, p: Pod)
    requires UniqueNames(s)
    ensures multiset(s)[p] <= 1
  {
    if |s| > 0 {
      var n := |s| - 1;
      assert s == s[..n] + [s[n]];
      OnceInMultiset(s[..n], p);
      if p == s[n] {
        assert p !in s[..n];
        assert p !in multiset(s[..n]);
      }
    }
  }

  // ---- conservative refills ----

  /** The percentage after charging `k` of further request in full. */
  function PercentCharged(usage: int, request: nat, k: nat): int
    requires 0 < request
  {
    Percent(usage + k, request + k)
  }

  /** Charging missing pods their full request moves the floored percentage toward 100 and never past it. */
  lemma {:induction false} FullChargeMovesTowardHundred(usage: int, request: nat, k: nat)
    requires 0 <= usage && 0 < request
    ensures Min(Percent(usage, request), 100) <= PercentCharged(usage, request, k) <= Max(Percent(usage, request), 100)
  {
    PercentNonNegative(usage, request);
    PercentNonNegative(usage + k, request + k);
    FlooredMediant(usage * 100, request, 100, k);
    assert (usage + k) * 100 == usage * 100 + 100 * k;
  }

  /**
   So on a scale-down it is conservative whatever is missing exactly when the ready pods' floored percentage
   is at most 100.
   */
  lemma {:induction false} FullChargeIsConservativeIff(usage: int, request: nat)
    requires 0 <= usage && 0 < request
    ensures (forall k: nat :: PercentCharged(usage, request, k) >= Percent(usage, request))
      <==> Percent(usage, request) <= 100
  {
    var u := Percent(usage, request);
    if u <= 100 {
      forall k: nat
        ensures PercentCharged(usage, request, k) >= u
      {
        FullChargeMovesTowardHundred(usage, request, k);
      }
    } else {
      PercentNonNegative(usage, request);
      PercentNonNegative(usage + request, request + request);
      DivAtLeast(usage * 100, request, u + 1);
      DivAtLeast((usage + request) * 100, request + request, u);
      assert (u - 100) * request >= request;
      assert (u - 100) * request == u * request - 100 * request;
      assert (u + 1) * request == u * request + request;
      assert u * (request + request) == u * request + u * request;
      assert PercentCharged(usage, request, request) < u;
    }
  }

  /** Above target the refill never raises the percentage; below a target of at most 100 it never lowers it. */
  lemma {:induction false} ResourceRefillConservative(t: Tally, target: Target)
    requires 0 < t.readyRequest && Plausible(t)
    ensures var u, load := Percent(t.usage, t.readyRequest), ResourceRefill(t, UsageRatio(t, target));
      var u' := Percent(load.usage, load.request);
      && (u > target ==> 0 <= u' <= u && load.usage == t.usage)
      && (u < target && target <= 100 ==> u <= u' <= 100)
      && (u == target ==> u' == u)
  {
    var u := Percent(t.usage, t.readyRequest);
    PercentNonNegative(t.usage, t.readyRequest);
    RatioVersusOne(u, target);
    if u > target {
      var more := t.missingRequest + t.unreadyRequest;
      PercentNonNegative(t.usage, t.readyRequest + more);
      DivLargerDivisor(t.usage * 100, t.readyRequest, more);
    } else if u < target {
      FullChargeMovesTowardHundred(t.usage, t.readyRequest, t.missingRequest);
    }
  }

  // ---- capacity ----

  /**
   Object and total external metrics: on the target's side of the current count, and outside the
   tolerance the least count whose share of the target carries the usage per current pod.
   */
  lemma {:induction false} ScaledCapacity(usage: int, target: Target, current: nat, tolerance: real)
    requires 0 <= usage && 0.0 <= tolerance
    ensures var r := ScaledReplicas(usage, target, current, tolerance);
      && (usage >= target ==> r >= current)
      && (usage <= target ==> 0 <= r <= current)
      && (Abs(1.0 - Ratio(usage, target)) <= tolerance ==> r == current)
      && (Abs(1.0 - Ratio(usage, target)) > tolerance ==> forall n :: usage * current <= n * target <==> r <= n)
  {
    RatioVersusOne(usage, target);
    CeilScaled(Ratio(usage, target), current);
    CeilOfRatio(usage, target, current);
    var r := RoundUp(Ratio(usage, target), current);
    forall n
      ensures usage * current <= n * target <==> r <= n
    {
      if r <= n {
        MulLe(r, n, target);
      } else {
        MulLe(n, r - 1, target);
      }
    }
  }

  lemma {:induction false} CeilIsLeast(usage: int, target: Target, n: int)
    ensures usage <= n * target <==> Ceil(Ratio(usage, target)) <= n
  {
    var c := RoundUp(Ratio(usage, target), 1);
    assert c == Ceil(Ratio(usage, target));
    CeilOfRatio(usage, target, 1);
    hide RoundUp, Ratio, Ceil;
    if c <= n {
      MulLe(c, n, target);
    } else {
      MulLe(n, c - 1, target);
    }
  }

  /** The change is large enough to be answered; at zero pods every change is. */
  predicate OutsideTolerance(usage: int, target: Target, current: int, tolerance: real)
    requires 0 <= current
  {
    if current == 0 then true
    else
      PositiveProduct(target, current);
      Abs(1.0 - Ratio(usage, target * current)) > tolerance
  }

  /** The per-pod proposal carries the external total up to the tolerance; outside it, no smaller count would. */
  lemma {:induction false} PerPodCapacity(usage: int, target: Target, current: int, tolerance: real)
    requires 0 <= usage && 0 <= current && 0.0 <= tolerance
    ensures var r := PerPodReplicas(usage, target, current, tolerance);
      && usage as real <= (1.0 + tolerance) * (target * r) as real
      && (OutsideTolerance(usage, target, current, tolerance) ==> forall n :: usage <= n * target <==> r <= n)
  {
    var r := PerPodReplicas(usage, target, current, tolerance);
    if OutsideTolerance(usage, target, current, tolerance) {
      assert r == Ceil(Ratio(usage, target));
      forall n
        ensures usage <= n * target <==> r <= n
      {
        CeilIsLeast(usage, target, n);
      }
      assert usage <= target * r;
      hide Ratio, Ceil;
      ScaleUp(target * r, tolerance);
    } else {
      PositiveProduct(target, current);
      WithinToleranceFits(usage, target * current, tolerance);
    }
  }

  lemma {:induction false} WithinToleranceFits(usage: int, total: int, tolerance: real)
    requires 0 < total && Abs(1.0 - Ratio(usage, total)) <= tolerance
    ensures usage as real <= (1.0 + tolerance) * total as real
  {
    RatioTimes(usage, total);
    MulOrder(Ratio(usage, total), 1.0 + tolerance, total as real);
    hide Ratio;
  }

  lemma {:induction false} ScaleUp(x: int, tolerance: real)
    requires 0 <= x && 0.0 <= tolerance
    ensures x as real <= (1.0 + tolerance) * x as real
  {
    ProductNonNegative(tolerance, x as real);
  }
}
