/**
 How far a proposal goes. Every answer of the calculator is either the current count, in the
 cases listed here, or the least number of pods that carries the counted load at the target.
 Told in averages, head counts and sums over pods, for the resource and the plain path, with
 each error and the values reported beside the count.
 */
module ReplicaLaws {
  import opened Wrappers
  import opened Arithmetic
  import opened PodMetrics
  import opened ReplicaCalculators

  // ---- the vocabulary ----

  /** `q` is `a / b` rounded toward zero. */
  predicate IsQuotient(q: int, a: int, b: int) {
    && (0 <= a ==> q * b <= a < (q + 1) * b)
    && (a < 0 ==> (q - 1) * b < a <= q * b)
  }

  /** `a` differs from the target by at most that fraction of it. */
  predicate Within(a: int, target: Target, tolerance: real) {
    (1.0 - tolerance) * target as real <= a as real <= (1.0 + tolerance) * target as real
  }

  /** `r` pods carry the load at the target, and no smaller number does. */
  ghost predicate LeastFor(r: int, load: int, target: Target) {
    forall n :: load <= n * target <==> r <= n
  }

  /** The current count within tolerance or when the direction is reversed, and otherwise what the load needs. */
  ghost predicate Sized(
    r: int, current: int, average: int, count: int, target: Target, tolerance: real, reversed: bool)
  {
    if Within(average, target, tolerance) || reversed then r == current
    else LeastFor(r, average * count, target)
  }

  /** The refill put the average on the other side of the target. */
  predicate Reversed(before: int, after: int, target: Target) {
    (before < target && after > target) || (before > target && after < target)
  }

  // ---- arithmetic ----

  lemma {:induction false} TruncDivIs(a: int, b: int, q: int)
    requires 0 < b
    ensures q == TruncDiv(a, b) <==> IsQuotient(q, a, b)
  {
    if 0 <= a {
      DivAtLeast(a, b, q);
      DivAtLeast(a, b, q + 1);
    } else {
      DivAtLeast(-a, b, -q);
      DivAtLeast(-a, b, -q + 1);
      Distribute(0, q, b);
      Distribute(0, q - 1, b);
    }
  }

  lemma {:induction false} WithinIs(a: int, target: Target, tolerance: real)
    ensures Abs(1.0 - Ratio(a, target)) <= tolerance <==> Within(a, target, tolerance)
  {
    RatioTimes(a, target);
    hide Ratio;
    CloseToOne(Ratio(a, target), target as real, a as real, tolerance);
  }

  lemma {:induction false} CloseToOne(r: real, x: real, y: real, tolerance: real)
    requires 0.0 < x && r * x == y
    ensures Abs(1.0 - r) <= tolerance <==> (1.0 - tolerance) * x <= y <= (1.0 + tolerance) * x
  {
    var lo, hi := 1.0 - tolerance, 1.0 + tolerance;
    assert Abs(1.0 - r) <= tolerance <==> lo <= r && r <= hi;
    MulOrder(lo, r, x);
    MulOrder(r, hi, x);
  }

  lemma {:induction false} RoundsToLeast(a: int, target: Target, count: int)
    ensures LeastFor(RoundUp(Ratio(a, target), count), a * count, target)
  {
    var r := RoundUp(Ratio(a, target), count);
    CeilOfRatio(a, target, count);
    hide RoundUp, Ratio;
    forall n
      ensures a * count <= n * target <==> r <= n
    {
      if r <= n {
        MulLe(r, n, target);
      } else {
        MulLe(n, r - 1, target);
      }
    }
  }

  /** A direct answer. */
  lemma {:induction false} DirectSized(a: int, count: int, current: int, target: Target, tolerance: real)
    ensures var ratio := Ratio(a, target);
      var r := if Abs(1.0 - ratio) <= tolerance then current else RoundUp(ratio, count);
      Sized(r, current, a, count, target, tolerance, false)
  {
    WithinIs(a, target, tolerance);
    RoundsToLeast(a, target, count);
    hide Ratio, RoundUp, Within, LeastFor;
  }

  /** An answer after a refill. */
  lemma {:induction false} RefilledSized(
    before: int, after: int, count: nat, current: int, target: Target, tolerance: real)
    ensures Sized(AfterRefill(Ratio(before, target), Ratio(after, target), count, current, tolerance),
                  current, after, count, target, tolerance, Reversed(before, after, target))
  {
    WithinIs(after, target, tolerance);
    RoundsToLeast(after, target, count);
    RatioVersusOne(before, target);
    RatioVersusOne(after, target);
    hide Ratio, RoundUp, Within, LeastFor;
  }

  // ---- the resource path, over tallies ----

  /** Nothing is refilled: no pod is missing, and unready pods play no part up to the target. */
  predicate Unfilled(missing: nat, unready: nat, average: int, target: Target) {
    missing == 0 && (unready == 0 || average <= target)
  }

  /** What is counted after the refill, by the side of the target that the percentage `p` is on. */
  function Counted(t: Tally, p: int, target: Target): Load {
    if p < target then
      Load(t.usage + t.missingRequest, t.readyRequest + t.missingRequest, t.ready + t.extra + t.missing)
    else if p > target then
      Load(t.usage, t.readyRequest + t.missingRequest + t.unreadyRequest, t.ready + t.extra + t.missing + t.unready)
    else
      Load(t.usage, t.readyRequest, t.ready + t.extra)
  }

  /** `p` is the floored percentage of the ready pods, and `q` that after the refill. */
  lemma {:induction false} ResourceMagnitude(
    t: Tally, current: int, target: Target, tolerance: real, p: int, q: int)
    requires 0 < t.readyRequest && IsQuotient(p, t.usage * 100, t.readyRequest)
    requires var load := Counted(t, p, target); IsQuotient(q, load.usage * 100, load.request)
    ensures var r := ResourceReplicas(t, current, target, tolerance);
      if Unfilled(t.missing, t.unready, p, target) then Sized(r, current, p, t.ready, target, tolerance, false)
      else Sized(r, current, q, Counted(t, p, target).count, target, tolerance, Reversed(p, q, target))
  {
    var load, ratio := Counted(t, p, target), Ratio(p, target);
    TruncDivIs(t.usage * 100, t.readyRequest, p);
    TruncDivIs(load.usage * 100, load.request, q);
    RatioVersusOne(p, target);
    hide TruncDiv, IsQuotient, Sized, Reversed, AfterRefill, Ratio, RoundUp;
    DirectSized(p, t.ready, current, target, tolerance);
    RefilledSized(p, q, load.count, current, target, tolerance);
    assert ResourceRefill(t, ratio) == load;
  }

  // ---- the plain path, over tallies ----

  function PlainCounted(t: PlainTally, a: int, target: Target): PlainLoad {
    if a < target then PlainLoad(t.usage + target * t.missing, t.ready + t.extra + t.missing)
    else if a > target then PlainLoad(t.usage, t.ready + t.extra + t.missing + t.unready)
    else PlainLoad(t.usage, t.ready + t.extra + t.missing)
  }

  /** `a` is the floored average of the kept entries, and `b` that after the refill. */
  lemma {:induction false} PlainMagnitude(
    t: PlainTally, current: int, target: Target, tolerance: real, a: int, b: int)
    requires 0 < t.ready + t.extra && IsQuotient(a, t.usage, t.ready + t.extra)
    requires var load := PlainCounted(t, a, target); IsQuotient(b, load.usage, load.count)
    ensures var r := PlainReplicas(t, current, target, tolerance);
      if Unfilled(t.missing, t.unready, a, target) then Sized(r, current, a, t.ready, target, tolerance, false)
      else Sized(r, current, b, PlainCounted(t, a, target).count, target, tolerance, Reversed(a, b, target))
  {
    var load, ratio := PlainCounted(t, a, target), Ratio(a, target);
    TruncDivIs(t.usage, t.ready + t.extra, a);
    TruncDivIs(load.usage, load.count, b);
    RatioVersusOne(a, target);
    hide TruncDiv, IsQuotient, Sized, Reversed, AfterRefill, Ratio, RoundUp;
    DirectSized(a, t.ready, current, target, tolerance);
    RefilledSized(a, b, load.count, current, target, tolerance);
    assert PlainRefill(t, ratio, target) == load;
  }

  // ---- the classes, pod by pod ----

  /** Ready pods are running and report ready; only failed pods are left out of account altogether. */
  lemma {:induction false} ClassOfPod(pods: set<Pod>, metrics: Metrics, p: Pod)
    requires Injective(pods) && p in pods
    ensures p.name in ReadyNames(pods, metrics) <==> p.phase == Running && p.conditionReady && p.name in metrics
    ensures p.name in MissingNames(pods, metrics) <==> p.phase == Running && p.conditionReady && p.name !in metrics
    ensures p.name in UnreadyNames(pods) <==> p.phase != Failed && !(p.phase == Running && p.conditionReady)
    ensures p.name in NotReadyNames(pods) <==> !(p.phase == Running && p.conditionReady)
    ensures p.name in NonFailedNames(pods) <==> p.phase != Failed
    ensures p.name in RequestsOf(pods) && RequestsOf(pods)[p.name] == SumRequests(p.requests)
  {
  }

  lemma {:induction false} SumRequestsSplits(a: seq<Option<nat>>, b: seq<Option<nat>>)
    ensures SumRequests(a + b) == SumRequests(a) + SumRequests(b)
    ensures forall x: nat :: SumRequests([Some(x)]) == x
  {
    forall x: nat
      ensures SumRequests([Some(x)]) == x
    {
      assert [Some(x)][..0] == [];
    }
    if b == [] {
      assert a + b == a;
    } else {
      var n := |b| - 1;
      assert (a + b)[..|a| + n] == a + b[..n];
      SumRequestsSplits(a, b[..n]);
    }
  }

  lemma {:induction false} SumSeqSplits(a: seq<int>, b: seq<int>)
    ensures SumSeq(a + b) == SumSeq(a) + SumSeq(b)
    ensures forall x :: SumSeq([x]) == x
  {
    forall x: int
      ensures SumSeq([x]) == x
    {
      assert [x][..0] == [];
    }
    if b == [] {
      assert a + b == a;
    } else {
      var n := |b| - 1;
      assert (a + b)[..|a| + n] == a + b[..n];
      SumSeqSplits(a, b[..n]);
    }
  }

  /** A sum over a set of keys takes each of them once. */
  lemma {:induction false} SumOfOneMore(m: Metrics, keys: set<string>, k: string)
    requires keys <= m.Keys && k in m && k !in keys
    ensures SumOf(m, {}) == 0 && SumOf(m, keys + {k}) == SumOf(m, keys) + m[k]
  {
    SumPick(m, keys + {k}, k);
    assert keys + {k} - {k} == keys;
  }

  // ---- the resource path, over pods and metrics ----

  ghost predicate LacksRequest(pods: set<Pod>) {
    exists p, c :: p in pods && 0 <= c < |p.requests| && p.requests[c].None?
  }

  lemma {:induction false} LacksRequestIs(pods: set<Pod>)
    ensures LacksRequest(pods) <==> SomeRequestMissing(pods)
  {
    if SomeRequestMissing(pods) {
      var p :| p in pods && !p.HasAllRequests();
      var c :| 0 <= c < |p.requests| && !p.requests[c].Some?;
      assert p.requests[c].None?;
    }
    if LacksRequest(pods) {
      var p, c :| p in pods && 0 <= c < |p.requests| && p.requests[c].None?;
      assert !p.HasAllRequests();
    }
  }

  /** Exactly when the calculation fails, and how. */
  lemma {:induction false} ResourceFailsIff(
    pods: set<Pod>, metrics: Metrics, timestamp: Time, current: int, target: Target, tolerance: real)
    requires Injective(pods)
    ensures var r := ResourceOutcome(pods, metrics, timestamp, current, target, tolerance);
      var t := ResourceTally(pods, metrics);
      && (r == Err(NoPods) <==> pods == {})
      && (r == Err(MissingRequest) <==> pods != {} && LacksRequest(pods))
      && (r == Err(NoReadyMetrics) <==> pods != {} && !LacksRequest(pods) && t.ready + t.extra == 0)
      && (r == Err(NoMatchingPods) <==>
            pods != {} && !LacksRequest(pods) && t.ready + t.extra > 0 && (t.ready == 0 || t.readyRequest == 0))
      && (r.Ok? <==> pods != {} && !LacksRequest(pods) && t.ready > 0 && t.readyRequest > 0)
  {
    LacksRequestIs(pods);
    hide ResourceTally, LacksRequest, SomeRequestMissing, ResourceReplicas, Percent, TruncDiv, Injective;
  }

  lemma {:induction false} TallyOutcomeIs(
    t: Tally, timestamp: Time, current: int, target: Target, tolerance: real)
    requires 0 < t.ready && 0 < t.readyRequest
    ensures var r := TallyOutcome(t, current, target, tolerance, timestamp);
      && r.Ok? && r.value.timestamp == timestamp
      && r.value.replicas == ResourceReplicas(t, current, target, tolerance)
      && IsQuotient(r.value.percentage, t.usage * 100, t.readyRequest) && IsQuotient(r.value.raw, t.usage, t.ready)
  {
    TruncDivIs(t.usage * 100, t.readyRequest, Percent(t.usage, t.readyRequest));
    TruncDivIs(t.usage, t.ready, TruncDiv(t.usage, t.ready));
    hide ResourceReplicas, TruncDiv, IsQuotient;
  }

  /** What a computed resource proposal reports, and how far it goes; `q` is the floored percentage after the refill. */
  ghost predicate ResourceAnswer(t: Tally, current: int, target: Target, tolerance: real, r: ResourceProposal) {
    && 0 < t.ready && 0 < t.readyRequest
    && IsQuotient(r.percentage, t.usage * 100, t.readyRequest) && IsQuotient(r.raw, t.usage, t.ready)
    && var load := Counted(t, r.percentage, target);
      if Unfilled(t.missing, t.unready, r.percentage, target)
      then Sized(r.replicas, current, r.percentage, t.ready, target, tolerance, false)
      else forall q :: IsQuotient(q, load.usage * 100, load.request) ==>
        Sized(r.replicas, current, q, load.count, target, tolerance, Reversed(r.percentage, q, target))
  }

  lemma {:induction false} TallyAnswer(t: Tally, timestamp: Time, current: int, target: Target, tolerance: real)
    requires 0 < t.ready && 0 < t.readyRequest
    ensures var r := TallyOutcome(t, current, target, tolerance, timestamp);
      r.Ok? && r.value.timestamp == timestamp && ResourceAnswer(t, current, target, tolerance, r.value)
  {
    hide TallyOutcome, IsQuotient, Sized, Reversed, Unfilled, Counted, ResourceReplicas;
    TallyOutcomeIs(t, timestamp, current, target, tolerance);
    var r := TallyOutcome(t, current, target, tolerance, timestamp).value;
    var load := Counted(t, r.percentage, target);
    CountedPositive(t, r.percentage, target);
    TruncDivIs(load.usage * 100, load.request, TruncDiv(load.usage * 100, load.request));
    ResourceMagnitude(t, current, target, tolerance, r.percentage, TruncDiv(load.usage * 100, load.request));
    forall q | IsQuotient(q, load.usage * 100, load.request)
      ensures q == TruncDiv(load.usage * 100, load.request)
    {
      TruncDivIs(load.usage * 100, load.request, q);
    }
  }

  lemma {:induction false} CountedPositive(t: Tally, p: int, target: Target)
    ensures t.readyRequest <= Counted(t, p, target).request
  {
  }

  /** A computed proposal over pods and metrics. */
  lemma {:induction false} ResourceProposalIs(
    pods: set<Pod>, metrics: Metrics, timestamp: Time, current: int, target: Target, tolerance: real)
    requires Injective(pods) && ResourceOutcome(pods, metrics, timestamp, current, target, tolerance).Ok?
    ensures var r := ResourceOutcome(pods, metrics, timestamp, current, target, tolerance).value;
      r.timestamp == timestamp && ResourceAnswer(ResourceTally(pods, metrics), current, target, tolerance, r)
  {
    ResourceFailsIff(pods, metrics, timestamp, current, target, tolerance);
    hide ResourceTally, LacksRequest, SomeRequestMissing, NoneListed, Injective, TallyOutcome, ResourceAnswer;
    TallyAnswer(ResourceTally(pods, metrics), timestamp, current, target, tolerance);
  }

  // ---- the plain path, over pods and metrics ----

  lemma {:induction false} PlainFailsIff(
    pods: set<Pod>, metrics: Metrics, timestamp: Time, current: int, target: Target, tolerance: real)
    ensures var r, t := PlainOutcome(pods, metrics, timestamp, current, target, tolerance), PlainTallyOf(pods, metrics);
      && (r == Err(NoPods) <==> pods == {})
      && (r == Err(NoReadyMetrics) <==> pods != {} && t.ready + t.extra == 0)
      && (r.Ok? <==> pods != {} && t.ready + t.extra > 0)
  {
    hide PlainTallyOf, PlainReplicas, TruncDiv;
  }

  lemma {:induction false} PlainTallyOutcomeIs(
    t: PlainTally, timestamp: Time, current: int, target: Target, tolerance: real)
    requires 0 < t.ready + t.extra
    ensures var r := PlainTallyOutcome(t, current, target, tolerance, timestamp);
      && r.Ok? && r.value.timestamp == timestamp
      && r.value.replicas == PlainReplicas(t, current, target, tolerance)
      && IsQuotient(r.value.utilization, t.usage, t.ready + t.extra)
  {
    TruncDivIs(t.usage, t.ready + t.extra, TruncDiv(t.usage, t.ready + t.extra));
    hide PlainReplicas, TruncDiv, IsQuotient;
  }

  /** The same for the plain path; `b` is the floored average after the refill. */
  ghost predicate PlainAnswer(t: PlainTally, current: int, target: Target, tolerance: real, r: Proposal) {
    && 0 < t.ready + t.extra && IsQuotient(r.utilization, t.usage, t.ready + t.extra)
    && var load := PlainCounted(t, r.utilization, target);
      if Unfilled(t.missing, t.unready, r.utilization, target)
      then Sized(r.replicas, current, r.utilization, t.ready, target, tolerance, false)
      else forall b :: IsQuotient(b, load.usage, load.count) ==>
        Sized(r.replicas, current, b, load.count, target, tolerance, Reversed(r.utilization, b, target))
  }

  lemma {:induction false} PlainCountedPositive(t: PlainTally, a: int, target: Target)
    ensures t.ready + t.extra <= PlainCounted(t, a, target).count
  {
  }

  lemma {:induction false} PlainTallyAnswer(
    t: PlainTally, timestamp: Time, current: int, target: Target, tolerance: real)
    requires 0 < t.ready + t.extra
    ensures var r := PlainTallyOutcome(t, current, target, tolerance, timestamp);
      r.Ok? && r.value.timestamp == timestamp && PlainAnswer(t, current, target, tolerance, r.value)
  {
    hide PlainTallyOutcome, IsQuotient, Sized, Reversed, Unfilled, PlainCounted, PlainReplicas;
    PlainTallyOutcomeIs(t, timestamp, current, target, tolerance);
    var r := PlainTallyOutcome(t, current, target, tolerance, timestamp).value;
    var load := PlainCounted(t, r.utilization, target);
    PlainCountedPositive(t, r.utilization, target);
    TruncDivIs(load.usage, load.count, TruncDiv(load.usage, load.count));
    PlainMagnitude(t, current, target, tolerance, r.utilization, TruncDiv(load.usage, load.count));
    forall b | IsQuotient(b, load.usage, load.count)
      ensures b == TruncDiv(load.usage, load.count)
    {
      TruncDivIs(load.usage, load.count, b);
    }
  }

  lemma {:induction false} PlainProposalIs(
    pods: set<Pod>, metrics: Metrics, timestamp: Time, current: int, target: Target, tolerance: real)
    requires PlainOutcome(pods, metrics, timestamp, current, target, tolerance).Ok?
    ensures var r := PlainOutcome(pods, metrics, timestamp, current, target, tolerance).value;
      r.timestamp == timestamp && PlainAnswer(PlainTallyOf(pods, metrics), current, target, tolerance, r)
  {
    PlainFailsIff(pods, metrics, timestamp, current, target, tolerance);
    hide PlainTallyOf, NoneListed, PlainTallyOutcome, PlainAnswer;
    PlainTallyAnswer(PlainTallyOf(pods, metrics), timestamp, current, target, tolerance);
  }

  // ---- object and external metrics ----

  lemma {:induction false} ScaledSized(usage: int, target: Target, current: int, tolerance: real)
    ensures Sized(ScaledReplicas(usage, target, current, tolerance), current, usage, current, target, tolerance, false)
  {
    DirectSized(usage, current, current, target, tolerance);
    hide Sized, Ratio, RoundUp;
  }

  lemma {:induction false} CeilLeast(load: int, target: Target)
    ensures LeastFor(Ceil(Ratio(load, target)), load, target)
  {
    RoundsToLeast(load, target, 1);
    assert Ratio(load, target) * 1 as real == Ratio(load, target);
    hide Ratio, Ceil;
  }

  /** The current count within tolerance of the target for it, and otherwise the least count for the total. */
  lemma {:induction false} PerPodSized(usage: int, target: Target, current: int, tolerance: real)
    requires 0 < current
    ensures 0 < target * current
    ensures var r := PerPodReplicas(usage, target, current, tolerance);
      if Within(usage, target * current, tolerance) then r == current else LeastFor(r, usage, target)
  {
    PositiveProduct(target, current);
    WithinIs(usage, target * current, tolerance);
    CeilLeast(usage, target);
    hide Ratio, Ceil, Within, LeastFor;
  }
}
