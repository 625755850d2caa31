/**
 What one pass guarantees: exactly when it rescales, in which direction and how far,
 and what it records about it.
 */
module PassTheorems {
  import opened Wrappers
  import opened Arithmetic
  import opened PodMetrics
  import opened ReplicaCalculators
  import opened Conditions
  import opened Chpa
  import opened MetricFold
  import opened Reconcile

  /** Neither disabled nor out of bounds: the metrics decide. */
  predicate MetricsDecide(spec: Spec, specReplicas: int, current: nat) {
    specReplicas != 0 && !OutOfBounds(spec, current)
  }

  /** The specification ranges on which the clamp and the windows make sense. */
  predicate Sane(spec: Spec) {
    && 1.0 <= spec.limitFactor && 0 <= spec.limitMinimum
    && 0 <= spec.upscaleWindow && 0 <= spec.downscaleWindow
    && 0 <= spec.minReplicas.GetOr(0) && 1 <= spec.maxReplicas
  }

  /** The last scale time moves exactly when the deployment update succeeded, and then to that pass's clock. */
  lemma {:induction false} LastScaleTimeAdvancesIff(
    spec: Spec, s: StatusValue, specReplicas: int, current: nat, inputs: Inputs)
    requires Usable(spec, inputs)
    ensures var o := Pass(spec, s, specReplicas, current, inputs);
      && o.scaled == (o.deployAttempted && inputs.deployWriteOk)
      && o.proposed.lastScaleTime == o.memory.lastScaleTime
      && o.memory.lastScaleTime == (if o.scaled then Some(inputs.readings[AT_STATUS]) else s.lastScaleTime)
      && o.statusAttempted == (o.proposed != s)
      && (o.scaled && s.lastScaleTime != Some(inputs.readings[AT_STATUS]) ==> o.statusAttempted)
  {
    hide Computed, ApplyAll, ApplyUpdate, Normalize, ShouldScale;
  }

  /**
   A pass attempts to rescale exactly when a bound is violated or the clamped proposal differs and its
   window has passed.
   */
  lemma {:induction false} RescalesIff(spec: Spec, s: StatusValue, specReplicas: int, current: nat, inputs: Inputs)
    requires Usable(spec, inputs)
    ensures var o := Pass(spec, s, specReplicas, current, inputs);
      && (specReplicas == 0 ==> !o.deployAttempted)
      && (specReplicas != 0 && OutOfBounds(spec, current) ==>
          o.deployAttempted && o.target == Correction(spec, current))
      && (MetricsDecide(spec, specReplicas, current) ==>
            var computed := ComputedFor(spec, current, inputs);
            && (computed.Err? ==> !o.deployAttempted)
            && (computed.Ok? ==>
                  var desired := Normalize(spec, current, Proposed(computed.value)).replicas;
                  var at := ProposedAt(computed.value, inputs.readings[AT_START]);
                  && (o.deployAttempted <==>
                        || (desired > current && !BackoffFrom(s.lastScaleTime, spec.upscaleWindow, at))
                        || (desired < current && !BackoffFrom(s.lastScaleTime, spec.downscaleWindow, at)))
                  && (o.deployAttempted ==> o.target == desired)))
      && (!o.deployAttempted ==> o.target == specReplicas)
  {
    hide Computed, ApplyAll, ApplyUpdate, Normalize;
  }

  // ---- direction, end to end ----

  lemma {:induction false} ProposedDirection(spec: Spec, current: nat, f: Folded, ps: seq<MetricProposal>)
    requires Sane(spec) && !OutOfBounds(spec, current)
    requires NonNegativeProposals(ps) && f == FoldAll(ps)
    ensures var r := Normalize(spec, current, Proposed(f)).replicas;
      && Floor(spec) <= r <= Ceiling(spec, current)
      && (r > current ==> exists i :: 0 <= i < |ps| && ps[i].replicas > current)
      && (r < current ==> forall i :: 0 <= i < |ps| ==> ps[i].replicas < current)
  {
    var w := FoldIsFirstMaximum(ps);
    ClampIsProjection(spec, current, Proposed(f));
    hide Normalize, Ceiling, FoldAll;
    if Proposed(f) > current {
      assert ps[w].replicas > current;
    }
  }

  ghost predicate ProposesMore(spec: Spec, current: nat, inputs: Inputs, i: nat)
    requires Usable(spec, inputs) && 0 < current && i < |spec.metrics|
  {
    var r := Propose(spec.metrics[i], inputs.observations[i], current, inputs.tolerance);
    r.Ok? && r.value.replicas > current
  }

  ghost predicate ProposesFewer(spec: Spec, current: nat, inputs: Inputs, i: nat)
    requires Usable(spec, inputs) && 0 < current && i < |spec.metrics|
  {
    var r := Propose(spec.metrics[i], inputs.observations[i], current, inputs.tolerance);
    r.Ok? && r.value.replicas < current
  }

  ghost predicate NonNegativeInputs(inputs: Inputs) {
    forall i :: 0 <= i < |inputs.observations| ==> NonNegativeObservation(inputs.observations[i])
  }

  lemma {:induction false} ComputedDirection(spec: Spec, current: nat, inputs: Inputs)
    requires Usable(spec, inputs) && NonNegativeInputs(inputs) && Sane(spec) && !OutOfBounds(spec, current)
    requires ComputedFor(spec, current, inputs).Ok?
    ensures var r := Normalize(spec, current, Proposed(ComputedFor(spec, current, inputs).value)).replicas;
      && Floor(spec) <= r <= Ceiling(spec, current)
      && (r > current ==> exists i: nat :: i < |spec.metrics| && ProposesMore(spec, current, inputs, i))
      && (r < current ==> forall i: nat :: i < |spec.metrics| ==> ProposesFewer(spec, current, inputs, i))
  {
    var ps := ComputedFrom(spec, current, inputs);
    ProposedDirection(spec, current, FoldAll(ps), ps);
    hide Normalize, Ceiling, FoldAll, Propose, ComputedFor, Sane, OutOfBounds, Usable;
    var r := Normalize(spec, current, Proposed(FoldAll(ps))).replicas;
    if r > current {
      var i: nat :| i < |ps| && ps[i].replicas > current;
      assert ProposesMore(spec, current, inputs, i);
    }
  }

  /** The proposals behind a computed result are those each metric makes on its own. */
  lemma {:induction false} ComputedFrom(spec: Spec, current: nat, inputs: Inputs) returns (ps: seq<MetricProposal>)
    requires Usable(spec, inputs) && NonNegativeInputs(inputs) && 0 < current
    requires ComputedFor(spec, current, inputs).Ok?
    ensures ComputedFor(spec, current, inputs).value == FoldAll(ps)
    ensures NonNegativeProposals(ps) && |ps| == |spec.metrics|
    ensures forall i :: 0 <= i < |ps| ==>
      Propose(spec.metrics[i], inputs.observations[i], current, inputs.tolerance) == Ok(ps[i])
  {
    ps := Proposals(spec.metrics, inputs.observations, inputs.selector, current, inputs.tolerance).value;
    hide FoldAll, Propose, Proposals, NonNegativeObservation, Listing;
    ProposalsNonNegative(spec.metrics, inputs.observations, inputs.selector, current, inputs.tolerance);
    ProposalsPointwise(spec.metrics, inputs.observations, inputs.selector, current, inputs.tolerance);
  }

  /** A metrics-driven write above the current count has a metric proposing more; one below has all proposing fewer. */
  lemma {:induction false} EndToEndDirection(
    spec: Spec, s: StatusValue, specReplicas: int, current: nat, inputs: Inputs)
    requires Usable(spec, inputs) && NonNegativeInputs(inputs) && Sane(spec)
      && MetricsDecide(spec, specReplicas, current)
    ensures var o := Pass(spec, s, specReplicas, current, inputs);
      o.deployAttempted ==>
        && o.target != current
        && Floor(spec) <= o.target <= Ceiling(spec, current)
        && (o.target > current ==> exists i: nat :: i < |spec.metrics| && ProposesMore(spec, current, inputs, i))
        && (o.target < current ==> forall i: nat :: i < |spec.metrics| ==> ProposesFewer(spec, current, inputs, i))
  {
    RescalesIff(spec, s, specReplicas, current, inputs);
    hide Pass, Normalize, Ceiling, ProposesMore, ProposesFewer, ComputedFor;
    if ComputedFor(spec, current, inputs).Ok? {
      ComputedDirection(spec, current, inputs);
    }
  }

  // ---- timestamps ----

  /** No sample is younger than `now`. */
  ghost predicate Timely(o: Observation, now: Time) {
    && (o.podMetrics.Some? ==> o.podMetrics.value.timestamp <= now)
    && (o.objectValue.Some? ==> o.objectValue.value.timestamp <= now)
    && (o.externalValues.Some? ==> o.externalValues.value.timestamp <= now)
  }

  /** Samples are stamped before the clock reading that follows the last fetch. */
  ghost predicate TimelyInputs(inputs: Inputs) {
    forall i :: 0 <= i < |inputs.observations| ==> Timely(inputs.observations[i], inputs.readings[AT_ACTIVE])
  }

  lemma {:induction false} ProposalTimely(m: MetricSpec, o: Observation, current: int, tolerance: real, now: Time)
    requires m.PointerSet() && Listing(o) && 0 < current && Timely(o, now)
    ensures var r := Propose(m, o, current, tolerance); r.Ok? ==> r.value.timestamp <= now
  {
    hide PlainTallyOf, PlainReplicas, ResourceTally, ResourceReplicas, ScaledReplicas, PerPodReplicas, SumSeq;
    hide PodSet, UniqueNames, NoneListed, SomeRequestMissing, Injective, Percent, TruncDiv;
  }

  lemma {:induction false} FoldTimely(
    metrics: seq<MetricSpec>, observations: seq<Observation>, selector: Selector, current: int, tolerance: real,
    now: Time)
    requires ValidMetrics(metrics) && |observations| == |metrics| && 0 < current
    requires forall i :: 0 <= i < |observations| ==> Listing(observations[i]) && Timely(observations[i], now)
    ensures var r := Proposals(metrics, observations, selector, current, tolerance);
      r.Ok? ==> var f := FoldAll(r.value); f.replicas > 0 ==> f.timestamp <= now
  {
    if metrics != [] {
      var n := |metrics| - 1;
      hide Propose, Timely, Listing;
      FoldTimely(metrics[..n], observations[..n], selector, current, tolerance, now);
      ProposalTimely(metrics[n], observations[n], current, tolerance, now);
      var r := Proposals(metrics, observations, selector, current, tolerance);
      if r.Ok? {
        var earlier := Proposals(metrics[..n], observations[..n], selector, current, tolerance).value;
        assert r.value[..|r.value| - 1] == earlier;
      }
    }
  }

  /** The timestamp compared with the window is never ahead of the pass's own clock, read once all metrics are in. */
  lemma {:induction false} ProposedAtTimely(spec: Spec, current: nat, inputs: Inputs)
    requires Usable(spec, inputs) && TimelyInputs(inputs) && 0 < current
    ensures var computed := ComputedFor(spec, current, inputs);
      computed.Ok? ==> ProposedAt(computed.value, inputs.readings[AT_START]) <= inputs.readings[AT_ACTIVE]
  {
    FoldTimely(spec.metrics, inputs.observations, inputs.selector, current, inputs.tolerance,
      inputs.readings[AT_ACTIVE]);
  }

  // ---- the tolerance of the specification ----

  lemma {:induction false} LimitIgnoresTolerance(spec: Spec, tolerance: real, current: int)
    ensures ScaleUpLimitFor(spec.(tolerance := tolerance), current) == ScaleUpLimitFor(spec, current)
  {
    var other := spec.(tolerance := tolerance);
    EqualProducts(other.limitFactor, spec.limitFactor, current as real);
    hide Truncate, MaxReal;
  }

  lemma {:induction false} EqualProducts(f: real, f': real, x: real)
    requires f == f'
    ensures f * x == f' * x
  {
  }

  lemma {:induction false} RulesIgnoreTolerance(
    spec: Spec, tolerance: real, last: Option<Time>, current: int, desired: int, at: Time)
    ensures var other := spec.(tolerance := tolerance);
      && Normalize(other, current, desired) == Normalize(spec, current, desired)
      && ShouldScale(other, last, current, desired, at) == ShouldScale(spec, last, current, desired, at)
      && OutOfBounds(other, current) == OutOfBounds(spec, current)
      && Correction(other, current) == Correction(spec, current)
  {
    hide ScaleUpLimitFor, Elapsed;
    LimitIgnoresTolerance(spec, tolerance, current);
  }

  lemma {:induction false} VerdictIgnoresTolerance(
    spec: Spec, tolerance: real, last: Option<Time>, current: int, computed: Result<Folded, MetricError>, r: Readings)
    ensures MetricsVerdict(spec.(tolerance := tolerance), last, current, computed, r)
      == MetricsVerdict(spec, last, current, computed, r)
  {
    if computed.Ok? {
      var desired := Proposed(computed.value);
      var at := ProposedAt(computed.value, r[AT_START]);
      RulesIgnoreTolerance(spec, tolerance, last, current, desired, at);
      RulesIgnoreTolerance(spec, tolerance, last, current, Normalize(spec, current, desired).replicas, at);
    }
    hide Normalize, ShouldScale, OutOfBounds, Correction;
  }

  /** The pass works with the calculator's tolerance; the field of the specification has no influence on it. */
  lemma {:induction false} SpecToleranceIsIgnored(
    spec: Spec, s: StatusValue, specReplicas: int, current: nat, inputs: Inputs, tolerance: real)
    requires Usable(spec, inputs)
    ensures Usable(spec.(tolerance := tolerance), inputs)
    ensures Pass(spec.(tolerance := tolerance), s, specReplicas, current, inputs)
      == Pass(spec, s, specReplicas, current, inputs)
  {
    hide Computed, MetricsVerdict, Conclude, Normalize, ShouldScale, Correction;
    RulesIgnoreTolerance(spec, tolerance, s.lastScaleTime, current, 0, 0);
    if MetricsDecide(spec, specReplicas, current) {
      var computed := ComputedFor(spec, current, inputs);
      VerdictIgnoresTolerance(spec, tolerance, s.lastScaleTime, current, computed, inputs.readings);
    }
  }
}
