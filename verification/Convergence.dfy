/**
 Convergence under constant external loads with per-pod targets: while the windows
 allow it and the deployment catches up, the count moves monotonically toward the
 clamped largest need, never past it, and settles; with a factor of at least 2 it
 settles in logarithmically many rounds.
 */
module Convergence {
  import opened Wrappers
  import opened Arithmetic
  import opened PodMetrics
  import opened ReplicaCalculators
  import opened Chpa
  import opened MetricFold
  import opened Demands
  import opened Reconcile
  import opened PassTheorems
  import opened ControlLoop

  /** The metric asks for the share's target per pod, and its samples add up to the share's total. */
  ghost predicate ObservesShare(m: MetricSpec, o: Observation, s: Share) {
    && m.typ == ExternalType
    && m.externalMetric.Some? && m.externalMetric.value.averageValue == Some(s.target)
    && o.externalSelectorOk && o.externalValues.Some?
    && SumSeq(o.externalValues.value.value) == s.total
  }

  /** The specification scales on these shares alone, and the pass observes them. */
  ghost predicate Observes(spec: Spec, inputs: Inputs, d: Demand) {
    && |spec.metrics| == |inputs.observations| == |d.shares|
    && inputs.selector == UsableSelector && inputs.tolerance == d.tolerance
    && forall i :: 0 <= i < |d.shares| ==> ObservesShare(spec.metrics[i], inputs.observations[i], d.shares[i])
  }

  function Goal(spec: Spec, d: Demand): int {
    Min(Max(Needed(d), Floor(spec)), spec.maxReplicas)
  }

  /** The count after one unhindered round from `c` replicas. */
  function NextCount(spec: Spec, d: Demand, c: int): int
    requires 0 < c
  {
    Normalize(spec, c, Wanted(d, c)).replicas
  }

  // ---- one round of the map ----

  /**
   One round stays in bounds, lies between the current count and the goal, and stands
   still exactly at the goal, within tolerance, or where the limit truncates to the current count.
   */
  lemma {:induction false} NextCountApproaches(spec: Spec, d: Demand, c: int)
    requires Sane(spec) && InBounds(spec, c)
    ensures var (n, g) := (NextCount(spec, d, c), Goal(spec, d));
      && InBounds(spec, n) && InBounds(spec, g)
      && Between(n, c, g)
      && (n == c <==> c == g || WithinTolerance(d, c) || (c < g && ScaleUpLimitFor(spec, c) == c))
      && (n != c && g < c ==> n == g)
      && (n != c && c < g ==> n == Min(g, ScaleUpLimitFor(spec, c)))
  {
    WantedIsEither(d, c);
    ClampIsProjection(spec, c, Wanted(d, c));
    LimitAtLeastCurrent(spec, c);
    hide ScaleUpLimitFor, Wanted, Needed, WithinTolerance, Normalize;
  }

  function Iterate(spec: Spec, d: Demand, c: int, k: nat): int
    requires Sane(spec) && InBounds(spec, c)
    decreases k
  {
    if k == 0 then c
    else
      NextCountApproaches(spec, d, c);
      Iterate(spec, d, NextCount(spec, d, c), k - 1)
  }

  function Distance(a: int, b: int): nat {
    if a < b then b - a else a - b
  }

  /** Every iterate stays in bounds and between the start and the goal. */
  lemma {:induction false} IterateApproaches(spec: Spec, d: Demand, c: int, k: nat)
    requires Sane(spec) && InBounds(spec, c)
    ensures var n := Iterate(spec, d, c, k); InBounds(spec, n) && Between(n, c, Goal(spec, d))
    decreases k
  {
    NextCountApproaches(spec, d, c);
    if k > 0 {
      IterateApproaches(spec, d, NextCount(spec, d, c), k - 1);
    }
    hide NextCount, Goal, Floor;
  }

  predicate Settled(spec: Spec, d: Demand, c: int)
    requires 0 < c
  {
    NextCount(spec, d, c) == c
  }

  lemma {:induction false} SettledStays(spec: Spec, d: Demand, c: int, k: nat)
    requires Sane(spec) && InBounds(spec, c) && Settled(spec, d, c)
    ensures Iterate(spec, d, c, k) == c
    decreases k
  {
    if k > 0 {
      SettledStays(spec, d, c, k - 1);
    }
  }

  /** The distance to the goal bounds the number of rounds until the count settles, and it settles for good. */
  lemma {:induction false} SettlesWithinDistance(spec: Spec, d: Demand, c: int, k: nat)
    requires Sane(spec) && InBounds(spec, c) && Distance(c, Goal(spec, d)) <= k
    ensures var n := Iterate(spec, d, c, k); InBounds(spec, n) && Settled(spec, d, n)
    decreases k
  {
    NextCountApproaches(spec, d, c);
    var n := NextCount(spec, d, c);
    if n == c {
      SettledStays(spec, d, c, k);
    } else {
      assert k > 0;
      SettlesWithinDistance(spec, d, n, k - 1);
    }
  }

  // ---- logarithmic settling ----

  function Doubled(c: int, k: nat): int
    decreases k
  {
    if k == 0 then c else Doubled(2 * c, k - 1)
  }

  lemma {:induction false} LimitDoubles(spec: Spec, c: int)
    requires 2.0 <= spec.limitFactor && 0 <= c
    ensures 2 * c <= ScaleUpLimitFor(spec, c)
  {
    var f, x := spec.limitFactor, c as real;
    ProductNonNegative(f - 2.0, x);
    assert (f - 2.0) * x == f * x - 2.0 * x;
    assert (2 * c) as real <= f * x;
  }

  lemma {:induction false} DoubledMonotone(a: int, b: int, k: nat)
    requires a <= b
    ensures Doubled(a, k) <= Doubled(b, k)
    decreases k
  {
    if k > 0 {
      DoubledMonotone(2 * a, 2 * b, k - 1);
    }
  }

  /** With a factor of at least 2, `k` rounds settle as soon as `k` doublings would reach the goal. */
  lemma {:induction false} SettlesLogarithmically(spec: Spec, d: Demand, c: int, k: nat)
    requires Sane(spec) && 2.0 <= spec.limitFactor && InBounds(spec, c)
    requires 1 <= k && Goal(spec, d) <= Doubled(c, k)
    ensures var n := Iterate(spec, d, c, k); InBounds(spec, n) && Settled(spec, d, n)
    ensures var n := Iterate(spec, d, c, k); n == Goal(spec, d) || WithinTolerance(d, n)
    decreases k
  {
    NextCountApproaches(spec, d, c);
    LimitDoubles(spec, c);
    var (n, g) := (NextCount(spec, d, c), Goal(spec, d));
    if n == c {
      SettledStays(spec, d, c, k);
    } else if n == g {
      NextCountApproaches(spec, d, n);
      SettledStays(spec, d, n, k - 1);
    } else {
      assert 2 * c <= n < g;
      DoubledMonotone(2 * c, n, k - 1);
      assert k - 1 >= 1;
      SettlesLogarithmically(spec, d, n, k - 1);
    }
    hide ScaleUpLimitFor, NextCount, Goal, WithinTolerance;
  }

  // ---- one round of the loop ----

  /** Both forbidden windows have passed by `at`. */
  predicate Unhindered(spec: Spec, s: LoopState, at: Time) {
    s.status.lastScaleTime.Some? ==>
      && Elapsed(s.status.lastScaleTime.value, spec.upscaleWindow, at)
      && Elapsed(s.status.lastScaleTime.value, spec.downscaleWindow, at)
  }

  /** They have passed by every sample's timestamp and, for a zero proposal, by the pass's own clock. */
  ghost predicate UnhinderedPass(spec: Spec, s: LoopState, inputs: Inputs) {
    && Unhindered(spec, s, inputs.readings[AT_START])
    && forall i :: 0 <= i < |inputs.observations| && inputs.observations[i].externalValues.Some? ==>
        Unhindered(spec, s, inputs.observations[i].externalValues.value.timestamp)
  }

  lemma {:induction false} ShareProposed(m: MetricSpec, o: Observation, s: Share, c: int, tolerance: real)
    requires m.PointerSet() && Listing(o) && ObservesShare(m, o, s) && 0 < c
    ensures var r := Propose(m, o, c, tolerance);
      && r.Ok? && r.value.replicas == WantedBy(s, tolerance, c)
      && r.value.timestamp == o.externalValues.value.timestamp
  {
    hide PerPodReplicas, SumSeq;
  }

  /** The proposal that is kept for the demand comes with the timestamp of some metric's sample, unless it is zero. */
  ghost predicate Foretold(inputs: Inputs, d: Demand, c: int, f: Folded)
    requires 0 < c
  {
    && f.replicas == Wanted(d, c)
    && (f.replicas > 0 ==> exists i :: 0 <= i < |inputs.observations| && SampledAt(inputs.observations[i], f.timestamp))
  }

  predicate SampledAt(o: Observation, at: Time) {
    o.externalValues.Some? && o.externalValues.value.timestamp == at
  }

  lemma {:induction false} DemandProposed(
    spec: Spec, c: nat, inputs: Inputs, d: Demand) returns (ps: seq<MetricProposal>)
    requires Usable(spec, inputs) && Observes(spec, inputs, d) && 0 < c
    ensures ComputedFor(spec, c, inputs) == Ok(FoldAll(ps)) && |ps| == |d.shares|
    ensures forall i :: 0 <= i < |ps| ==>
      ps[i].replicas == WantedBy(d.shares[i], d.tolerance, c) && SampledAt(inputs.observations[i], ps[i].timestamp)
  {
    hide Propose, Listing, WantedBy, Proposals, FoldAll;
    forall i | 0 <= i < |d.shares|
      ensures var r := Propose(spec.metrics[i], inputs.observations[i], c, inputs.tolerance);
        && r.Ok? && r.value.replicas == WantedBy(d.shares[i], d.tolerance, c)
        && r.value.timestamp == inputs.observations[i].externalValues.value.timestamp
    {
      ShareProposed(spec.metrics[i], inputs.observations[i], d.shares[i], c, inputs.tolerance);
    }
    AllProposeSuffices(spec.metrics, inputs.observations, inputs.selector, c, inputs.tolerance);
    ProposalsAreOwn(spec.metrics, inputs.observations, inputs.selector, c, inputs.tolerance);
    ps := Proposals(spec.metrics, inputs.observations, inputs.selector, c, inputs.tolerance).value;
  }

  /** The fold over the metrics computes the demand's largest proposal. */
  lemma {:induction false} DemandComputed(spec: Spec, c: nat, inputs: Inputs, d: Demand)
    requires Usable(spec, inputs) && Observes(spec, inputs, d) && 0 < c
    ensures var computed := ComputedFor(spec, c, inputs); computed.Ok? && Foretold(inputs, d, c, computed.value)
    ensures 0 <= Wanted(d, c)
  {
    var observed := |inputs.observations| == |d.shares|;
    assert observed;
    hide ComputedFor, Usable, Observes, WantedBy, FoldAll, Largest, Foretold, SampledAt, WithinTolerance;
    var ps := DemandProposed(spec, c, inputs, d);
    WantedIsEither(d, c);
    FoldForetold(inputs, d, c, ps);
  }

  lemma {:induction false} FoldForetold(inputs: Inputs, d: Demand, c: nat, ps: seq<MetricProposal>)
    requires 0 < c && |ps| == |d.shares| == |inputs.observations|
    requires forall i :: 0 <= i < |ps| ==>
      ps[i].replicas == WantedBy(d.shares[i], d.tolerance, c) && SampledAt(inputs.observations[i], ps[i].timestamp)
    ensures Foretold(inputs, d, c, FoldAll(ps))
  {
    EachWants(d, c);
    hide WantedBy, FoldAll, Largest, NeededBy, Calm, SampledAt;
    var want := WantedEach(d, c);
    assert forall i :: 0 <= i < |ps| ==> 0 <= ps[i].replicas == want[i];
    var w := FoldIsFirstMaximum(ps);
    var v := LargestIs(want);
    FoldIsLargest(ps, want, w, v);
  }

  lemma {:induction false} FoldIsLargest(ps: seq<MetricProposal>, values: seq<int>, w: nat, v: nat)
    requires |ps| == |values| && forall i :: 0 <= i < |ps| ==> 0 <= ps[i].replicas == values[i] <= Largest(values)
    requires values == [] ==> Largest(values) == 0
    requires values != [] ==> v < |values| && values[v] == Largest(values)
    requires var f := FoldAll(ps);
      && 0 <= f.replicas
      && (f.replicas > 0 ==> FirstMaximum(ps, w) && f.replicas == ps[w].replicas)
      && (f.replicas == 0 ==> forall i :: 0 <= i < |ps| ==> ps[i].replicas == 0)
    ensures FoldAll(ps).replicas == Largest(values)
  {
    hide FoldAll, Largest;
    if values != [] {
      assert ps[v].replicas == Largest(values);
    }
  }

  /** An unhindered pass over a caught-up deployment in bounds leaves exactly the next count in its specification. */
  lemma {:induction false} PassFollowsNextCount(spec: Spec, s: LoopState, inputs: Inputs, d: Demand)
    requires Sane(spec) && BothInBounds(spec, s) && s.specReplicas == s.statusReplicas
    requires Enabled(spec, s, Reconciled(inputs)) && Observes(spec, inputs, d)
    requires inputs.deployWriteOk && UnhinderedPass(spec, s, inputs)
    ensures After(spec, s, Reconciled(inputs)).specReplicas == NextCount(spec, d, s.statusReplicas)
  {
    var c := s.statusReplicas;
    InBoundsMeansMetricsDecide(spec, s);
    DemandComputed(spec, c, inputs, d);
    RescalesIff(spec, s.status, s.specReplicas, c, inputs);
    LastScaleTimeAdvancesIff(spec, s.status, s.specReplicas, c, inputs);
    hide Pass, ComputedFor, Normalize, Wanted, Usable, NonNegativeInputs, Observes;
  }

  /** A run of rounds: each pass observes the demand unhindered, then the deployment catches up. */
  ghost predicate Rounds(spec: Spec, d: Demand, states: seq<LoopState>, events: seq<Event>) {
    && CatchUpRounds(spec, states, events)
    && (forall i :: 0 <= i < |events| && i % 2 == 0 ==>
          Observes(spec, events[i].inputs, d) && UnhinderedPass(spec, states[i], events[i].inputs))
  }

  predicate CaughtUp(spec: Spec, s: LoopState, n: int) {
    BothInBounds(spec, s) && s.specReplicas == s.statusReplicas == n
  }

  lemma {:induction false} ObservedCatchesUp(spec: Spec, s: LoopState, s': LoopState, e: Event, n: int)
    requires s.specReplicas == n && InBounds(spec, n)
    requires Enabled(spec, s, e) && e.Observed? && e.replicas == s.specReplicas && s' == After(spec, s, e)
    ensures CaughtUp(spec, s', n)
  {
  }

  lemma {:induction false} OneRound(spec: Spec, d: Demand, states: seq<LoopState>, events: seq<Event>, i: nat, c: int)
    requires Sane(spec) && Rounds(spec, d, states, events) && i + 2 <= |events| && i % 2 == 0
    requires CaughtUp(spec, states[i], c)
    ensures 0 < c && CaughtUp(spec, states[i + 2], NextCount(spec, d, c))
  {
    assert (i + 1) % 2 == 1;
    PassFollowsNextCount(spec, states[i], events[i].inputs, d);
    NextCountApproaches(spec, d, c);
    hide NextCount, Goal, Floor, ScaleUpLimitFor, Observes, Unhindered, Usable;
    ObservedCatchesUp(spec, states[i + 1], states[i + 2], events[i + 1], NextCount(spec, d, c));
  }

  lemma {:induction false} RoundFollows(
    spec: Spec, d: Demand, states: seq<LoopState>, events: seq<Event>, c: int, k: nat)
    requires Sane(spec) && Rounds(spec, d, states, events) && 2 * k + 2 <= |events| && InBounds(spec, c)
    requires CaughtUp(spec, states[2 * k], Iterate(spec, d, c, k))
    ensures CaughtUp(spec, states[2 * k + 2], Iterate(spec, d, c, k + 1))
  {
    hide Rounds, NextCount, Iterate, CaughtUp, Sane;
    IterateOneMore(spec, d, c, k);
    OneRound(spec, d, states, events, 2 * k, Iterate(spec, d, c, k));
  }

  lemma {:induction false} RoundsFollowIterates(
    spec: Spec, d: Demand, states: seq<LoopState>, events: seq<Event>, k: nat)
    requires Sane(spec) && Rounds(spec, d, states, events) && 2 * k <= |events|
    requires BothInBounds(spec, states[0]) && states[0].specReplicas == states[0].statusReplicas
    ensures CaughtUp(spec, states[2 * k], Iterate(spec, d, states[0].statusReplicas, k))
  {
    if k > 0 {
      RoundsFollowIterates(spec, d, states, events, k - 1);
      hide Rounds, Iterate, CaughtUp, Sane;
      RoundFollows(spec, d, states, events, states[0].statusReplicas, k - 1);
    }
  }

  lemma {:induction false} IterateOneMore(spec: Spec, d: Demand, c: int, k: nat)
    requires Sane(spec) && InBounds(spec, c)
    ensures InBounds(spec, Iterate(spec, d, c, k))
    ensures Iterate(spec, d, c, k + 1) == NextCount(spec, d, Iterate(spec, d, c, k))
    decreases k
  {
    NextCountApproaches(spec, d, c);
    if k > 0 {
      IterateOneMore(spec, d, NextCount(spec, d, c), k - 1);
    }
  }

  /**
   The loop converges: after as many rounds as the distance to the goal, or, with a factor of
   at least 2, as the doublings needed to reach it, every further round leaves the count alone.
   */
  lemma {:induction false} RoundsConverge(spec: Spec, d: Demand, states: seq<LoopState>, events: seq<Event>, k: nat)
    requires Sane(spec) && Rounds(spec, d, states, events) && 2 * k <= |events|
    requires BothInBounds(spec, states[0]) && states[0].specReplicas == states[0].statusReplicas
    ensures var (c, n, g) := (states[0].statusReplicas, states[2 * k].specReplicas, Goal(spec, d));
      && InBounds(spec, n) && Between(n, c, g)
      && (Distance(c, g) <= k || (2.0 <= spec.limitFactor && 1 <= k && g <= Doubled(c, k)) ==> Settled(spec, d, n))
  {
    var c := states[0].statusReplicas;
    RoundsFollowIterates(spec, d, states, events, k);
    IterateApproaches(spec, d, c, k);
    if Distance(c, Goal(spec, d)) <= k {
      SettlesWithinDistance(spec, d, c, k);
    } else if 2.0 <= spec.limitFactor && 1 <= k && Goal(spec, d) <= Doubled(c, k) {
      SettlesLogarithmically(spec, d, c, k);
    }
  }
}
