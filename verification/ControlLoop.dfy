/**
 The closed loop: reconcile passes of one CHPA with a fixed specification, interleaved
 with a deployment whose observed replica count moves toward its specified one.
 Invariants of every run: bounds, separation of rescales, growth.
 */
module ControlLoop {
  import opened Wrappers
  import opened Arithmetic
  import opened PodMetrics
  import opened Conditions
  import opened Chpa
  import opened MetricFold
  import opened Reconcile
  import opened PassTheorems

  /**
   The stored status, the deployment's specified and observed counts, and a lower bound on every later
   clock reading.
   */
  datatype LoopState = LoopState(clock: Time, status: StatusValue, specReplicas: int, statusReplicas: nat)

  datatype Event =
    | Reconciled(inputs: Inputs)             // one whole pass
    | Observed(replicas: nat, at: Time)      // the deployment controller reports progress

  predicate Between(n: int, a: int, b: int) {
    Min(a, b) <= n <= Max(a, b)
  }

  ghost predicate Enabled(spec: Spec, s: LoopState, e: Event) {
    match e
    case Reconciled(inputs) =>
      Usable(spec, inputs) && NonNegativeInputs(inputs) && s.clock <= inputs.readings[AT_GET_SCALE]
    case Observed(replicas, at) =>
      s.clock <= at && Between(replicas, s.statusReplicas, s.specReplicas)
  }

  ghost function PassOf(spec: Spec, s: LoopState, inputs: Inputs): Outcome
    requires Usable(spec, inputs)
  {
    Pass(spec, s.status, s.specReplicas, s.statusReplicas, inputs)
  }

  ghost function After(spec: Spec, s: LoopState, e: Event): LoopState
    requires Enabled(spec, s, e)
  {
    match e
    case Reconciled(inputs) =>
      var o := PassOf(spec, s, inputs);
      LoopState(inputs.readings[AT_STORE_FAILED],
                if o.statusStored then o.proposed else s.status,
                if o.scaled then o.target else s.specReplicas,
                s.statusReplicas)
    case Observed(replicas, at) => s.(clock := at, statusReplicas := replicas)
  }

  /** A run: states and the events between them. */
  ghost predicate Run(spec: Spec, states: seq<LoopState>, events: seq<Event>) {
    && |states| == |events| + 1
    && forall i :: 0 <= i < |events| ==>
        Enabled(spec, states[i], events[i]) && states[i + 1] == After(spec, states[i], events[i])
  }

  // ---- bounds ----

  predicate InBounds(spec: Spec, n: int) {
    Floor(spec) <= n <= spec.maxReplicas
  }

  predicate BothInBounds(spec: Spec, s: LoopState) {
    InBounds(spec, s.specReplicas) && InBounds(spec, s.statusReplicas)
  }

  lemma {:induction false} InBoundsMeansMetricsDecide(spec: Spec, s: LoopState)
    requires Sane(spec) && BothInBounds(spec, s)
    ensures MetricsDecide(spec, s.specReplicas, s.statusReplicas) && 0 < s.statusReplicas
  {
  }

  lemma {:induction false} InBoundsStep(spec: Spec, s: LoopState, e: Event)
    requires Sane(spec) && BothInBounds(spec, s) && Enabled(spec, s, e)
    ensures BothInBounds(spec, After(spec, s, e))
  {
    if e.Reconciled? {
      InBoundsMeansMetricsDecide(spec, s);
      EndToEndDirection(spec, s.status, s.specReplicas, s.statusReplicas, e.inputs);
      LastScaleTimeAdvancesIff(spec, s.status, s.specReplicas, s.statusReplicas, e.inputs);
      LimitAtLeastCurrent(spec, s.statusReplicas);
      hide Pass, ProposesMore, ProposesFewer, NonNegativeInputs;
    }
  }

  /** Once inside the bounds a run never leaves them, so every later write is decided by the metrics. */
  lemma {:induction false} InBoundsForever(spec: Spec, states: seq<LoopState>, events: seq<Event>, i: nat)
    requires Sane(spec) && Run(spec, states, events) && BothInBounds(spec, states[0]) && i < |states|
    ensures BothInBounds(spec, states[i])
    ensures MetricsDecide(spec, states[i].specReplicas, states[i].statusReplicas)
  {
    if i > 0 {
      InBoundsForever(spec, states, events, i - 1);
      InBoundsStep(spec, states[i - 1], events[i - 1]);
    }
    InBoundsMeansMetricsDecide(spec, states[i]);
  }

  /**
   From any enabled deployment outside the bounds, one corrective rescale and a status that
   catches up lead inside exactly when the configured minimum does not exceed the maximum.
   */
  lemma {:induction false} CorrectionReachesBoundsIff(spec: Spec, s: LoopState, inputs: Inputs, at: Time)
    requires Sane(spec) && s.specReplicas != 0 && OutOfBounds(spec, s.statusReplicas)
    requires Enabled(spec, s, Reconciled(inputs)) && inputs.deployWriteOk && inputs.readings[AT_STORE_FAILED] <= at
    ensures var s' := After(spec, s, Reconciled(inputs));
      && 0 <= s'.specReplicas && Enabled(spec, s', Observed(s'.specReplicas, at))
      && (BothInBounds(spec, After(spec, s', Observed(s'.specReplicas, at)))
          <==> spec.minReplicas.GetOr(0) <= spec.maxReplicas)
  {
    RescalesIff(spec, s.status, s.specReplicas, s.statusReplicas, inputs);
    LastScaleTimeAdvancesIff(spec, s.status, s.specReplicas, s.statusReplicas, inputs);
    hide Pass;
  }

  /** Each pass whose deployment write succeeds is followed by a deployment that catches up. */
  ghost predicate CatchUpRounds(spec: Spec, states: seq<LoopState>, events: seq<Event>) {
    && Run(spec, states, events)
    && |events| % 2 == 0
    && (forall i :: 0 <= i < |events| && i % 2 == 0 ==> events[i].Reconciled? && events[i].inputs.deployWriteOk)
    && (forall i :: 0 <= i < |events| && i % 2 == 1 ==>
        events[i].Observed? && events[i].replicas == states[i].specReplicas)
  }

  predicate CaughtUpAt(s: LoopState, n: int) {
    s.specReplicas == s.statusReplicas == n
  }

  /** With the minimum above the maximum every count is out of bounds, and the pass jumps to the other bound. */
  function OtherBound(spec: Spec, n: int): int {
    if n > spec.maxReplicas then spec.maxReplicas else spec.minReplicas.GetOr(0)
  }

  lemma {:induction false} MinAboveMaxRescales(spec: Spec, s: LoopState, inputs: Inputs)
    requires Sane(spec) && spec.minReplicas.GetOr(0) > spec.maxReplicas
    requires s.specReplicas == s.statusReplicas != 0
    requires Enabled(spec, s, Reconciled(inputs)) && inputs.deployWriteOk
    ensures var s' := After(spec, s, Reconciled(inputs));
      && PassOf(spec, s, inputs).scaled
      && s'.statusReplicas == s.statusReplicas
      && s'.specReplicas == OtherBound(spec, s.statusReplicas) != s.specReplicas && s'.specReplicas > 0
  {
    RescalesIff(spec, s.status, s.specReplicas, s.statusReplicas, inputs);
    LastScaleTimeAdvancesIff(spec, s.status, s.specReplicas, s.statusReplicas, inputs);
    hide Pass;
  }

  lemma {:induction false} OneCorrection(spec: Spec, states: seq<LoopState>, events: seq<Event>, i: nat)
    requires Sane(spec) && spec.minReplicas.GetOr(0) > spec.maxReplicas
    requires CatchUpRounds(spec, states, events) && i % 2 == 0 && i < |events|
    requires CaughtUpAt(states[i], states[i].statusReplicas) && states[i].statusReplicas != 0
    ensures i + 2 <= |events| && Scaled(spec, states, events, i)
    ensures CaughtUpAt(states[i + 2], OtherBound(spec, states[i].statusReplicas)) && states[i + 2].statusReplicas != 0
  {
    assert (i + 1) % 2 == 1 && i + 1 < |events|;
    assert events[i + 1].Observed? && states[(i + 1) + 1] == After(spec, states[i + 1], events[i + 1]);
    MinAboveMaxRescales(spec, states[i], events[i].inputs);
    hide PassOf, OtherBound, Sane, Usable;
  }

  /**
   With the minimum above the maximum the loop never comes to rest: over every run of passes and
   catch-ups each pass rescales, and from the second on the count alternates between the two bounds.
   */
  lemma {:induction false} MinAboveMaxOscillates(spec: Spec, states: seq<LoopState>, events: seq<Event>, i: nat)
    requires Sane(spec) && spec.minReplicas.GetOr(0) > spec.maxReplicas
    requires CatchUpRounds(spec, states, events) && i % 2 == 0 && i < |events|
    requires CaughtUpAt(states[0], states[0].statusReplicas) && states[0].statusReplicas != 0
    ensures Scaled(spec, states, events, i) && i + 2 <= |events|
    ensures var (lo, hi, n, n') :=
      (spec.maxReplicas, spec.minReplicas.GetOr(0), states[i].specReplicas, states[i + 2].specReplicas);
      && CaughtUpAt(states[i], n) && CaughtUpAt(states[i + 2], n') && n != 0
      && (n' == lo || n' == hi) && (0 < i ==> (n == lo && n' == hi) || (n == hi && n' == lo))
  {
    if i > 0 {
      MinAboveMaxOscillates(spec, states, events, i - 2);
    }
    hide CatchUpRounds, Scaled, Sane;
    OneCorrection(spec, states, events, i);
  }

  // ---- windows ----

  /** Event `i` rescaled the deployment. */
  ghost predicate Scaled(spec: Spec, states: seq<LoopState>, events: seq<Event>, i: nat)
    requires Run(spec, states, events) && i < |events|
  {
    events[i].Reconciled? && PassOf(spec, states[i], events[i].inputs).scaled
  }

  /** The status of event `i` reached the store. */
  ghost predicate Stored(spec: Spec, states: seq<LoopState>, events: seq<Event>, i: nat)
    requires Run(spec, states, events) && i < |events|
  {
    events[i].Reconciled? && PassOf(spec, states[i], events[i].inputs).statusStored
  }

  /** Rescaled by the metrics, to more replicas. */
  ghost predicate Upscaled(spec: Spec, states: seq<LoopState>, events: seq<Event>, i: nat)
    requires Run(spec, states, events) && i < |events|
  {
    && Scaled(spec, states, events, i)
    && MetricsDecide(spec, states[i].specReplicas, states[i].statusReplicas)
    && PassOf(spec, states[i], events[i].inputs).target > states[i].statusReplicas
  }

  ghost predicate Downscaled(spec: Spec, states: seq<LoopState>, events: seq<Event>, i: nat)
    requires Run(spec, states, events) && i < |events|
  {
    && Scaled(spec, states, events, i)
    && MetricsDecide(spec, states[i].specReplicas, states[i].statusReplicas)
    && PassOf(spec, states[i], events[i].inputs).target < states[i].statusReplicas
  }

  /** The time a rescale records, and the time at which a pass has all its samples and decides. */
  function RecordedAt(e: Event): Time
    requires e.Reconciled?
  {
    e.inputs.readings[AT_STATUS]
  }

  function DecidedAt(e: Event): Time
    requires e.Reconciled?
  {
    e.inputs.readings[AT_ACTIVE]
  }

  /** One event: the clock does not go back, and the stored scale time only moves forward, to this event's record. */
  lemma {:induction false} ScaleTimeStep(spec: Spec, s: LoopState, e: Event)
    requires Enabled(spec, s, e)
    ensures var s' := After(spec, s, e);
      && s.clock <= s'.clock
      && (s'.status.lastScaleTime == s.status.lastScaleTime
          || (e.Reconciled? && s'.status.lastScaleTime == Some(RecordedAt(e))))
      && (e.Reconciled? ==> s.clock <= RecordedAt(e) <= s'.clock)
      && (e.Reconciled? && PassOf(spec, s, e.inputs).scaled && PassOf(spec, s, e.inputs).statusStored
          ==> s'.status.lastScaleTime == Some(RecordedAt(e)))
  {
    if e.Reconciled? {
      LastScaleTimeAdvancesIff(spec, s.status, s.specReplicas, s.statusReplicas, e.inputs);
      hide Pass;
    }
  }

  /** The stored scale time and the clock have reached `at`. */
  predicate Records(s: LoopState, at: Time) {
    s.status.lastScaleTime.Some? && at <= s.status.lastScaleTime.value && at <= s.clock
  }

  lemma {:induction false} RecordStep(spec: Spec, s: LoopState, e: Event, at: Time)
    requires Enabled(spec, s, e)
    ensures Records(s, at) ==> Records(After(spec, s, e), at)
    ensures e.Reconciled? && PassOf(spec, s, e.inputs).scaled && PassOf(spec, s, e.inputs).statusStored
      ==> Records(After(spec, s, e), RecordedAt(e))
  {
    ScaleTimeStep(spec, s, e);
    hide After, PassOf, Enabled;
  }

  lemma {:induction false} RecordInRun(spec: Spec, states: seq<LoopState>, events: seq<Event>, i: nat, at: Time)
    requires Run(spec, states, events) && i < |events|
    ensures Records(states[i], at) ==> Records(states[i + 1], at)
    ensures Scaled(spec, states, events, i) && Stored(spec, states, events, i)
      ==> events[i].Reconciled? && Records(states[i + 1], RecordedAt(events[i]))
  {
    RecordStep(spec, states[i], events[i], at);
    hide After, PassOf, Records, Enabled;
  }

  /** After a stored rescale the stored scale time never falls behind its record. */
  lemma {:induction false} RecordIsKept(spec: Spec, states: seq<LoopState>, events: seq<Event>, i: nat, j: nat)
    requires Run(spec, states, events) && i < j < |states|
    requires Scaled(spec, states, events, i) && Stored(spec, states, events, i)
    ensures events[i].Reconciled? && Records(states[j], RecordedAt(events[i]))
  {
    RecordInRun(spec, states, events, i, 0);
    hide Run, Scaled, Stored, Records;
    if i < j - 1 {
      RecordIsKept(spec, states, events, i, j - 1);
      RecordInRun(spec, states, events, j - 1, RecordedAt(events[i]));
    }
  }

  lemma {:induction false} StepInRun(spec: Spec, states: seq<LoopState>, events: seq<Event>, i: nat)
    requires Run(spec, states, events) && i < |events|
    ensures var (s, s', e) := (states[i], states[i + 1], events[i]);
      && s.clock <= s'.clock
      && (s'.status.lastScaleTime == s.status.lastScaleTime
          || (e.Reconciled? && s'.status.lastScaleTime == Some(RecordedAt(e))))
      && (e.Reconciled? ==> s.clock <= RecordedAt(e) <= s'.clock)
      && (Scaled(spec, states, events, i) && Stored(spec, states, events, i) ==>
          s'.status.lastScaleTime == Some(RecordedAt(e)))
  {
    hide PassOf, After;
    ScaleTimeStep(spec, states[i], events[i]);
  }

  /** A metrics-driven rescale happens strictly more than its window after the recorded scale time. */
  lemma {:induction false} RescaleWaits(spec: Spec, s: LoopState, inputs: Inputs)
    requires Enabled(spec, s, Reconciled(inputs)) && MetricsDecide(spec, s.specReplicas, s.statusReplicas)
    requires TimelyInputs(inputs)
    ensures var o := PassOf(spec, s, inputs);
      o.scaled && s.status.lastScaleTime.Some? ==>
        && (o.target > s.statusReplicas ==>
            Elapsed(s.status.lastScaleTime.value, spec.upscaleWindow, inputs.readings[AT_ACTIVE]))
        && (o.target < s.statusReplicas ==>
            Elapsed(s.status.lastScaleTime.value, spec.downscaleWindow, inputs.readings[AT_ACTIVE]))
  {
    RescalesIff(spec, s.status, s.specReplicas, s.statusReplicas, inputs);
    LastScaleTimeAdvancesIff(spec, s.status, s.specReplicas, s.statusReplicas, inputs);
    if s.statusReplicas > 0 {
      ProposedAtTimely(spec, s.statusReplicas, inputs);
    }
    hide Pass, ComputedFor;
  }

  /**
   Over every run, a metrics-driven upscale (downscale) decides strictly more than the up (down)
   window after the record of any earlier rescale, of either direction and for whatever reason,
   whose status was stored.
   */
  lemma {:induction false} WindowSeparation(spec: Spec, states: seq<LoopState>, events: seq<Event>, i: nat, j: nat)
    requires Run(spec, states, events) && i < j < |events|
    requires Scaled(spec, states, events, i) && Stored(spec, states, events, i)
    requires events[j].Reconciled? ==> TimelyInputs(events[j].inputs)
    ensures Upscaled(spec, states, events, j) ==>
      Elapsed(RecordedAt(events[i]), spec.upscaleWindow, DecidedAt(events[j]))
    ensures Downscaled(spec, states, events, j) ==>
      Elapsed(RecordedAt(events[i]), spec.downscaleWindow, DecidedAt(events[j]))
  {
    RecordIsKept(spec, states, events, i, j);
    if Upscaled(spec, states, events, j) || Downscaled(spec, states, events, j) {
      RescaleWaits(spec, states[j], events[j].inputs);
    }
  }

  /**
   A rescale arms the windows of later passes exactly when its final status write succeeds;
   the error of that write is dropped, so a failed one leaves the stored status untouched.
   */
  lemma {:induction false} WindowIsArmedIff(spec: Spec, s: LoopState, inputs: Inputs)
    requires Enabled(spec, s, Reconciled(inputs)) && PassOf(spec, s, inputs).scaled
    requires s.status.lastScaleTime != Some(RecordedAt(Reconciled(inputs)))
    ensures var s' := After(spec, s, Reconciled(inputs));
      && (s'.status.lastScaleTime == Some(RecordedAt(Reconciled(inputs))) <==> inputs.statusWriteOk)
      && (!inputs.statusWriteOk ==> s'.status == s.status)
  {
    LastScaleTimeAdvancesIff(spec, s.status, s.specReplicas, s.statusReplicas, inputs);
    hide Computed, ApplyAll, ApplyUpdate, Normalize, ShouldScale;
  }
}
