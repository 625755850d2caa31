/**
 Growth over time: in any stretch of a run the number of upscales is limited by the
 upscale window, and the replica count by the scale-up limit applied that many times.
 */
module Growth {
  import opened Wrappers
  import opened Arithmetic
  import opened PodMetrics
  import opened Chpa
  import opened Reconcile
  import opened PassTheorems
  import opened ControlLoop

  /** The number of upscales among the first `n` events. */
  ghost function Upscales(spec: Spec, states: seq<LoopState>, events: seq<Event>, n: nat): nat
    requires Run(spec, states, events) && n <= |events|
  {
    if n == 0 then 0
    else Upscales(spec, states, events, n - 1) + (if Upscaled(spec, states, events, n - 1) then 1 else 0)
  }

  /** Every successful rescale also reached the status store. */
  ghost predicate RescalesStored(spec: Spec, states: seq<LoopState>, events: seq<Event>)
    requires Run(spec, states, events)
  {
    forall i: nat :: i < |events| && Scaled(spec, states, events, i) ==> Stored(spec, states, events, i)
  }

  /** A product the solver need not look into. */
  function Times(x: real, y: real): real {
    x * y
  }

  lemma {:induction false} TimesMonotone(f: real, x: real, y: real)
    requires 0.0 <= f && x <= y
    ensures Times(f, x) <= Times(f, y)
  {
    ProductNonNegative(f, y - x);
  }

  lemma {:induction false} TimesAtLeast(p: real, x: real)
    requires 1.0 <= p && 0.0 <= x
    ensures x <= Times(p, x)
  {
    ProductNonNegative(p - 1.0, x);
  }

  lemma {:induction false} TimesAssociates(f: real, p: real, x: real)
    ensures Times(f, Times(p, x)) == Times(Times(f, p), x)
  {
  }

  lemma {:induction false} TimesMax(f: real, a: real, b: real)
    requires 0.0 <= f
    ensures Times(f, MaxReal(a, b)) == MaxReal(Times(f, a), Times(f, b))
  {
    if a < b {
      TimesMonotone(f, a, b);
    } else {
      TimesMonotone(f, b, a);
    }
  }

  /** `max(factor * x, minimum)`: how far one upscale from `x` replicas may go, before truncation. */
  function Limit(spec: Spec, x: real): real {
    MaxReal(Times(spec.limitFactor, x), spec.limitMinimum as real)
  }

  /** What `k` applications of the scale-up limit can make of `c0` replicas. */
  function GrowthBound(spec: Spec, c0: int, k: nat): real {
    if k == 0 then c0 as real else Limit(spec, GrowthBound(spec, c0, k - 1))
  }

  lemma {:induction false} LimitMonotone(spec: Spec, x: real, y: real)
    requires Sane(spec) && x <= y
    ensures Limit(spec, x) <= Limit(spec, y)
  {
    TimesMonotone(spec.limitFactor, x, y);
    hide Times;
  }

  lemma {:induction false} LimitGrows(spec: Spec, x: real)
    requires Sane(spec) && 0.0 <= x
    ensures x <= Limit(spec, x)
  {
    TimesAtLeast(spec.limitFactor, x);
    hide Times;
  }

  lemma {:induction false} BoundNonNegative(spec: Spec, c0: int, k: nat)
    requires Sane(spec) && 0 <= c0
    ensures 0.0 <= GrowthBound(spec, c0, k)
  {
    if k > 0 {
      BoundNonNegative(spec, c0, k - 1);
      LimitGrows(spec, GrowthBound(spec, c0, k - 1));
    }
  }

  /** `max(factor^k * c0, factor^(k-1) * minimum)`. */
  function ClosedBound(spec: Spec, c0: int, k: nat): real
    requires 1 <= k
  {
    MaxReal(Times(Pow(spec.limitFactor, k), c0 as real), Times(Pow(spec.limitFactor, k - 1), spec.limitMinimum as real))
  }

  lemma {:induction false} PowStep(f: real, k: nat, x: real)
    ensures Times(f, Times(Pow(f, k), x)) == Times(Pow(f, k + 1), x)
  {
    assert Pow(f, k + 1) == Times(f, Pow(f, k));
    TimesAssociates(f, Pow(f, k), x);
    hide Times, Pow;
  }

  lemma {:induction false} ClosedStep(spec: Spec, c0: int, k: nat)
    requires Sane(spec) && 1 <= k
    ensures Limit(spec, ClosedBound(spec, c0, k)) == ClosedBound(spec, c0, k + 1)
  {
    hide Times, Pow;
    var f, c, m := spec.limitFactor, c0 as real, spec.limitMinimum as real;
    PowStep(f, k, c);
    PowStep(f, k - 1, m);
    PowAtLeastOne(f, k);
    TimesAtLeast(Pow(f, k), m);
    TimesMax(f, Times(Pow(f, k), c), Times(Pow(f, k - 1), m));
  }

  lemma {:induction false} BoundClosedForm(spec: Spec, c0: int, k: nat)
    requires Sane(spec) && 1 <= k
    ensures GrowthBound(spec, c0, k) == ClosedBound(spec, c0, k)
  {
    if k == 1 {
      assert GrowthBound(spec, c0, 0) == c0 as real;
      assert Pow(spec.limitFactor, 0) == 1.0;
      assert Pow(spec.limitFactor, 1) == spec.limitFactor;
    } else {
      BoundClosedForm(spec, c0, k - 1);
      ClosedStep(spec, c0, k - 1);
      hide ClosedBound, Limit;
    }
  }

  predicate BothWithin(s: LoopState, bound: real) {
    s.specReplicas as real <= bound && s.statusReplicas as real <= bound
  }

  /** One event moves the counts between old values, except that an upscale may go up to the limit. */
  lemma {:induction false} CountsStep(spec: Spec, s: LoopState, e: Event)
    requires Sane(spec) && Enabled(spec, s, e) && BothInBounds(spec, s)
    ensures var (s', top) := (After(spec, s, e), Max(s.specReplicas, s.statusReplicas));
      && s'.statusReplicas <= top
      && (s'.specReplicas <= top
          || (e.Reconciled? && PassOf(spec, s, e.inputs).scaled && s'.specReplicas == PassOf(spec, s, e.inputs).target
              && s'.specReplicas <= ScaleUpLimitFor(spec, s.statusReplicas)))
  {
    if e.Reconciled? {
      InBoundsMeansMetricsDecide(spec, s);
      EndToEndDirection(spec, s.status, s.specReplicas, s.statusReplicas, e.inputs);
      LastScaleTimeAdvancesIff(spec, s.status, s.specReplicas, s.statusReplicas, e.inputs);
      hide Pass, ProposesMore, ProposesFewer, NonNegativeInputs, Usable, ScaleUpLimitFor;
    }
  }

  lemma {:induction false} LimitIsBounded(spec: Spec, current: nat)
    requires Sane(spec)
    ensures ScaleUpLimitFor(spec, current) as real <= Limit(spec, current as real)
  {
    LimitAtLeastCurrent(spec, current);
  }

  lemma {:induction false} LimitWithinBound(spec: Spec, current: nat, c0: int, k: nat)
    requires Sane(spec) && 0 <= c0 && current as real <= GrowthBound(spec, c0, k)
    ensures ScaleUpLimitFor(spec, current) as real <= GrowthBound(spec, c0, k + 1)
    ensures GrowthBound(spec, c0, k) <= GrowthBound(spec, c0, k + 1)
  {
    BoundNonNegative(spec, c0, k);
    LimitGrows(spec, GrowthBound(spec, c0, k));
    LimitMonotone(spec, current as real, GrowthBound(spec, c0, k));
    LimitIsBounded(spec, current);
    hide Limit, ScaleUpLimitFor, Times;
    assert GrowthBound(spec, c0, k + 1) == Limit(spec, GrowthBound(spec, c0, k));
  }

  lemma {:induction false} CountsWithin(spec: Spec, s: LoopState, s': LoopState, c0: int, k: nat, up: bool)
    requires Sane(spec) && 0 <= c0 && BothWithin(s, GrowthBound(spec, c0, k))
    requires s'.statusReplicas <= Max(s.specReplicas, s.statusReplicas)
    requires s'.specReplicas <= Max(s.specReplicas, s.statusReplicas)
          || (up && s'.specReplicas <= ScaleUpLimitFor(spec, s.statusReplicas))
    ensures BothWithin(s', GrowthBound(spec, c0, if up then k + 1 else k))
  {
    LimitWithinBound(spec, s.statusReplicas, c0, k);
    hide GrowthBound, ScaleUpLimitFor, Sane;
  }

  lemma {:induction false} GrowthStep(spec: Spec, states: seq<LoopState>, events: seq<Event>, c0: int, n: nat, k: nat)
    requires Sane(spec) && Run(spec, states, events) && n < |events|
    requires BothInBounds(spec, states[n]) && 0 <= c0 && BothWithin(states[n], GrowthBound(spec, c0, k))
    ensures BothWithin(states[n + 1], GrowthBound(spec, c0, if Upscaled(spec, states, events, n) then k + 1 else k))
  {
    var s, e := states[n], events[n];
    CountsStep(spec, s, e);
    InBoundsMeansMetricsDecide(spec, s);
    hide GrowthBound, ScaleUpLimitFor, PassOf, After, Enabled, BothWithin, Sane;
    CountsWithin(spec, s, states[n + 1], c0, k, Upscaled(spec, states, events, n));
  }

  /** Both counts are within the bound for the upscales among the first `n` events. */
  ghost predicate GrownTo(spec: Spec, states: seq<LoopState>, events: seq<Event>, c0: int, n: nat)
    requires Run(spec, states, events) && n <= |events|
  {
    BothWithin(states[n], GrowthBound(spec, c0, Upscales(spec, states, events, n)))
  }

  lemma {:induction false} GrownStep(spec: Spec, states: seq<LoopState>, events: seq<Event>, c0: int, n: nat)
    requires Sane(spec) && Run(spec, states, events) && n < |events| && 0 <= c0
    requires BothInBounds(spec, states[n]) && GrownTo(spec, states, events, c0, n)
    ensures GrownTo(spec, states, events, c0, n + 1)
  {
    hide Run, GrowthBound, Upscaled, BothInBounds, BothWithin, Sane, Upscales;
    GrowthStep(spec, states, events, c0, n, Upscales(spec, states, events, n));
    UpscalesOneMore(spec, states, events, n);
  }

  /** No count of a run exceeds what its upscales so far allow. */
  lemma {:induction false} GrowthOverRuns(
    spec: Spec, states: seq<LoopState>, events: seq<Event>, c0: int, n: nat)
    requires Sane(spec) && Run(spec, states, events) && n <= |events|
    requires BothInBounds(spec, states[0]) && states[0].specReplicas <= c0 && states[0].statusReplicas <= c0
    ensures BothInBounds(spec, states[n]) && GrownTo(spec, states, events, c0, n)
  {
    InBoundsForever(spec, states, events, n);
    if n > 0 {
      assert 0 <= c0;
      hide Run, GrownTo, BothInBounds, Sane, MetricsDecide;
      GrowthOverRuns(spec, states, events, c0, n - 1);
      GrownStep(spec, states, events, c0, n - 1);
    }
  }

  lemma {:induction false} UpscalesOneMore(spec: Spec, states: seq<LoopState>, events: seq<Event>, n: nat)
    requires Run(spec, states, events) && n < |events|
    ensures Upscales(spec, states, events, n + 1)
      == if Upscaled(spec, states, events, n) then Upscales(spec, states, events, n) + 1
         else Upscales(spec, states, events, n)
  {
    hide Run, Upscaled;
  }

  // ---- how many upscales fit into a stretch of time ----

  /** No sample of the run is stamped after its pass had fetched all of them. */
  ghost predicate AllTimely(events: seq<Event>) {
    forall i :: 0 <= i < |events| && events[i].Reconciled? ==> TimelyInputs(events[i].inputs)
  }

  function WindowLength(spec: Spec): int {
    spec.upscaleWindow * SECOND
  }

  /** The time `k` windows after `start`. */
  function WindowsAfter(spec: Spec, start: Time, k: nat): Time {
    if k == 0 then start else WindowsAfter(spec, start, k - 1) + WindowLength(spec)
  }

  lemma {:induction false} WindowsAddUp(spec: Spec, start: Time, k: nat)
    ensures WindowsAfter(spec, start, k) == start + k * WindowLength(spec)
  {
    if k > 0 {
      WindowsAddUp(spec, start, k - 1);
      Distribute(k, 1, WindowLength(spec));
    }
  }

  /** `k` upscales have pushed the stored scale time at least `k - 1` windows past the start. */
  ghost predicate Spaced(spec: Spec, s: LoopState, start: Time, k: nat) {
    && start <= s.clock
    && (k >= 1 ==>
          && s.status.lastScaleTime.Some?
          && WindowsAfter(spec, start, k - 1) <= s.status.lastScaleTime.value <= s.clock
          && (k >= 2 ==> WindowsAfter(spec, start, k - 1) < s.status.lastScaleTime.value))
  }

  lemma {:induction false} SpacedStep(
    spec: Spec, states: seq<LoopState>, events: seq<Event>, start: Time, n: nat, k: nat)
    requires Run(spec, states, events) && RescalesStored(spec, states, events) && AllTimely(events) && n < |events|
    requires Spaced(spec, states[n], start, k)
    ensures Spaced(spec, states[n + 1], start, if Upscaled(spec, states, events, n) then k + 1 else k)
  {
    var up := Upscaled(spec, states, events, n);
    var at := if events[n].Reconciled? then RecordedAt(events[n]) else 0;
    hide PassOf, After, Enabled, Run, Upscaled, Scaled, Stored, Spaced, AllTimely, WindowLength;
    StepInRun(spec, states, events, n);
    if up {
      UpscaleWaited(spec, states, events, n);
    }
    SpacedMove(spec, states[n], states[n + 1], start, k, up, at);
  }

  /** A scale time that moves forward keeps the spacing, and adds a window to it when it waited for one. */
  lemma {:induction false} SpacedMove(
    spec: Spec, s: LoopState, s': LoopState, start: Time, k: nat, up: bool, at: Time)
    requires Spaced(spec, s, start, k) && s.clock <= s'.clock
    requires var last, last' := s.status.lastScaleTime, s'.status.lastScaleTime;
      && (last' == last || (last' == Some(at) && s.clock <= at <= s'.clock))
      && (up ==> last' == Some(at) && s.clock <= at <= s'.clock)
      && (up && last.Some? ==> last.value + WindowLength(spec) < at)
    ensures Spaced(spec, s', start, if up then k + 1 else k)
  {
    hide WindowLength;
  }

  lemma {:induction false} UpscaleWaited(spec: Spec, states: seq<LoopState>, events: seq<Event>, n: nat)
    requires Run(spec, states, events) && RescalesStored(spec, states, events) && AllTimely(events) && n < |events|
    requires Upscaled(spec, states, events, n)
    ensures Scaled(spec, states, events, n) && Stored(spec, states, events, n)
    ensures states[n].status.lastScaleTime.Some? ==>
      states[n].status.lastScaleTime.value + WindowLength(spec) < RecordedAt(events[n])
  {
    RescaleWaits(spec, states[n], events[n].inputs);
    hide PassOf, After, Run;
    assert RecordedAt(events[n]) >= DecidedAt(events[n]);
  }

  lemma {:induction false} SpacedOverRuns(spec: Spec, states: seq<LoopState>, events: seq<Event>, n: nat)
    requires Run(spec, states, events) && RescalesStored(spec, states, events) && AllTimely(events) && n <= |events|
    ensures Spaced(spec, states[n], states[0].clock, Upscales(spec, states, events, n))
  {
    var k := Upscales(spec, states, events, n);
    if n == 0 {
      assert Spaced(spec, states[0], states[0].clock, 0);
    } else {
      SpacedOverRuns(spec, states, events, n - 1);
      var before := Upscales(spec, states, events, n - 1);
      SpacedStep(spec, states, events, states[0].clock, n - 1, before);
      UpscalesOneMore(spec, states, events, n - 1);
      hide Spaced, RescalesStored, Upscaled, Run, Upscales;
      assert k == if Upscaled(spec, states, events, n - 1) then before + 1 else before;
    }
  }

  /**
   A run of length `d` with an upscale window `w` and every rescale stored has at most
   `1 + d / w` upscales, and no count exceeds the maximum or the bound for that many.
   */
  lemma {:induction false} GrowthOverTime(spec: Spec, states: seq<LoopState>, events: seq<Event>, c0: int)
    requires Sane(spec) && 0 < spec.upscaleWindow
    requires Run(spec, states, events) && RescalesStored(spec, states, events) && AllTimely(events)
    requires BothInBounds(spec, states[0]) && states[0].specReplicas <= c0 && states[0].statusReplicas <= c0
    ensures var n := |events|;
      var (k, final) := (Upscales(spec, states, events, n), states[n].specReplicas);
      && k <= 1 + (states[n].clock - states[0].clock) / WindowLength(spec)
      && final <= spec.maxReplicas
      && (k == 0 ==> final <= c0)
      && (k >= 1 ==> final as real <= ClosedBound(spec, c0, k))
  {
    var n := |events|;
    var k := Upscales(spec, states, events, n);
    SpacedOverRuns(spec, states, events, n);
    GrowthOverRuns(spec, states, events, c0, n);
    SpacedLimitsCount(spec, states[n], states[0].clock, k);
    if k >= 1 {
      BoundClosedForm(spec, c0, k);
    } else {
      assert GrowthBound(spec, c0, k) == c0 as real;
    }
    hide ClosedBound, GrowthBound, Spaced, WindowLength, Run, Upscales, RescalesStored, Sane;
  }

  lemma {:induction false} SpacedLimitsCount(spec: Spec, s: LoopState, start: Time, k: nat)
    requires 0 < spec.upscaleWindow && Spaced(spec, s, start, k)
    ensures k <= 1 + (s.clock - start) / WindowLength(spec)
  {
    var w := WindowLength(spec);
    DivAtLeast(s.clock - start, w, 0);
    if k > 0 {
      WindowsAddUp(spec, start, k - 1);
      hide WindowLength;
      DivAtLeast(s.clock - start, w, k - 1);
    }
  }
}
