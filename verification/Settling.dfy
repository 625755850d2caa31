/**
 Constant demand over arbitrary runs: passes held back by a window, failed writes and
 deployments that catch up partially or late are all allowed. The counts never leave the
 stretch between start and goal, and passes that find a caught-up deployment unhindered
 settle it, as many as the distance or, with a factor of at least 2, the doublings.
 */
module Settling {
  import opened Arithmetic
  import opened Chpa
  import opened Demands
  import opened Reconcile
  import opened PassTheorems
  import opened ControlLoop
  import opened Convergence

  /** Every pass of the run observes the demand; nothing else is asked of it. */
  ghost predicate ObservingRun(spec: Spec, d: Demand, states: seq<LoopState>, events: seq<Event>) {
    && Run(spec, states, events)
    && forall i :: 0 <= i < |events| && events[i].Reconciled? ==> Observes(spec, events[i].inputs, d)
  }

  /** A pass leaves the specified count alone or sets it to the next count, which it does when nothing hinders it. */
  lemma {:induction false} PassOrStay(spec: Spec, s: LoopState, inputs: Inputs, d: Demand)
    requires Sane(spec) && BothInBounds(spec, s)
    requires Enabled(spec, s, Reconciled(inputs)) && Observes(spec, inputs, d)
    ensures 0 < s.statusReplicas
    ensures var n, s' := NextCount(spec, d, s.statusReplicas), After(spec, s, Reconciled(inputs));
      && s'.statusReplicas == s.statusReplicas
      && (s'.specReplicas == s.specReplicas || (n != s.statusReplicas && s'.specReplicas == n))
      && (n != s.statusReplicas && inputs.deployWriteOk && UnhinderedPass(spec, s, inputs) ==> s'.specReplicas == n)
  {
    var c := s.statusReplicas;
    InBoundsMeansMetricsDecide(spec, s);
    DemandComputed(spec, c, inputs, d);
    RescalesIff(spec, s.status, s.specReplicas, c, inputs);
    LastScaleTimeAdvancesIff(spec, s.status, s.specReplicas, c, inputs);
    hide Pass, ComputedFor, Normalize, Wanted, Usable, NonNegativeInputs, Observes;
  }

  // ---- the counts stay between start and goal ----

  predicate Within(s: LoopState, lo: int, hi: int) {
    lo <= s.specReplicas <= hi && lo <= s.statusReplicas <= hi
  }

  lemma {:induction false} WithinStep(spec: Spec, d: Demand, s: LoopState, e: Event, lo: int, hi: int)
    requires Sane(spec) && BothInBounds(spec, s) && Enabled(spec, s, e)
    requires e.Reconciled? ==> Observes(spec, e.inputs, d)
    requires Within(s, lo, hi) && lo <= Goal(spec, d) <= hi
    ensures Within(After(spec, s, e), lo, hi)
  {
    if e.Reconciled? {
      PassOrStay(spec, s, e.inputs, d);
      NextCountApproaches(spec, d, s.statusReplicas);
      hide After, NextCount, Goal, Observes, ScaleUpLimitFor;
    }
  }

  /** Over every observing run both counts stay between the extremes of the start counts and the goal. */
  lemma {:induction false} StaysBetween(
    spec: Spec, d: Demand, states: seq<LoopState>, events: seq<Event>, lo: int, hi: int, i: nat)
    requires Sane(spec) && ObservingRun(spec, d, states, events) && BothInBounds(spec, states[0]) && i < |states|
    requires Within(states[0], lo, hi) && lo <= Goal(spec, d) <= hi
    ensures BothInBounds(spec, states[i]) && Within(states[i], lo, hi)
  {
    InBoundsForever(spec, states, events, i);
    if i > 0 {
      StaysBetween(spec, d, states, events, lo, hi, i - 1);
      WithinStep(spec, d, states[i - 1], events[i - 1], lo, hi);
    }
    hide After, Goal, Observes, MetricsDecide;
  }

  // ---- passes that advance ----

  /** The pass finds the deployment caught up, no window holds it back, and its deployment write succeeds. */
  ghost predicate Advances(spec: Spec, s: LoopState, e: Event) {
    && e.Reconciled? && e.inputs.deployWriteOk
    && s.specReplicas == s.statusReplicas && UnhinderedPass(spec, s, e.inputs)
  }

  ghost function Advancing(spec: Spec, states: seq<LoopState>, events: seq<Event>, n: nat): nat
    requires Run(spec, states, events) && n <= |events|
  {
    if n == 0 then 0
    else Advancing(spec, states, events, n - 1) + (if Advances(spec, states[n - 1], events[n - 1]) then 1 else 0)
  }

  /** Caught up at a fixed point. */
  predicate Rested(spec: Spec, d: Demand, s: LoopState) {
    0 < s.statusReplicas && s.specReplicas == s.statusReplicas && Settled(spec, d, s.statusReplicas)
  }

  /** The last advancing pass started from `c`; since then the counts are between what it left and the goal. */
  predicate Based(spec: Spec, d: Demand, s: LoopState, c: int) {
    var g := Goal(spec, d);
    && InBounds(spec, c) && 0 < c && !Settled(spec, d, c)
    && Between(s.statusReplicas, c, g) && Between(s.specReplicas, NextCount(spec, d, c), g)
  }

  /** What `k` advancing passes from `c0` have cost: the distance left, and the doublings made. */
  predicate Paid(spec: Spec, d: Demand, c0: int, c: int, k: nat)
    requires 0 < k
  {
    var g := Goal(spec, d);
    && Distance(c, g) + k - 1 <= Distance(c0, g)
    && (2.0 <= spec.limitFactor && c < g ==> Doubled(c0, k - 1) <= c)
  }

  ghost predicate Approach(spec: Spec, d: Demand, s: LoopState, c0: int, k: nat) {
    var g := Goal(spec, d);
    if k == 0 then Between(s.statusReplicas, c0, g) && Between(s.specReplicas, c0, g)
    else Rested(spec, d, s) || exists c :: Based(spec, d, s, c) && Paid(spec, d, c0, c, k)
  }

  lemma {:induction false} TruncateMonotone(x: real, y: real)
    requires x <= y
    ensures Truncate(x) <= Truncate(y)
  {
  }

  lemma {:induction false} GrownMonotone(f: real, m: real, x: real, y: real)
    requires 0.0 <= f && x <= y
    ensures Truncate(MaxReal(f * x, m)) <= Truncate(MaxReal(f * y, m))
  {
    ProductNonNegative(f, y - x);
    assert f * (y - x) == f * y - f * x;
    TruncateMonotone(MaxReal(f * x, m), MaxReal(f * y, m));
    hide Truncate;
  }

  lemma {:induction false} LimitForMonotone(spec: Spec, a: int, b: int)
    requires Sane(spec) && a <= b
    ensures ScaleUpLimitFor(spec, a) <= ScaleUpLimitFor(spec, b)
  {
    GrownMonotone(spec.limitFactor, spec.limitMinimum as real, a as real, b as real);
    hide Truncate, MaxReal;
  }

  /** Nearer to the goal the next count is no farther from it. */
  lemma {:induction false} NextCountToward(spec: Spec, d: Demand, c: int, s: int)
    requires Sane(spec) && InBounds(spec, c) && InBounds(spec, s) && Between(s, c, Goal(spec, d))
    requires !Settled(spec, d, c) && !Settled(spec, d, s)
    ensures Between(NextCount(spec, d, s), NextCount(spec, d, c), Goal(spec, d))
  {
    NextCountApproaches(spec, d, c);
    NextCountApproaches(spec, d, s);
    if c <= s {
      LimitForMonotone(spec, c, s);
    }
    hide NextCount, Goal, ScaleUpLimitFor, WithinTolerance;
  }

  lemma {:induction false} DoubledOneMore(c: int, k: nat)
    ensures Doubled(c, k + 1) == 2 * Doubled(c, k)
    decreases k
  {
    if k > 0 {
      DoubledOneMore(2 * c, k - 1);
    }
  }

  lemma {:induction false} RestedStays(spec: Spec, d: Demand, s: LoopState, e: Event)
    requires Sane(spec) && BothInBounds(spec, s) && Enabled(spec, s, e) && Rested(spec, d, s)
    requires e.Reconciled? ==> Observes(spec, e.inputs, d)
    ensures Rested(spec, d, After(spec, s, e)) && After(spec, s, e).specReplicas == s.specReplicas
  {
    if e.Reconciled? {
      PassOrStay(spec, s, e.inputs, d);
      hide After;
    }
    hide NextCount, Observes, Usable;
  }

  /** An event that does not advance keeps the base. */
  lemma {:induction false} BasedStays(spec: Spec, d: Demand, s: LoopState, e: Event, c: int)
    requires Sane(spec) && BothInBounds(spec, s) && Enabled(spec, s, e) && Based(spec, d, s, c)
    requires e.Reconciled? ==> Observes(spec, e.inputs, d)
    ensures Based(spec, d, After(spec, s, e), c)
  {
    NextCountApproaches(spec, d, c);
    if e.Reconciled? {
      PassOrStay(spec, s, e.inputs, d);
      if NextCount(spec, d, s.statusReplicas) != s.statusReplicas {
        NextCountToward(spec, d, c, s.statusReplicas);
      }
      hide After;
    }
    hide NextCount, Goal, Observes, Usable, ScaleUpLimitFor, WithinTolerance;
  }

  lemma {:induction false} StartStays(spec: Spec, d: Demand, s: LoopState, e: Event, c0: int)
    requires Sane(spec) && BothInBounds(spec, s) && Enabled(spec, s, e) && Approach(spec, d, s, c0, 0)
    requires e.Reconciled? ==> Observes(spec, e.inputs, d)
    ensures Approach(spec, d, After(spec, s, e), c0, 0)
  {
    var g := Goal(spec, d);
    WithinStep(spec, d, s, e, Min(c0, g), Max(c0, g));
    hide After, Goal, Observes;
  }

  /** An advancing pass rests, or takes the caught-up count as its new base. */
  lemma {:induction false} AdvanceRebases(spec: Spec, d: Demand, s: LoopState, e: Event)
    requires Sane(spec) && BothInBounds(spec, s) && Enabled(spec, s, e) && Advances(spec, s, e)
    requires Observes(spec, e.inputs, d)
    ensures Rested(spec, d, After(spec, s, e)) || Based(spec, d, After(spec, s, e), s.statusReplicas)
  {
    PassOrStay(spec, s, e.inputs, d);
    NextCountApproaches(spec, d, s.statusReplicas);
    hide After, NextCount, Goal, Observes, Usable, ScaleUpLimitFor, WithinTolerance;
  }

  lemma {:induction false} FirstPayment(spec: Spec, d: Demand, s: LoopState, c0: int)
    requires Approach(spec, d, s, c0, 0)
    ensures Paid(spec, d, c0, s.statusReplicas, 1)
  {
    hide Goal;
  }

  /** The new base is what the last advance left or nearer to the goal, so it has paid one more. */
  lemma {:induction false} NextPayment(spec: Spec, d: Demand, s: LoopState, c0: int, c: int, k: nat)
    requires Sane(spec) && 0 < k && Based(spec, d, s, c) && Paid(spec, d, c0, c, k)
    requires s.specReplicas == s.statusReplicas
    ensures Paid(spec, d, c0, s.statusReplicas, k + 1)
  {
    NextCountApproaches(spec, d, c);
    DoubledOneMore(c0, k - 1);
    if 2.0 <= spec.limitFactor {
      LimitDoubles(spec, c);
    }
    hide NextCount, Goal, ScaleUpLimitFor, WithinTolerance, Doubled;
  }

  lemma {:induction false} ApproachStep(spec: Spec, d: Demand, s: LoopState, e: Event, c0: int, k: nat)
    requires Sane(spec) && BothInBounds(spec, s) && Enabled(spec, s, e) && Approach(spec, d, s, c0, k)
    requires e.Reconciled? ==> Observes(spec, e.inputs, d)
    ensures Approach(spec, d, After(spec, s, e), c0, if Advances(spec, s, e) then k + 1 else k)
  {
    var s' := After(spec, s, e);
    hide After, Goal, Observes, Enabled, Based, Paid, Advances;
    if k > 0 && Rested(spec, d, s) {
      RestedStays(spec, d, s, e);
    } else if Advances(spec, s, e) {
      AdvancedStep(spec, d, s, e, c0, k);
    } else if k == 0 {
      StartStays(spec, d, s, e, c0);
    } else {
      var c :| Based(spec, d, s, c) && Paid(spec, d, c0, c, k);
      BasedStays(spec, d, s, e, c);
    }
  }

  lemma {:induction false} AdvancedStep(spec: Spec, d: Demand, s: LoopState, e: Event, c0: int, k: nat)
    requires Sane(spec) && BothInBounds(spec, s) && Enabled(spec, s, e) && Approach(spec, d, s, c0, k)
    requires Advances(spec, s, e) && Observes(spec, e.inputs, d) && !(k > 0 && Rested(spec, d, s))
    ensures Approach(spec, d, After(spec, s, e), c0, k + 1)
  {
    AdvanceRebases(spec, d, s, e);
    assert s.specReplicas == s.statusReplicas;
    hide After, Goal, Observes, Enabled, Based, Paid, Advances;
    if k == 0 {
      FirstPayment(spec, d, s, c0);
    } else {
      var c :| Based(spec, d, s, c) && Paid(spec, d, c0, c, k);
      NextPayment(spec, d, s, c0, c, k);
    }
  }

  /** The state after `n` events approaches the goal as its advances so far demand. */
  ghost predicate Approached(
    spec: Spec, d: Demand, states: seq<LoopState>, events: seq<Event>, c0: int, n: nat)
    requires Run(spec, states, events) && n <= |events|
  {
    Approach(spec, d, states[n], c0, Advancing(spec, states, events, n))
  }

  /** The step on its own: state, event, successor and the advances before and after. */
  lemma {:induction false} ApproachMove(
    spec: Spec, d: Demand, s: LoopState, e: Event, s': LoopState, c0: int, k: nat, k': nat)
    requires Sane(spec) && BothInBounds(spec, s) && Enabled(spec, s, e) && s' == After(spec, s, e)
    requires e.Reconciled? ==> Observes(spec, e.inputs, d)
    requires k' == if Advances(spec, s, e) then k + 1 else k
    requires Approach(spec, d, s, c0, k)
    ensures Approach(spec, d, s', c0, k')
  {
    hide Approach, Advances, Observes, BothInBounds, Sane, Enabled, After;
    ApproachStep(spec, d, s, e, c0, k);
  }

  lemma {:induction false} ApproachedStep(
    spec: Spec, d: Demand, states: seq<LoopState>, events: seq<Event>, c0: int, n: nat)
    requires Sane(spec) && ObservingRun(spec, d, states, events) && n < |events|
    requires BothInBounds(spec, states[n]) && Approached(spec, d, states, events, c0, n)
    ensures Approached(spec, d, states, events, c0, n + 1)
  {
    AdvancingOneMore(spec, d, states, events, n);
    var k, k' := Advancing(spec, states, events, n), Advancing(spec, states, events, n + 1);
    hide Run, ObservingRun, Advancing, Advances, Approach, Observes, BothInBounds, Sane, Enabled, After;
    ApproachMove(spec, d, states[n], events[n], states[n + 1], c0, k, k');
  }

  lemma {:induction false} StartApproaches(
    spec: Spec, d: Demand, states: seq<LoopState>, events: seq<Event>, c0: int)
    requires Run(spec, states, events) && CaughtUpAt(states[0], c0)
    ensures Approached(spec, d, states, events, c0, 0)
  {
    hide Run, Goal;
  }

  lemma {:induction false} ApproachOverRuns(
    spec: Spec, d: Demand, states: seq<LoopState>, events: seq<Event>, c0: int, n: nat)
    requires Sane(spec) && ObservingRun(spec, d, states, events) && n <= |events|
    requires BothInBounds(spec, states[0]) && CaughtUpAt(states[0], c0)
    ensures BothInBounds(spec, states[n]) && Approached(spec, d, states, events, c0, n)
  {
    assert Run(spec, states, events);
    hide Run, ObservingRun, Approached, BothInBounds, Sane, CaughtUpAt, MetricsDecide;
    InBoundsForever(spec, states, events, n);
    if n == 0 {
      StartApproaches(spec, d, states, events, c0);
    } else {
      ApproachOverRuns(spec, d, states, events, c0, n - 1);
      ApproachedStep(spec, d, states, events, c0, n - 1);
    }
  }

  lemma {:induction false} AdvancingOneMore(spec: Spec, d: Demand, states: seq<LoopState>, events: seq<Event>, n: nat)
    requires ObservingRun(spec, d, states, events) && n < |events|
    ensures Run(spec, states, events) && Enabled(spec, states[n], events[n])
    ensures states[n + 1] == After(spec, states[n], events[n])
    ensures events[n].Reconciled? ==> Observes(spec, events[n].inputs, d)
    ensures Advancing(spec, states, events, n + 1)
      == if Advances(spec, states[n], events[n]) then Advancing(spec, states, events, n) + 1
         else Advancing(spec, states, events, n)
  {
    hide Observes, Advances, Enabled, After;
  }

  // ---- settling ----

  /** Enough advances for the distance, or for the doublings. */
  predicate Enough(spec: Spec, d: Demand, c0: int, k: nat) {
    || Distance(c0, Goal(spec, d)) <= k
    || (2.0 <= spec.limitFactor && 1 <= k && Goal(spec, d) <= Doubled(c0, k))
  }

  lemma {:induction false} EnoughReachesGoal(spec: Spec, d: Demand, s: LoopState, c0: int, c: int, k: nat)
    requires Sane(spec) && 0 < k && Based(spec, d, s, c) && Paid(spec, d, c0, c, k) && Enough(spec, d, c0, k)
    ensures s.specReplicas == Goal(spec, d)
  {
    hide NextCount, Goal, ScaleUpLimitFor, WithinTolerance, Doubled;
    NextCountApproaches(spec, d, c);
    DoubledOneMore(c0, k - 1);
    if 2.0 <= spec.limitFactor {
      LimitDoubles(spec, c);
    }
  }

  lemma {:induction false} EnoughRests(spec: Spec, d: Demand, s: LoopState, c0: int, k: nat)
    requires Sane(spec) && BothInBounds(spec, s) && InBounds(spec, c0) && s.specReplicas == s.statusReplicas
    requires Approach(spec, d, s, c0, k) && Enough(spec, d, c0, k)
    ensures Rested(spec, d, s)
  {
    hide NextCount, Goal, ScaleUpLimitFor, WithinTolerance, Doubled, Based, Paid;
    NextCountApproaches(spec, d, s.statusReplicas);
    if k > 0 && !Rested(spec, d, s) {
      var c :| Based(spec, d, s, c) && Paid(spec, d, c0, c, k);
      EnoughReachesGoal(spec, d, s, c0, c, k);
    }
  }

  lemma {:induction false} RestedForever(
    spec: Spec, d: Demand, states: seq<LoopState>, events: seq<Event>, n: nat, j: nat)
    requires Sane(spec) && ObservingRun(spec, d, states, events) && n <= j < |states|
    requires BothInBounds(spec, states[0]) && Rested(spec, d, states[n])
    ensures Rested(spec, d, states[j]) && states[j].specReplicas == states[n].specReplicas
  {
    if n < j {
      RestedForever(spec, d, states, events, n, j - 1);
      InBoundsForever(spec, states, events, j - 1);
      hide Rested, After, Observes, MetricsDecide;
      RestedStays(spec, d, states[j - 1], events[j - 1]);
    }
  }

  /**
   From a caught-up start in bounds, over every observing run: once enough passes have advanced, a
   deployment that is caught up has settled, and from then on neither count ever moves again.
   */
  lemma {:induction false} SettlesForGood(
    spec: Spec, d: Demand, states: seq<LoopState>, events: seq<Event>, c0: int, n: nat, j: nat)
    requires Sane(spec) && ObservingRun(spec, d, states, events) && n <= j < |states|
    requires BothInBounds(spec, states[0]) && CaughtUpAt(states[0], c0)
    requires Enough(spec, d, c0, Advancing(spec, states, events, n))
      && states[n].specReplicas == states[n].statusReplicas
    ensures Rested(spec, d, states[n])
    ensures CaughtUpAt(states[j], states[n].specReplicas)
  {
    ApproachOverRuns(spec, d, states, events, c0, n);
    EnoughRests(spec, d, states[n], c0, Advancing(spec, states, events, n));
    RestedForever(spec, d, states, events, n, j);
    hide Goal, Approach, Enough, Settled, Run, Observes;
  }
}
