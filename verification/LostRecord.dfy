/**
 A concrete run on which the forbidden window does not hold: the status write of a
 successful rescale fails, the error is dropped, and the next pass upscales again at once.
 */
module LostRecord {
  import opened Wrappers
  import opened Arithmetic
  import opened ReplicaCalculators
  import opened Chpa
  import opened MetricFold
  import opened Reconcile
  import opened PassTheorems
  import opened ControlLoop
  import opened Demands
  import opened Convergence

  const QUEUE := MetricSpec(ExternalType, None, None, None, Some(ExternalMetric("queue", Some(10), None)))
  const SPEC := Spec(300, 300, 2.0, 4, 0.1, "Deployment", "web", [QUEUE], None, 100)
  const LOAD := Observation(None, None, None, Some(Sample([1000], 0)), true)
  const INPUTS := Inputs([LOAD], UsableSelector, 0.1, [0, 0, 0, 0, 0, 0, 0, 0, 0], true, false)
  const DEMAND := Demand([Share(1000, 10)], 0.1)
  const START := LoopState(0, StatusValue(None, None, 1, 1, [], []), 1, 1)

  lemma {:induction false} LoadObserved()
    ensures Usable(SPEC, INPUTS) && NonNegativeInputs(INPUTS) && TimelyInputs(INPUTS) && Observes(SPEC, INPUTS, DEMAND)
  {
    assert [1000][..0] == [];
    assert SumSeq([1000]) == 1000;
  }

  /** Far below its need the count goes to the scale-up limit. */
  lemma {:induction false} GoesToLimit(c: int)
    requires c == 1 || c == 4
    ensures NextCount(SPEC, DEMAND, c) == if c == 1 then 4 else 8
  {
    NextCountApproaches(SPEC, DEMAND, c);
    assert Ratio(1000, 10) == 100.0 && Ratio(1000, 40) == 25.0;
    assert NeededEach(DEMAND) == [100];
    assert [100][..0] == [];
    assert Needed(DEMAND) == 100;
    assert ScaleUpLimitFor(SPEC, 1) == 4 && ScaleUpLimitFor(SPEC, 4) == 8;
  }

  /** One pass from `c` caught-up replicas with no recorded scale time rescales and records nothing. */
  lemma {:induction false} UnrecordedUpscale(s: LoopState, c: int)
    requires (c == 1 || c == 4) && s == START.(specReplicas := c, statusReplicas := c)
    ensures Enabled(SPEC, s, Reconciled(INPUTS))
    ensures var o := PassOf(SPEC, s, INPUTS); o.scaled && o.target == (if c == 1 then 4 else 8)
    ensures After(SPEC, s, Reconciled(INPUTS)) == s.(specReplicas := if c == 1 then 4 else 8)
  {
    LoadObserved();
    GoesToLimit(c);
    PassFollowsNextCount(SPEC, s, INPUTS, DEMAND);
    RescalesIff(SPEC, s.status, c, c, INPUTS);
    LastScaleTimeAdvancesIff(SPEC, s.status, c, c, INPUTS);
    hide Pass, NextCount, ComputedFor, Normalize, Observes, Usable, NonNegativeInputs, TimelyInputs;
    assert After(SPEC, s, Reconciled(INPUTS)).specReplicas != c;
    WindowIsArmedIff(SPEC, s, INPUTS);
  }

  // ---- the run: a pass, a deployment that catches up, and a pass ----

  const GROWN := START.(specReplicas := 4)
  const CAUGHT_UP := START.(specReplicas := 4, statusReplicas := 4)
  const GROWN_AGAIN := CAUGHT_UP.(specReplicas := 8)
  const PASS := Reconciled(INPUTS)
  const CATCH_UP := Observed(4, 0)

  lemma {:induction false} RunOfThree(spec: Spec, states: seq<LoopState>, events: seq<Event>)
    requires |states| == 4 && |events| == 3
    requires Enabled(spec, states[0], events[0]) && states[1] == After(spec, states[0], events[0])
    requires Enabled(spec, states[1], events[1]) && states[2] == After(spec, states[1], events[1])
    requires Enabled(spec, states[2], events[2]) && states[3] == After(spec, states[2], events[2])
    ensures Run(spec, states, events)
  {
    hide Enabled, After;
  }

  lemma {:induction false} CatchesUp()
    ensures Enabled(SPEC, GROWN, CATCH_UP) && After(SPEC, GROWN, CATCH_UP) == CAUGHT_UP
  {
  }

  lemma {:induction false} LostRun() returns (states: seq<LoopState>, events: seq<Event>)
    ensures states == [START, GROWN, CAUGHT_UP, GROWN_AGAIN] && events == [PASS, CATCH_UP, PASS]
    ensures Run(SPEC, states, events)
  {
    hide PassOf, Enabled, After, Run;
    states, events := [START, GROWN, CAUGHT_UP, GROWN_AGAIN], [PASS, CATCH_UP, PASS];
    UnrecordedUpscale(START, 1);
    UnrecordedUpscale(CAUGHT_UP, 4);
    CatchesUp();
    RunOfThree(SPEC, states, events);
  }

  /** A pass that leaves more replicas than it observed is an upscale of its run. */
  lemma {:induction false} PassUpscales(states: seq<LoopState>, events: seq<Event>, i: nat, c: int)
    requires Run(SPEC, states, events) && i < |events| && events[i] == PASS
    requires (c == 1 || c == 4) && states[i] == START.(specReplicas := c, statusReplicas := c)
    ensures Upscaled(SPEC, states, events, i)
  {
    UnrecordedUpscale(states[i], c);
    hide PassOf, Enabled, After, Run;
  }

  /** Two upscales with an upscale window of 300 seconds and no time between them. */
  lemma {:induction false} TwoUpscalesInOneWindow() returns (states: seq<LoopState>, events: seq<Event>)
    ensures Sane(SPEC) && SPEC.upscaleWindow == 300
    ensures Run(SPEC, states, events) && |events| == 3 && BothInBounds(SPEC, states[0])
    ensures Upscaled(SPEC, states, events, 0) && Upscaled(SPEC, states, events, 2)
    ensures DecidedAt(events[2]) == RecordedAt(events[0])
  {
    hide Run, Upscaled;
    states, events := LostRun();
    PassUpscales(states, events, 0, 1);
    PassUpscales(states, events, 2, 4);
  }
}
