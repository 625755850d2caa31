/**
 Quiescence: when a pass that did not rescale has stored its status and nothing has
 changed, the next pass writes nothing at all, exactly when no forbidden window was in force.
 */
module Quiescence {
  import opened Wrappers
  import opened PodMetrics
  import opened Conditions
  import opened Chpa
  import opened MetricFold
  import opened Reconcile
  import opened PassTheorems

  // ---- replaying a log whose updates agree on each type's status ----

  predicate Steady(log: seq<Update>) {
    forall i, j :: 0 <= i < |log| && 0 <= j < |log| && log[i].typ == log[j].typ ==> log[i].status == log[j].status
  }

  /** The same calls at other times. */
  predicate SameCalls(log: seq<Update>, log': seq<Update>) {
    && |log| == |log'|
    && forall i :: 0 <= i < |log| ==> log'[i] == log[i].(at := log'[i].at)
  }

  function LastCall(log: seq<Update>, typ: ConditionType): Option<Update> {
    if log == [] then None
    else if log[|log| - 1].typ == typ then Some(log[|log| - 1])
    else LastCall(log[..|log| - 1], typ)
  }

  lemma {:induction false} LastCallSame(log: seq<Update>, log': seq<Update>, typ: ConditionType)
    requires SameCalls(log, log')
    ensures LastCall(log, typ).Some? <==> LastCall(log', typ).Some?
    ensures LastCall(log, typ).Some? ==>
      LastCall(log', typ).value == LastCall(log, typ).value.(at := LastCall(log', typ).value.at)
  {
    if log != [] {
      LastCallSame(log[..|log| - 1], log'[..|log| - 1], typ);
    }
  }

  lemma {:induction false} LastCallIsCall(log: seq<Update>, typ: ConditionType)
    ensures LastCall(log, typ).Some? ==>
      exists k :: 0 <= k < |log| && log[k] == LastCall(log, typ).value && log[k].typ == typ
    ensures LastCall(log, typ).None? ==> forall k :: 0 <= k < |log| ==> log[k].typ != typ
  {
    if log != [] {
      var n := |log| - 1;
      LastCallIsCall(log[..n], typ);
      if log[n].typ != typ && LastCall(log, typ).Some? {
        var k :| 0 <= k < n && log[..n][k] == LastCall(log, typ).value && log[..n][k].typ == typ;
        assert log[k] == LastCall(log, typ).value;
      }
    }
  }

  /** An entry reads as its last call wrote it. */
  lemma {:induction false} EntryIsLastCall(conds: seq<Condition>, log: seq<Update>, typ: ConditionType)
    requires UniqueTypes(conds)
    ensures var (e, u) := (Entry(ApplyAll(conds, log), typ), LastCall(log, typ));
      && (u.Some? ==>
          e.typ == typ && e.status == u.value.status && e.reason == u.value.reason && e.message == u.value.message)
      && (u.Some? ==> IndexOf(ApplyAll(conds, log), typ) < |ApplyAll(conds, log)|)
      && (u.None? ==> e == Entry(conds, typ))
  {
    if log != [] {
      var n := |log| - 1;
      ListKept(conds, log[..n]);
      EntryIsLastCall(conds, log[..n], typ);
      OneUpdate(ApplyAll(conds, log[..n]), log[n]);
      var mid, i := ApplyAll(conds, log[..n]), IndexOf(ApplyAll(conds, log[..n]), typ);
      if i < |mid| {
        assert ApplyAll(conds, log)[i].typ == typ;
      } else if typ == log[n].typ {
        assert ApplyAll(conds, log)[|mid|].typ == typ;
      }
    }
  }

  /** A status that every call of the log agrees with never changes while the log is applied. */
  lemma {:induction false} AgreedStatus(
    conds: seq<Condition>, log: seq<Update>, typ: ConditionType, status: ConditionStatus)
    requires Entry(conds, typ).status == status
    requires forall i :: 0 <= i < |log| && log[i].typ == typ ==> log[i].status == status
    ensures StatusAfter(conds, log, typ) == status
  {
    if log != [] {
      AgreedStatus(conds, log[..|log| - 1], typ, status);
    }
  }

  /** So a type whose calls all agree with its entry keeps its transition time. */
  lemma {:induction false} AgreedKeepsTime(conds: seq<Condition>, log: seq<Update>, typ: ConditionType)
    requires UniqueTypes(conds)
    requires forall i :: 0 <= i < |log| && log[i].typ == typ ==> log[i].status == Entry(conds, typ).status
    ensures Entry(ApplyAll(conds, log), typ).lastTransition == Entry(conds, typ).lastTransition
  {
    forall j | 0 <= j < |log| && log[j].typ == typ
      ensures !Changes(conds, log, j)
    {
      AgreedStatus(conds, log[..j], typ, Entry(conds, typ).status);
    }
    NoChangeKeepsTime(conds, log, typ);
  }

  lemma {:induction false} ReplayKeepsEntry(
    conds: seq<Condition>, log: seq<Update>, log': seq<Update>, typ: ConditionType)
    requires UniqueTypes(conds) && Steady(log) && SameCalls(log, log')
    ensures var once := ApplyAll(conds, log); Entry(ApplyAll(once, log'), typ) == Entry(once, typ)
  {
    var once := ApplyAll(conds, log);
    ListKept(conds, log);
    EntryIsLastCall(conds, log, typ);
    EntryIsLastCall(once, log', typ);
    LastCallSame(log, log', typ);
    LastCallIsCall(log, typ);
    if LastCall(log, typ).Some? {
      AgreedKeepsTime(once, log', typ);
    }
  }

  /** Replaying a steady log changes nothing: neither texts nor times nor the order of the list. */
  lemma {:induction false} SteadyReplay(conds: seq<Condition>, log: seq<Update>, log': seq<Update>)
    requires UniqueTypes(conds) && Steady(log) && SameCalls(log, log')
    ensures ApplyAll(ApplyAll(conds, log), log') == ApplyAll(conds, log)
  {
    var once := ApplyAll(conds, log);
    var twice := ApplyAll(once, log');
    ListKept(conds, log);
    ListKept(once, log');
    if |once| < |twice| {
      var typ := twice[|once|].typ;
      var k :| 0 <= k < |log'| && log'[k].typ == typ;
      assert log[k].typ == typ;
      EntryIsLastCall(conds, log, typ);
      LastCallIsCall(log, typ);
      var i := IndexOf(once, typ);
      assert false;
    }
    forall i | 0 <= i < |once|
      ensures twice[i] == once[i]
    {
      ReplayKeepsEntry(conds, log, log', once[i].typ);
      UniqueIndex(once, i);
      UniqueIndex(twice, i);
    }
  }

  lemma {:induction false} UniqueIndex(conds: seq<Condition>, i: nat)
    requires UniqueTypes(conds) && i < |conds|
    ensures IndexOf(conds, conds[i].typ) == i && Entry(conds, conds[i].typ) == conds[i]
  {
  }

  // ---- two passes over an unchanged world ----

  /**
   The later pass sees the same metrics under the same tolerance, and its clock starts after the earlier
   pass ended.
   */
  predicate SameWorldLater(inputs: Inputs, later: Inputs) {
    && later.observations == inputs.observations && later.selector == inputs.selector
        && later.tolerance == inputs.tolerance
    && inputs.readings[AT_STORE_FAILED] < later.readings[AT_GET_SCALE]
  }

  /** A forbidden window is in force when the metrics branch of this pass checks it. */
  ghost predicate InBackoff(spec: Spec, last: Option<Time>, specReplicas: int, current: nat, inputs: Inputs)
    requires Usable(spec, inputs)
  {
    && MetricsDecide(spec, specReplicas, current)
    && var computed := ComputedFor(spec, current, inputs);
      && computed.Ok?
      && var at := ProposedAt(computed.value, inputs.readings[AT_START]);
        BackoffFrom(last, spec.downscaleWindow, at) || BackoffFrom(last, spec.upscaleWindow, at)
  }

  /** Windows only run out. */
  lemma {:induction false} BackoffEnds(
    spec: Spec, last: Option<Time>, specReplicas: int, current: nat, inputs: Inputs, later: Inputs)
    requires Usable(spec, inputs) && SameWorldLater(inputs, later)
    ensures Usable(spec, later)
    ensures InBackoff(spec, last, specReplicas, current, later) ==> InBackoff(spec, last, specReplicas, current, inputs)
  {
    assert inputs.readings[AT_START] <= later.readings[AT_START];
    hide Computed;
  }

  /** The same decision, up to the clock readings in its log. */
  predicate SameDecision(v: Verdict, w: Verdict) {
    && w.failed == v.failed && w.rescale == v.rescale && w.desired == v.desired && w.statuses == v.statuses
    && SameCalls(v.log, w.log)
  }

  lemma {:induction false} SameMetricsVerdict(
    spec: Spec, last: Option<Time>, current: int, computed: Result<Folded, MetricError>, r: Readings, r': Readings)
    requires computed.Ok? ==>
      forall q: Readings | q == r || q == r' :: var at := ProposedAt(computed.value, q[AT_START]);
        !BackoffFrom(last, spec.downscaleWindow, at) && !BackoffFrom(last, spec.upscaleWindow, at)
    requires !MetricsVerdict(spec, last, current, computed, r).rescale
    ensures SameDecision(MetricsVerdict(spec, last, current, computed, r),
      MetricsVerdict(spec, last, current, computed, r'))
    ensures Steady([GotScale(r)] + MetricsVerdict(spec, last, current, computed, r).log)
  {
    hide Normalize;
  }

  /** Without a window in force, a pass that did not rescale decides the same the next time. */
  lemma {:induction false} SameAssessment(
    spec: Spec, last: Option<Time>, specReplicas: int, current: nat, inputs: Inputs, later: Inputs)
    requires Usable(spec, inputs) && SameWorldLater(inputs, later)
    requires !Assess(spec, last, specReplicas, current, inputs).rescale
    requires !InBackoff(spec, last, specReplicas, current, inputs)
    ensures Usable(spec, later)
    ensures var v := Assess(spec, last, specReplicas, current, inputs);
      SameDecision(v, Assess(spec, last, specReplicas, current, later)) && Steady(v.log)
  {
    BackoffEnds(spec, last, specReplicas, current, inputs, later);
    hide Computed, MetricsVerdict;
    if MetricsDecide(spec, specReplicas, current) {
      SameMetricsVerdict(spec, last, current, ComputedFor(spec, current, inputs), inputs.readings, later.readings);
    }
  }

  /** Carrying out the same decision again writes nothing. */
  lemma {:induction false} SameDecisionIsQuiet(
    s: StatusValue, v: Verdict, w: Verdict, specReplicas: int, current: int, inputs: Inputs, later: Inputs)
    requires UniqueTypes(s.conditions) && !v.rescale && SameDecision(v, w) && Steady(v.log)
    ensures var o := Conclude(s, v, specReplicas, current, inputs);
      var next := Conclude(o.proposed, w, specReplicas, current, later);
      !next.deployAttempted && !next.statusAttempted && next.memory == o.proposed
  {
    SteadyReplay(s.conditions, v.log, w.log);
  }

  // ---- a window in force ----

  /** The list ends with calls that read the scale, report on other types, and forbid scaling. */
  predicate EndsInBackoff(log: seq<Update>) {
    && |log| >= 4
    && log[0].typ == AbleToScale && log[0].status == CondTrue
    && log[1].typ != AbleToScale && log[2].typ != AbleToScale
    && forall i :: 3 <= i < |log| ==> log[i].typ == AbleToScale && log[i].status == CondFalse
  }

  /** Every such pass turns the condition on and off again, so its transition time is that of the refusal. */
  lemma {:induction false} BackoffStampsTime(conds: seq<Condition>, log: seq<Update>)
    requires UniqueTypes(conds) && EndsInBackoff(log)
    ensures var e := Entry(ApplyAll(conds, log), AbleToScale); e.status == CondFalse && e.lastTransition == log[3].at
  {
    StatusSkips(conds, log[..2]);
    StatusSkips(conds, log[..3]);
    assert log[..2][..1] == log[..1] && log[..3][..2] == log[..2];
    assert StatusAfter(conds, log[..1], AbleToScale) == CondTrue;
    assert Changes(conds, log, 3);
    forall j | 3 < j < |log| && log[j].typ == log[3].typ
      ensures !Changes(conds, log, j)
    {
      assert log[..j][j - 1] == log[j - 1];
    }
    LatestChangeSetsTime(conds, log, 3);
    EntryStatus(conds, log, AbleToScale);
  }

  lemma {:induction false} StatusSkips(conds: seq<Condition>, log: seq<Update>)
    requires log != [] && log[|log| - 1].typ != AbleToScale
    ensures StatusAfter(conds, log, AbleToScale) == StatusAfter(conds, log[..|log| - 1], AbleToScale)
  {
  }

  lemma {:induction false} BackoffVerdict(
    spec: Spec, last: Option<Time>, specReplicas: int, current: nat, inputs: Inputs)
    requires Usable(spec, inputs) && InBackoff(spec, last, specReplicas, current, inputs)
    ensures var v := Assess(spec, last, specReplicas, current, inputs);
      && !v.failed && EndsInBackoff(v.log)
      && inputs.readings[AT_GET_SCALE] <= v.log[3].at <= inputs.readings[AT_STORE_FAILED]
  {
    hide Computed, Normalize, ShouldScale;
  }

  /** Outside the windows a computed pass ends by reporting that it is able to scale. */
  lemma {:induction false} ReadyVerdict(spec: Spec, last: Option<Time>, specReplicas: int, current: nat, inputs: Inputs)
    requires Usable(spec, inputs) && MetricsDecide(spec, specReplicas, current)
      && ComputedFor(spec, current, inputs).Ok?
    requires !InBackoff(spec, last, specReplicas, current, inputs)
    ensures var log := Assess(spec, last, specReplicas, current, inputs).log;
      log != [] && log[|log| - 1].typ == AbleToScale && log[|log| - 1].status == CondTrue
  {
    hide Computed, Normalize, ShouldScale;
  }

  /** The entry of the verdict's log in the proposed status, when the pass does not rescale. */
  lemma {:induction false} ProposedConditions(
    spec: Spec, s: StatusValue, specReplicas: int, current: nat, inputs: Inputs)
    requires Usable(spec, inputs)
    ensures var (o, v) :=
      (Pass(spec, s, specReplicas, current, inputs), Assess(spec, s.lastScaleTime, specReplicas, current, inputs));
      && o.deployAttempted == v.rescale && o.statusAttempted == (o.proposed != s)
      && (!v.rescale ==>
          o.proposed.lastScaleTime == s.lastScaleTime && o.proposed.conditions == ApplyAll(s.conditions, v.log))
  {
    hide Assess, ApplyAll;
  }

  lemma {:induction false} BackoffIsBusy(
    spec: Spec, s: StatusValue, specReplicas: int, current: nat, inputs: Inputs, later: Inputs)
    requires Usable(spec, inputs) && SameWorldLater(inputs, later) && UniqueTypes(s.conditions)
    requires !Pass(spec, s, specReplicas, current, inputs).deployAttempted
    requires InBackoff(spec, s.lastScaleTime, specReplicas, current, inputs)
    ensures Usable(spec, later)
    ensures var next := Pass(spec, Pass(spec, s, specReplicas, current, inputs).proposed, specReplicas, current, later);
      next.deployAttempted || next.statusAttempted
  {
    var o := Pass(spec, s, specReplicas, current, inputs);
    var next := Pass(spec, o.proposed, specReplicas, current, later);
    var v := Assess(spec, s.lastScaleTime, specReplicas, current, inputs);
    var w := Assess(spec, s.lastScaleTime, specReplicas, current, later);
    ProposedConditions(spec, s, specReplicas, current, inputs);
    ProposedConditions(spec, o.proposed, specReplicas, current, later);
    BackoffVerdict(spec, s.lastScaleTime, specReplicas, current, inputs);
    BackoffStampsTime(s.conditions, v.log);
    ListKept(s.conditions, v.log);
    if InBackoff(spec, s.lastScaleTime, specReplicas, current, later) {
      BackoffVerdict(spec, s.lastScaleTime, specReplicas, current, later);
      BackoffStampsTime(o.proposed.conditions, w.log);
    } else {
      SameComputed(spec, current, inputs, later);
      ReadyVerdict(spec, s.lastScaleTime, specReplicas, current, later);
      EntryStatus(o.proposed.conditions, w.log, AbleToScale);
    }
  }

  lemma {:induction false} SameComputed(spec: Spec, current: nat, inputs: Inputs, later: Inputs)
    requires Usable(spec, inputs) && SameWorldLater(inputs, later) && 0 < current
    ensures Usable(spec, later) && ComputedFor(spec, current, later) == ComputedFor(spec, current, inputs)
  {
  }

  /**
   The pass after a stored pass that did not rescale writes nothing, and so keeps every transition
   time, exactly when the earlier one was not held back by a forbidden window.
   */
  lemma {:induction false} QuietIff(
    spec: Spec, s: StatusValue, specReplicas: int, current: nat, inputs: Inputs, later: Inputs)
    requires Usable(spec, inputs) && SameWorldLater(inputs, later) && UniqueTypes(s.conditions)
    requires !Pass(spec, s, specReplicas, current, inputs).deployAttempted
    ensures Usable(spec, later)
    ensures var o := Pass(spec, s, specReplicas, current, inputs);
      var next := Pass(spec, o.proposed, specReplicas, current, later);
      && (!next.deployAttempted && !next.statusAttempted
          <==> !InBackoff(spec, s.lastScaleTime, specReplicas, current, inputs))
      && (!next.deployAttempted && !next.statusAttempted ==> next.memory == o.proposed)
  {
    BackoffEnds(spec, s.lastScaleTime, specReplicas, current, inputs, later);
    ProposedConditions(spec, s, specReplicas, current, inputs);
    if InBackoff(spec, s.lastScaleTime, specReplicas, current, inputs) {
      BackoffIsBusy(spec, s, specReplicas, current, inputs, later);
    } else {
      SameAssessment(spec, s.lastScaleTime, specReplicas, current, inputs, later);
      SameDecisionIsQuiet(s, Assess(spec, s.lastScaleTime, specReplicas, current, inputs),
        Assess(spec, s.lastScaleTime, specReplicas, current, later), specReplicas, current, inputs, later);
    }
    hide Assess, InBackoff, ApplyAll;
  }

  // ---- any number of later passes ----

  /** Passes one after another over an unchanged world, with the stored status before each and after the last. */
  ghost predicate UnchangedPasses(
    spec: Spec, specReplicas: int, current: nat, statuses: seq<StatusValue>, passes: seq<Inputs>)
  {
    && |statuses| == |passes| + 1
    && (forall i :: 0 <= i < |passes| ==> Usable(spec, passes[i]))
    && (forall i, j :: 0 <= i < j < |passes| ==> SameWorldLater(passes[i], passes[j]))
    && (forall i :: 0 <= i < |passes| ==>
          statuses[i + 1] == StoredBy(Pass(spec, statuses[i], specReplicas, current, passes[i]), statuses[i]))
  }

  function StoredBy(o: Outcome, s: StatusValue): StatusValue {
    if o.statusStored then o.proposed else s
  }

  predicate WritesNothing(o: Outcome) {
    !o.deployAttempted && !o.statusAttempted
  }

  /** The first pass did not rescale, and what it proposed is what is stored. */
  ghost predicate SettledFirst(
    spec: Spec, specReplicas: int, current: nat, statuses: seq<StatusValue>, passes: seq<Inputs>)
    requires UnchangedPasses(spec, specReplicas, current, statuses, passes) && passes != []
  {
    var o := Pass(spec, statuses[0], specReplicas, current, passes[0]);
    UniqueTypes(statuses[0].conditions) && !o.deployAttempted && statuses[1] == o.proposed
  }

  /** Pass `i` writes nothing, and what the first pass stored is still there after it. */
  ghost predicate QuietAt(
    spec: Spec, specReplicas: int, current: nat, statuses: seq<StatusValue>, passes: seq<Inputs>, i: nat)
    requires UnchangedPasses(spec, specReplicas, current, statuses, passes) && 1 <= i < |passes|
  {
    WritesNothing(Pass(spec, statuses[i], specReplicas, current, passes[i])) && statuses[i + 1] == statuses[1]
  }

  lemma {:induction false} NothingIsStored(spec: Spec, s: StatusValue, specReplicas: int, current: nat, inputs: Inputs)
    requires Usable(spec, inputs) && WritesNothing(Pass(spec, s, specReplicas, current, inputs))
    ensures StoredBy(Pass(spec, s, specReplicas, current, inputs), s) == s
  {
    hide Assess, ProposedStatus, AfterStore;
  }

  /** Without a window in force in the first pass, no later pass writes, and the stored status never changes again. */
  lemma {:induction false} QuietFromThen(
    spec: Spec, specReplicas: int, current: nat, statuses: seq<StatusValue>, passes: seq<Inputs>, i: nat)
    requires UnchangedPasses(spec, specReplicas, current, statuses, passes) && 1 <= i < |passes|
    requires SettledFirst(spec, specReplicas, current, statuses, passes)
    requires !InBackoff(spec, statuses[0].lastScaleTime, specReplicas, current, passes[0])
    ensures statuses[i] == statuses[1] == statuses[i + 1]
    ensures WritesNothing(Pass(spec, statuses[i], specReplicas, current, passes[i]))
  {
    if i > 1 {
      QuietFromThen(spec, specReplicas, current, statuses, passes, i - 1);
    }
    hide Pass, InBackoff, Usable;
    QuietIff(spec, statuses[0], specReplicas, current, passes[0], passes[i]);
    NothingIsStored(spec, statuses[i], specReplicas, current, passes[i]);
  }

  /**
   Over any number of later passes: none of them writes, and every transition time is kept for good,
   exactly when the first pass was not held back by a forbidden window.
   */
  lemma {:induction false} QuietForeverIff(
    spec: Spec, specReplicas: int, current: nat, statuses: seq<StatusValue>, passes: seq<Inputs>)
    requires UnchangedPasses(spec, specReplicas, current, statuses, passes) && 2 <= |passes|
    requires SettledFirst(spec, specReplicas, current, statuses, passes)
    ensures (forall i :: 1 <= i < |passes| ==> QuietAt(spec, specReplicas, current, statuses, passes, i))
      <==> !InBackoff(spec, statuses[0].lastScaleTime, specReplicas, current, passes[0])
  {
    if InBackoff(spec, statuses[0].lastScaleTime, specReplicas, current, passes[0]) {
      QuietIff(spec, statuses[0], specReplicas, current, passes[0], passes[1]);
      assert !QuietAt(spec, specReplicas, current, statuses, passes, 1);
    } else {
      forall i | 1 <= i < |passes|
        ensures QuietAt(spec, specReplicas, current, statuses, passes, i)
      {
        QuietFromThen(spec, specReplicas, current, statuses, passes, i);
      }
    }
    hide Pass, InBackoff, Usable;
  }
}
