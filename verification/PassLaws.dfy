/**
 What one pass, and one request, decides and reports, told in the fields of the specification,
 the observed counts and the clock: the corrected counts, the decision of the metrics branch,
 and for every branch the conditions and counts of the proposed status.
 */
module PassLaws {
  import opened Wrappers
  import opened Arithmetic
  import opened PodMetrics
  import opened Conditions
  import opened Chpa
  import opened MetricFold
  import opened Reconcile
  import opened PassTheorems
  import opened Quiescence

  // ---- corrections ----

  /** A violated bound is corrected to exactly that bound, and no replicas at all to one. */
  lemma {:induction false} CorrectionIs(spec: Spec, s: StatusValue, specReplicas: int, current: nat, inputs: Inputs)
    requires Usable(spec, inputs)
    ensures var o := Pass(spec, s, specReplicas, current, inputs);
      var low := spec.minReplicas.Some? && current < spec.minReplicas.value;
      && (specReplicas == 0 ==> !o.deployAttempted && o.target == 0)
      && (specReplicas != 0 ==>
            && (current > spec.maxReplicas ==> o.deployAttempted && o.target == spec.maxReplicas)
            && (current <= spec.maxReplicas && low ==> o.deployAttempted && o.target == spec.minReplicas.value)
            && (current <= spec.maxReplicas && !low && current == 0 ==> o.deployAttempted && o.target == 1)
            && (current <= spec.maxReplicas && !low && current != 0 <==> MetricsDecide(spec, specReplicas, current)))
  {
    RescalesIff(spec, s, specReplicas, current, inputs);
    hide Pass, ComputedFor, Normalize;
  }

  function Gap(a: int, b: int): nat {
    if a < b then b - a else a - b
  }

  /** When the bounds admit any count, a correction goes to the nearest one. */
  lemma {:induction false} CorrectionIsNearest(
    spec: Spec, s: StatusValue, specReplicas: int, current: nat, inputs: Inputs)
    requires Usable(spec, inputs) && Sane(spec) && spec.minReplicas.GetOr(0) <= spec.maxReplicas
    requires specReplicas != 0 && !MetricsDecide(spec, specReplicas, current)
    ensures var o := Pass(spec, s, specReplicas, current, inputs);
      && o.deployAttempted && Floor(spec) <= o.target <= spec.maxReplicas
      && forall n :: Floor(spec) <= n <= spec.maxReplicas ==> Gap(o.target, current) <= Gap(n, current)
  {
    CorrectionIs(spec, s, specReplicas, current, inputs);
    hide Pass;
  }

  // ---- the decision of the metrics branch ----

  /** `limit` is the larger of the grown count and the minimum, rounded toward zero. */
  predicate IsLimit(limit: int, factor: real, minimum: int, current: int) {
    var x := if factor * current as real < minimum as real then minimum as real else factor * current as real;
    && (0.0 <= x ==> limit as real <= x < limit as real + 1.0)
    && (x < 0.0 ==> limit as real - 1.0 < x <= limit as real)
  }

  /** The largest proposal, clamped between the minimum, at least one, and the smaller of maximum and limit. */
  function Clamped(proposal: int, minimum: int, maximum: int, limit: int): int {
    Max(if minimum == 0 then 1 else minimum, Min(Min(maximum, limit), proposal))
  }

  /** No scale time is recorded, or it lies more than the window before `at`. */
  predicate Free(last: Option<Time>, window: int, at: Time) {
    last.Some? ==> last.value + window * 1_000_000_000 < at
  }

  lemma {:induction false} LimitIs(spec: Spec, current: int, limit: int)
    requires IsLimit(limit, spec.limitFactor, spec.limitMinimum, current)
    ensures limit == ScaleUpLimitFor(spec, current)
  {
    LimitIsTruncated(spec, current);
    hide ScaleUpLimitFor;
  }

  lemma {:induction false} NormalizeIs(spec: Spec, current: int, desired: int, limit: int)
    requires Sane(spec) && InMetricsBranch(spec, current)
    requires IsLimit(limit, spec.limitFactor, spec.limitMinimum, current)
    ensures Normalize(spec, current, desired).replicas
      == Clamped(desired, spec.minReplicas.GetOr(0), spec.maxReplicas, limit)
  {
    LimitIs(spec, current, limit);
    ClampIsProjection(spec, current, desired);
    hide ScaleUpLimitFor, IsLimit, Normalize;
  }

  /**
   The metrics branch, on the folded proposal `f`: which count it wants, at which time it compares the
   windows, and exactly when it attempts the rescale.
   */
  lemma {:induction false} DecisionIs(
    spec: Spec, s: StatusValue, specReplicas: int, current: nat, inputs: Inputs, limit: int)
    requires Usable(spec, inputs) && Sane(spec) && MetricsDecide(spec, specReplicas, current)
    requires IsLimit(limit, spec.limitFactor, spec.limitMinimum, current)
    ensures var o := Pass(spec, s, specReplicas, current, inputs);
      match ComputedFor(spec, current, inputs)
      case Err(_) => !o.deployAttempted
      case Ok(f) =>
        var desired := Clamped(Max(f.replicas, 0), spec.minReplicas.GetOr(0), spec.maxReplicas, limit);
        var at := if f.replicas > 0 then f.timestamp else inputs.readings[AT_START];
        && (o.deployAttempted <==>
              || (desired > current && Free(s.lastScaleTime, spec.upscaleWindow, at))
              || (desired < current && Free(s.lastScaleTime, spec.downscaleWindow, at)))
        && o.target == if o.deployAttempted then desired else specReplicas
  {
    RescalesIff(spec, s, specReplicas, current, inputs);
    var computed := ComputedFor(spec, current, inputs);
    if computed.Ok? {
      NormalizeIs(spec, current, Proposed(computed.value), limit);
    }
    hide Pass, ComputedFor, Normalize, IsLimit, Clamped;
  }

  // ---- requests ----

  /** The specification a request runs its pass on is sane whenever the stored one is in its ranges. */
  lemma {:induction false} DefaultedIsSane(spec: Spec)
    requires InRanges(spec)
    ensures Sane(WithDefaults(spec))
  {
    DefaultedInRanges(spec);
  }

  lemma {:induction false} DefaultsKeepBranch(spec: Spec, specReplicas: int, current: nat)
    ensures MetricsDecide(WithDefaults(spec), specReplicas, current) <==> MetricsDecide(spec, specReplicas, current)
  {
  }

  /** The stored specification's values, with 300, 300, 2.0 and 4 where nothing is given. */
  function Given(value: int, default: int): int {
    if value != 0 then value else default
  }

  /**
   A request for a stored object in its ranges: the metrics branch decides by the given values or the
   documented defaults, on the deployment that was read.
   */
  lemma {:induction false} RequestDecisionIs(lookup: Lookup, read: DeploymentRead, inputs: Inputs, limit: int)
    requires Admitted(lookup) && InRanges(lookup.spec) && UsableFor(lookup, inputs)
    requires read.ReadOk? && read.specReplicas.Some?
    requires MetricsDecide(lookup.spec, read.specReplicas.value, read.statusReplicas)
    requires IsLimit(limit, if lookup.spec.limitFactor != 0.0 then lookup.spec.limitFactor else 2.0,
                     Given(lookup.spec.limitMinimum, 4), read.statusReplicas)
    ensures var h := Handle(lookup, read, inputs);
      && h.next == Again && h.outcome.Some?
      && var (o, spec, current) := (h.outcome.value, lookup.spec, read.statusReplicas);
        match Computed(spec.metrics, inputs.observations, inputs.selector, current, inputs.tolerance)
        case Err(_) => !o.deployAttempted
        case Ok(f) =>
          var desired := Clamped(Max(f.replicas, 0), spec.minReplicas.GetOr(0), spec.maxReplicas, limit);
          var at := if f.replicas > 0 then f.timestamp else inputs.readings[AT_START];
          var last := lookup.status.lastScaleTime;
          && (o.deployAttempted <==>
                || (desired > current && Free(last, Given(spec.upscaleWindow, 300), at))
                || (desired < current && Free(last, Given(spec.downscaleWindow, 300), at)))
          && o.target == if o.deployAttempted then desired else read.specReplicas.value
  {
    var d := WithDefaults(lookup.spec);
    DefaultsFillIn(lookup.spec);
    DefaultedIsSane(lookup.spec);
    DefaultsKeepBranch(lookup.spec, read.specReplicas.value, read.statusReplicas);
    hide WithDefaults, Sane, Computed, Pass, IsLimit, Clamped, Free, MetricsDecide, InRanges;
    DecisionIs(d, lookup.status, read.specReplicas.value, read.statusReplicas, inputs, limit);
  }

  /** Corrections of a request go by the stored bounds. */
  lemma {:induction false} RequestCorrectionIs(lookup: Lookup, read: DeploymentRead, inputs: Inputs)
    requires Admitted(lookup) && UsableFor(lookup, inputs) && read.ReadOk? && read.specReplicas.Some?
    ensures var h := Handle(lookup, read, inputs);
      && h.next == Again && h.outcome.Some?
      && var (o, spec, current) := (h.outcome.value, lookup.spec, read.statusReplicas);
        var low := spec.minReplicas.Some? && current < spec.minReplicas.value;
        && (read.specReplicas.value == 0 ==> !o.deployAttempted && o.target == 0)
        && (read.specReplicas.value != 0 ==>
              && (current > spec.maxReplicas ==> o.deployAttempted && o.target == spec.maxReplicas)
              && (current <= spec.maxReplicas && low ==> o.deployAttempted && o.target == spec.minReplicas.value)
              && (current <= spec.maxReplicas && !low && current == 0 ==> o.deployAttempted && o.target == 1))
  {
    DefaultsFillIn(lookup.spec);
    CorrectionIs(WithDefaults(lookup.spec), lookup.status, read.specReplicas.value, read.statusReplicas, inputs);
    hide WithDefaults, Pass, MetricsDecide;
  }

  // ---- what is reported ----

  /** The status has an entry of the type that reads so. */
  predicate Says(s: StatusValue, typ: ConditionType, status: ConditionStatus, reason: Reason, message: Message) {
    && IndexOf(s.conditions, typ) < |s.conditions|
    && var e := Entry(s.conditions, typ);
      e.typ == typ && e.status == status && e.reason == reason && e.message == message
  }

  predicate Keeps(s: StatusValue, s': StatusValue, typ: ConditionType) {
    Entry(s'.conditions, typ) == Entry(s.conditions, typ)
  }

  lemma {:induction false} LastCallAt(log: seq<Update>, k: nat)
    requires k < |log| && forall j :: k < j < |log| ==> log[j].typ != log[k].typ
    ensures LastCall(log, log[k].typ) == Some(log[k])
  {
    if k < |log| - 1 {
      LastCallAt(log[..|log| - 1], k);
    }
  }

  lemma {:induction false} LastCallNone(log: seq<Update>, typ: ConditionType)
    requires forall j :: 0 <= j < |log| ==> log[j].typ != typ
    ensures LastCall(log, typ) == None
  {
    if log != [] {
      LastCallNone(log[..|log| - 1], typ);
    }
  }

  /** The last call for a type is what the status says about it. */
  lemma {:induction false} SaysLast(s: StatusValue, s': StatusValue, log: seq<Update>, k: nat)
    requires UniqueTypes(s.conditions) && s'.conditions == ApplyAll(s.conditions, log)
    requires k < |log| && forall j :: k < j < |log| ==> log[j].typ != log[k].typ
    ensures Says(s', log[k].typ, log[k].status, log[k].reason, log[k].message)
  {
    LastCallAt(log, k);
    EntryIsLastCall(s.conditions, log, log[k].typ);
    hide ApplyAll, LastCall;
  }

  lemma {:induction false} KeepsUncalled(s: StatusValue, s': StatusValue, log: seq<Update>, typ: ConditionType)
    requires UniqueTypes(s.conditions) && s'.conditions == ApplyAll(s.conditions, log)
    requires forall j :: 0 <= j < |log| ==> log[j].typ != typ
    ensures Keeps(s, s', typ)
  {
    LastCallNone(log, typ);
    EntryIsLastCall(s.conditions, log, typ);
    hide ApplyAll, LastCall;
  }

  /** The counts and times of the proposed status, by verdict. */
  lemma {:induction false} CountsOf(s: StatusValue, v: Verdict, specReplicas: int, current: int, inputs: Inputs)
    ensures var (o, ok, r) := (Conclude(s, v, specReplicas, current, inputs), inputs.deployWriteOk, inputs.readings);
      && o.proposed.conditions == ApplyAll(s.conditions, FullLog(v, ok, r))
      && o.proposed.currentReplicas == current && o.proposed.observedGeneration == None
      && o.deployAttempted == v.rescale && o.scaled == (v.rescale && ok)
      && (v.failed || (v.rescale && !ok) ==>
            && o.proposed.desiredReplicas == s.desiredReplicas && o.proposed.currentMetrics == s.currentMetrics
            && o.proposed.lastScaleTime == s.lastScaleTime)
      && (!v.failed && !v.rescale ==>
            && o.proposed.desiredReplicas == current && o.proposed.currentMetrics == v.statuses
            && o.proposed.lastScaleTime == s.lastScaleTime)
      && (!v.failed && v.rescale && ok ==>
            && o.proposed.desiredReplicas == v.desired && o.proposed.currentMetrics == v.statuses
            && o.proposed.lastScaleTime == Some(r[AT_STATUS]))
  {
    hide ApplyAll, FullLog;
  }

  /** Counts refreshed and nothing else: the observed generation is lost. */
  predicate OnlyCurrent(s: StatusValue, s': StatusValue, current: int) {
    && s'.currentReplicas == current && s'.desiredReplicas == s.desiredReplicas && s'.currentMetrics == s.currentMetrics
    && s'.lastScaleTime == s.lastScaleTime && s'.observedGeneration == None
  }

  predicate Counts(s': StatusValue, current: int, desired: int, metrics: seq<MetricStatus>, last: Option<Time>) {
    && s'.currentReplicas == current && s'.desiredReplicas == desired && s'.currentMetrics == metrics
    && s'.lastScaleTime == last && s'.observedGeneration == None
  }

  lemma {:induction false} DisabledReports(spec: Spec, s: StatusValue, current: nat, inputs: Inputs)
    requires Usable(spec, inputs) && UniqueTypes(s.conditions)
    ensures var s' := Pass(spec, s, 0, current, inputs).proposed;
      && Says(s', AbleToScale, CondTrue, SucceededGetScale, Plain)
      && Says(s', ScalingActive, CondFalse, ScalingDisabled, Plain)
      && Counts(s', current, current, [], s.lastScaleTime)
      && forall typ :: typ != AbleToScale && typ != ScalingActive ==> Keeps(s, s', typ)
  {
    var v := Assess(spec, s.lastScaleTime, 0, current, inputs);
    var log, s' := v.log, Pass(spec, s, 0, current, inputs).proposed;
    assert |log| == 2 && log[0].typ == AbleToScale && log[1].typ == ScalingActive;
    CountsOf(s, v, 0, current, inputs);
    assert FullLog(v, inputs.deployWriteOk, inputs.readings) == log;
    hide Assess, Conclude, Keeps, Says, ApplyAll;
    SaysLast(s, s', log, 0);
    SaysLast(s, s', log, 1);
    forall typ | typ != AbleToScale && typ != ScalingActive
      ensures Keeps(s, s', typ)
    {
      KeepsUncalled(s, s', log, typ);
    }
  }

  /** The outcome of a deployment update in the conditions. */
  predicate ReportsUpdate(s': StatusValue, ok: bool, desired: int) {
    if ok then Says(s', AbleToScale, CondTrue, SucceededRescale, Counting(desired))
    else Says(s', AbleToScale, CondFalse, FailedUpdateScale, Plain)
  }

  lemma {:induction false} CorrectionReports(
    spec: Spec, s: StatusValue, specReplicas: int, current: nat, inputs: Inputs)
    requires Usable(spec, inputs) && UniqueTypes(s.conditions)
    requires specReplicas != 0 && !MetricsDecide(spec, specReplicas, current)
    ensures var o := Pass(spec, s, specReplicas, current, inputs);
      && ReportsUpdate(o.proposed, inputs.deployWriteOk, o.target)
      && (if inputs.deployWriteOk then Counts(o.proposed, current, o.target, [], Some(inputs.readings[AT_STATUS]))
          else OnlyCurrent(s, o.proposed, current))
      && forall typ :: typ != AbleToScale ==> Keeps(s, o.proposed, typ)
  {
    var v := Assess(spec, s.lastScaleTime, specReplicas, current, inputs);
    var o, log := Pass(spec, s, specReplicas, current, inputs), FullLog(v, inputs.deployWriteOk, inputs.readings);
    assert |log| == 2 && log[0].typ == AbleToScale == log[1].typ && v.rescale && !v.failed && v.statuses == [];
    CountsOf(s, v, specReplicas, current, inputs);
    assert o.target == v.desired && log[1] == ScaleUpdate(v, inputs.deployWriteOk, inputs.readings[AT_SCALE]);
    hide Assess, Keeps, Says, ApplyAll, FullLog;
    SaysLast(s, o.proposed, log, 1);
    forall typ | typ != AbleToScale
      ensures Keeps(s, o.proposed, typ)
    {
      KeepsUncalled(s, o.proposed, log, typ);
    }
  }

  lemma {:induction false} FailureReports(spec: Spec, s: StatusValue, specReplicas: int, current: nat, inputs: Inputs)
    requires Usable(spec, inputs) && UniqueTypes(s.conditions)
    requires MetricsDecide(spec, specReplicas, current) && ComputedFor(spec, current, inputs).Err?
    ensures var s' := Pass(spec, s, specReplicas, current, inputs).proposed;
      var e := ComputedFor(spec, current, inputs).error;
      && Says(s', AbleToScale, CondTrue, SucceededGetScale, Plain)
      && Says(s', ScalingActive, CondFalse, FailureReason(e), Failing(e))
      && OnlyCurrent(s, s', current)
      && forall typ :: typ != AbleToScale && typ != ScalingActive ==> Keeps(s, s', typ)
  {
    hide Computed, FailureReason;
    var v := Assess(spec, s.lastScaleTime, specReplicas, current, inputs);
    var log, s' := v.log, Pass(spec, s, specReplicas, current, inputs).proposed;
    assert |log| == 2 && log[0].typ == AbleToScale && log[1].typ == ScalingActive && v.failed && !v.rescale;
    CountsOf(s, v, specReplicas, current, inputs);
    assert FullLog(v, inputs.deployWriteOk, inputs.readings) == log;
    hide Conclude, Keeps, Says, ApplyAll;
    SaysLast(s, s', log, 0);
    SaysLast(s, s', log, 1);
    forall typ | typ != AbleToScale && typ != ScalingActive
      ensures Keeps(s, s', typ)
    {
      KeepsUncalled(s, s', log, typ);
    }
  }

  /** What a pass that does not rescale says about the windows at time `at`. */
  predicate ReportsWindows(s': StatusValue, spec: Spec, last: Option<Time>, at: Time) {
    var (down, up) := (Free(last, spec.downscaleWindow, at), Free(last, spec.upscaleWindow, at));
    if !down && !up then Says(s', AbleToScale, CondFalse, BackoffBoth, Plain)
    else if !down then Says(s', AbleToScale, CondFalse, BackoffDownscale, Plain)
    else if !up then Says(s', AbleToScale, CondFalse, BackoffUpscale, Plain)
    else Says(s', AbleToScale, CondTrue, ReadyForNewScale, Plain)
  }

  /** How a proposal and the count it was clamped to are reported. */
  predicate ReportsLimit(s': StatusValue, proposal: int, n: Normalized) {
    Says(s', ScalingLimited, if n.replicas == proposal then CondFalse else CondTrue, n.reason, Limiting(n.text))
  }

  lemma {:induction false} DecidedLog(
    spec: Spec, last: Option<Time>, specReplicas: int, current: nat, inputs: Inputs)
    requires Usable(spec, inputs) && MetricsDecide(spec, specReplicas, current)
      && ComputedFor(spec, current, inputs).Ok?
    ensures var v := Assess(spec, last, specReplicas, current, inputs);
      var f, log := ComputedFor(spec, current, inputs).value, FullLog(v, inputs.deployWriteOk, inputs.readings);
      var n := Normalize(spec, current, Max(f.replicas, 0));
      && !v.failed && v.statuses == f.statuses && v.desired == n.replicas
      && |log| >= 4
      && log[0].typ == AbleToScale
      && (forall j :: 3 <= j < |log| ==> log[j].typ == AbleToScale)
      && log[1] == Update(ScalingActive, CondTrue, ValidMetricFound, Naming(f.name), log[1].at)
      && log[2] == Update(ScalingLimited, if n.replicas == Max(f.replicas, 0) then CondFalse else CondTrue, n.reason,
                          Limiting(n.text), log[2].at)
  {
    hide Computed, Normalize, ShouldScale;
  }

  lemma {:induction false} DecidedLast(
    spec: Spec, last: Option<Time>, specReplicas: int, current: nat, inputs: Inputs)
    requires Usable(spec, inputs) && MetricsDecide(spec, specReplicas, current)
      && ComputedFor(spec, current, inputs).Ok?
    ensures var v := Assess(spec, last, specReplicas, current, inputs);
      var f, log := ComputedFor(spec, current, inputs).value, FullLog(v, inputs.deployWriteOk, inputs.readings);
      var at := if f.replicas > 0 then f.timestamp else inputs.readings[AT_START];
      var (down, up) := (Free(last, spec.downscaleWindow, at), Free(last, spec.upscaleWindow, at));
      |log| > 0 &&
      var u := log[|log| - 1];
      if v.rescale && inputs.deployWriteOk then
        u == Update(AbleToScale, CondTrue, SucceededRescale, Counting(v.desired), u.at)
      else if v.rescale then u == Update(AbleToScale, CondFalse, FailedUpdateScale, Plain, u.at)
      else if !down && !up then u == Update(AbleToScale, CondFalse, BackoffBoth, Plain, u.at)
      else if !down then u == Update(AbleToScale, CondFalse, BackoffDownscale, Plain, u.at)
      else if !up then u == Update(AbleToScale, CondFalse, BackoffUpscale, Plain, u.at)
      else u == Update(AbleToScale, CondTrue, ReadyForNewScale, Plain, u.at)
  {
    hide Computed, Normalize, ShouldScale;
  }

  lemma {:induction false} DecidedEntries(s: StatusValue, s': StatusValue, log: seq<Update>)
    requires UniqueTypes(s.conditions) && s'.conditions == ApplyAll(s.conditions, log) && |log| >= 4
    requires log[0].typ == AbleToScale && log[1].typ == ScalingActive && log[2].typ == ScalingLimited
    requires forall j :: 3 <= j < |log| ==> log[j].typ == AbleToScale
    ensures Says(s', ScalingActive, log[1].status, log[1].reason, log[1].message)
    ensures Says(s', ScalingLimited, log[2].status, log[2].reason, log[2].message)
    ensures var u := log[|log| - 1]; Says(s', AbleToScale, u.status, u.reason, u.message)
    ensures forall typ: ConditionType :: typ.OtherType? ==> Keeps(s, s', typ)
  {
    hide Keeps, Says, ApplyAll;
    SaysLast(s, s', log, 1);
    SaysLast(s, s', log, 2);
    SaysLast(s, s', log, |log| - 1);
    forall typ: ConditionType | typ.OtherType?
      ensures Keeps(s, s', typ)
    {
      KeepsUncalled(s, s', log, typ);
    }
  }

  /** The metrics branch with computed metrics: what is reported, whether or not it rescales. */
  lemma {:induction false} DecisionReports(spec: Spec, s: StatusValue, specReplicas: int, current: nat, inputs: Inputs)
    requires Usable(spec, inputs) && UniqueTypes(s.conditions)
    requires MetricsDecide(spec, specReplicas, current) && ComputedFor(spec, current, inputs).Ok?
    ensures var o, f := Pass(spec, s, specReplicas, current, inputs), ComputedFor(spec, current, inputs).value;
      var at := if f.replicas > 0 then f.timestamp else inputs.readings[AT_START];
      var n := Normalize(spec, current, Max(f.replicas, 0));
      && Says(o.proposed, ScalingActive, CondTrue, ValidMetricFound, Naming(f.name))
      && ReportsLimit(o.proposed, Max(f.replicas, 0), n)
      && (if o.deployAttempted then ReportsUpdate(o.proposed, inputs.deployWriteOk, n.replicas)
          else ReportsWindows(o.proposed, spec, s.lastScaleTime, at))
      && (if o.scaled then Counts(o.proposed, current, n.replicas, f.statuses, Some(inputs.readings[AT_STATUS]))
          else if o.deployAttempted then OnlyCurrent(s, o.proposed, current)
          else Counts(o.proposed, current, current, f.statuses, s.lastScaleTime))
      && forall typ: ConditionType :: typ.OtherType? ==> Keeps(s, o.proposed, typ)
  {
    var v := Assess(spec, s.lastScaleTime, specReplicas, current, inputs);
    var o, log := Pass(spec, s, specReplicas, current, inputs), FullLog(v, inputs.deployWriteOk, inputs.readings);
    CountsOf(s, v, specReplicas, current, inputs);
    DecidedLog(spec, s.lastScaleTime, specReplicas, current, inputs);
    DecidedLast(spec, s.lastScaleTime, specReplicas, current, inputs);
    hide Assess, Conclude, Keeps, Says, ApplyAll, FullLog, ComputedFor, Normalize, Free, Usable, MetricsDecide;
    DecidedEntries(s, o.proposed, log);
  }

  /** A failed store is reported in memory only, and only when the pass had failed before. */
  lemma {:induction false} StoreFailureReports(
    spec: Spec, s: StatusValue, specReplicas: int, current: nat, inputs: Inputs)
    requires Usable(spec, inputs) && UniqueTypes(s.conditions)
    ensures var o := Pass(spec, s, specReplicas, current, inputs);
      var failed := MetricsDecide(spec, specReplicas, current) && ComputedFor(spec, current, inputs).Err?;
      && o.statusAttempted == (o.proposed != s) && o.statusStored == (o.statusAttempted && inputs.statusWriteOk)
      && (if (failed || (o.deployAttempted && !o.scaled)) && o.statusAttempted && !o.statusStored
          then Says(o.memory, AbleToScale, CondFalse, FailedUpdateReplicas, Plain)
            && o.memory == o.proposed.(conditions := o.memory.conditions)
            && forall typ :: typ != AbleToScale ==> Keeps(o.proposed, o.memory, typ)
          else o.memory == o.proposed)
  {
    var v := Assess(spec, s.lastScaleTime, specReplicas, current, inputs);
    var o := Pass(spec, s, specReplicas, current, inputs);
    assert v.failed <==> MetricsDecide(spec, specReplicas, current) && ComputedFor(spec, current, inputs).Err?;
    CountsOf(s, v, specReplicas, current, inputs);
    ListKept(s.conditions, FullLog(v, inputs.deployWriteOk, inputs.readings));
    var u := Update(AbleToScale, CondFalse, FailedUpdateReplicas, Plain, inputs.readings[AT_STORE_FAILED]);
    OneUpdate(o.proposed.conditions, u);
    hide Assess, ApplyAll, FullLog, ProposedStatus;
    IndexAfter(o.proposed.conditions, u);
  }

  lemma {:induction false} IndexAfter(conds: seq<Condition>, u: Update)
    ensures IndexOf(ApplyUpdate(conds, u), u.typ) < |ApplyUpdate(conds, u)|
  {
    var res, i := ApplyUpdate(conds, u), IndexOf(conds, u.typ);
    assert res[i].typ == u.typ;
  }
}
