/**
 One proposal per metric, and the loop that keeps the largest: the first failing
 metric voids the result, otherwise the maximum wins with the name and timestamp
 of the first metric that attains it.
 */
module MetricFold {
  import opened Wrappers
  import opened Arithmetic
  import opened PodMetrics
  import opened ReplicaCalculators
  import opened ReplicaTheorems
  import opened PlainTheorems
  import opened Conditions
  import opened Chpa

  /** What the metrics client and the pod lister return while one metric is evaluated. */
  datatype Observation = Observation(
    podMetrics: Option<Sample<Metrics>>, pods: Option<seq<Pod>>, objectValue: Option<Sample<int>>,
    externalValues: Option<Sample<seq<int>>>, externalSelectorOk: bool)

  /** The label selector of the scaled deployment. */
  datatype Selector = NoSelector | UnusableSelector | UsableSelector

  ghost predicate Listing(o: Observation) {
    o.pods.Some? ==> UniqueNames(o.pods.value)
  }

  datatype MetricProposal = MetricProposal(replicas: int, name: MetricName, timestamp: Time, status: MetricStatus)

  function FailureReason(e: MetricError): Reason {
    match e
    case SelectorRequired => InvalidSelector
    case SelectorInvalid => InvalidSelector
    case UnknownSource => InvalidMetricSourceType
    case NoTarget(source) => SourceReason(source)
    case CalculationFailed(source, _) => SourceReason(source)
  }

  function SourceReason(source: SourceKind): Reason {
    match source
    case ObjectSource => FailedGetObjectMetric
    case PodsSource => FailedGetPodsMetric
    case RawResourceSource => FailedGetResourceMetric
    case ResourceSource => FailedGetResourceMetric
    case ExternalSource => FailedGetExternalMetric
  }

  // ---- one metric ----

  function Named(
    source: SourceKind, name: string, r: Result<Proposal, CalcError>): Result<MetricProposal, MetricError> {
    match r
    case Err(e) => Err(CalculationFailed(source, e))
    case Ok(p) => Ok(MetricProposal(p.replicas, MetricName(source, name), p.timestamp,
      MetricStatus(source, name, None, p.utilization)))
  }

  function NamedResource(name: string, r: Result<ResourceProposal, CalcError>): Result<MetricProposal, MetricError> {
    match r
    case Err(e) => Err(CalculationFailed(ResourceSource, e))
    case Ok(p) => Ok(MetricProposal(p.replicas, MetricName(ResourceSource, name), p.timestamp,
                                    MetricStatus(ResourceSource, name, Some(p.percentage), p.raw)))
  }

  ghost function FetchedPlain(
    o: Observation, current: int, target: Target, tolerance: real): Result<Proposal, CalcError>
  {
    if o.podMetrics.None? then Err(NoMetricsFetched)
    else if o.pods.None? then Err(NoPodsFetched)
    else PlainOutcome(PodSet(o.pods.value), o.podMetrics.value.value, o.podMetrics.value.timestamp, current, target,
      tolerance)
  }

  ghost function FetchedResource(
    o: Observation, current: int, target: Target, tolerance: real): Result<ResourceProposal, CalcError>
    requires Listing(o)
  {
    if o.podMetrics.None? then Err(NoMetricsFetched)
    else if o.pods.None? then Err(NoPodsFetched)
    else
      UniqueIsInjective(o.pods.value);
      ResourceOutcome(PodSet(o.pods.value), o.podMetrics.value.value, o.podMetrics.value.timestamp, current, target,
        tolerance)
  }

  function FetchedExternal(o: Observation, current: int, target: Target, tolerance: real): Result<Proposal, CalcError> {
    if !o.externalSelectorOk then Err(BadSelector)
    else if o.externalValues.None? then Err(NoMetricsFetched)
    else
      var usage := SumSeq(o.externalValues.value.value);
      Ok(Proposal(ScaledReplicas(usage, target, current, tolerance), usage, o.externalValues.value.timestamp))
  }

  function FetchedPerPod(o: Observation, current: int, target: Target, tolerance: real): Result<Proposal, CalcError>
    requires 0 < current
  {
    if !o.externalSelectorOk then Err(BadSelector)
    else if o.externalValues.None? then Err(NoMetricsFetched)
    else
      var usage := SumSeq(o.externalValues.value.value);
      Ok(Proposal(PerPodReplicas(usage, target, current, tolerance), Ceil(Ratio(usage, current)),
        o.externalValues.value.timestamp))
  }

  function FetchedObject(o: Observation, current: int, target: Target, tolerance: real): Result<Proposal, CalcError> {
    if o.objectValue.None? then Err(NoMetricsFetched)
    else Ok(Proposal(ScaledReplicas(o.objectValue.value.value, target, current, tolerance), o.objectValue.value.value,
      o.objectValue.value.timestamp))
  }

  /** The proposal of one metric, by its type and the target that is set. */
  ghost function Propose(
    m: MetricSpec, o: Observation, current: int, tolerance: real): Result<MetricProposal, MetricError>
    requires m.PointerSet() && Listing(o) && 0 < current
  {
    match m.typ
    case ObjectType =>
      var s := m.objectMetric.value;
      Named(ObjectSource, s.name, FetchedObject(o, current, s.target, tolerance))
    case PodsType =>
      var s := m.podsMetric.value;
      Named(PodsSource, s.name, FetchedPlain(o, current, s.target, tolerance))
    case ResourceType =>
      var s := m.resourceMetric.value;
      if s.averageValue.Some? then
        Named(RawResourceSource, s.name, FetchedPlain(o, current, s.averageValue.value, tolerance))
      else if s.averageUtilization.None? then Err(NoTarget(ResourceSource))
      else NamedResource(s.name, FetchedResource(o, current, s.averageUtilization.value, tolerance))
    case ExternalType =>
      var s := m.externalMetric.value;
      if s.averageValue.Some? then
        Named(ExternalSource, s.name, FetchedPerPod(o, current, s.averageValue.value, tolerance))
      else if s.value.Some? then Named(ExternalSource, s.name, FetchedExternal(o, current, s.value.value, tolerance))
      else Err(NoTarget(ExternalSource))
    case OtherMetricType(_) => Err(UnknownSource)
  }

  method ProposeForMetric(calculator: ReplicaCalculator, m: MetricSpec, o: Observation, current: int)
    returns (r: Result<MetricProposal, MetricError>)
    requires m.PointerSet() && Listing(o) && 0 < current
    ensures r == Propose(m, o, current, calculator.tolerance)
  {
    hide PlainOutcome, ResourceOutcome, ScaledReplicas, PerPodReplicas, SumSeq, UniqueNames, PodSet;
    match m.typ {
      case ObjectType =>
        r := Named(ObjectSource, m.objectMetric.value.name,
                   calculator.GetObjectMetricReplicas(o.objectValue, current, m.objectMetric.value.target));
      case PodsType =>
        var p := calculator.GetPlainReplicas(o.podMetrics, o.pods, current, m.podsMetric.value.target);
        r := Named(PodsSource, m.podsMetric.value.name, p);
      case ResourceType =>
        var s := m.resourceMetric.value;
        if s.averageValue.Some? {
          var p := calculator.GetPlainReplicas(o.podMetrics, o.pods, current, s.averageValue.value);
          r := Named(RawResourceSource, s.name, p);
        } else if s.averageUtilization.None? {
          r := Err(NoTarget(ResourceSource));
        } else {
          var p := calculator.GetResourceReplicas(o.podMetrics, o.pods, current, s.averageUtilization.value);
          r := NamedResource(s.name, p);
        }
      case ExternalType =>
        var s := m.externalMetric.value;
        if s.averageValue.Some? {
          var p := calculator.GetExternalPerPodMetricReplicas(
            o.externalSelectorOk, o.externalValues, current, s.averageValue.value, 0);
          r := Named(ExternalSource, s.name, p);
        } else if s.value.Some? {
          var p := calculator.GetExternalMetricReplicas(o.externalSelectorOk, o.externalValues, current, s.value.value);
          r := Named(ExternalSource, s.name, p);
        } else {
          r := Err(NoTarget(ExternalSource));
        }
      case OtherMetricType(_) =>
        r := Err(UnknownSource);
    }
  }

  // ---- the fold ----

  datatype Folded = Folded(replicas: int, name: MetricName, timestamp: Time, statuses: seq<MetricStatus>)

  const NOTHING := Folded(0, NoMetric, ZERO_TIME, [])

  function Keep(acc: Folded, p: MetricProposal): Folded {
    if acc.replicas == 0 || p.replicas > acc.replicas
    then Folded(p.replicas, p.name, p.timestamp, acc.statuses + [p.status])
    else acc.(statuses := acc.statuses + [p.status])
  }

  function FoldAll(ps: seq<MetricProposal>): Folded {
    if ps == [] then NOTHING else Keep(FoldAll(ps[..|ps| - 1]), ps[|ps| - 1])
  }

  /** All proposals, or the error of the first metric without one. */
  ghost function Proposals(
    metrics: seq<MetricSpec>, observations: seq<Observation>, selector: Selector, current: int, tolerance: real)
    : Result<seq<MetricProposal>, MetricError>
    requires ValidMetrics(metrics) && |observations| == |metrics| && 0 < current
    requires forall i :: 0 <= i < |observations| ==> Listing(observations[i])
  {
    if metrics == [] then Ok([])
    else
      var n := |metrics| - 1;
      var earlier := Proposals(metrics[..n], observations[..n], selector, current, tolerance);
      if earlier.Err? then earlier
      else if selector.NoSelector? then Err(SelectorRequired)
      else if selector.UnusableSelector? then Err(SelectorInvalid)
      else match Propose(metrics[n], observations[n], current, tolerance)
        case Err(e) => Err(e)
        case Ok(p) => Ok(earlier.value + [p])
  }

  /** What the loop returns. */
  ghost function Computed(
    metrics: seq<MetricSpec>, observations: seq<Observation>, selector: Selector, current: int, tolerance: real)
    : Result<Folded, MetricError>
    requires ValidMetrics(metrics) && |observations| == |metrics| && 0 < current
    requires forall i :: 0 <= i < |observations| ==> Listing(observations[i])
  {
    match Proposals(metrics, observations, selector, current, tolerance)
    case Err(e) => Err(e)
    case Ok(ps) => Ok(FoldAll(ps))
  }

  /** The single condition the loop leaves behind. */
  function ActiveUpdate(r: Result<Folded, MetricError>, at: Time): Update {
    match r
    case Err(e) => Update(ScalingActive, CondFalse, FailureReason(e), Failing(e), at)
    case Ok(f) => Update(ScalingActive, CondTrue, ValidMetricFound, Naming(f.name), at)
  }

  /** The loop itself: a failing metric returns at once, a larger proposal replaces the one kept. */
  method FoldMetrics(
    calculator: ReplicaCalculator, metrics: seq<MetricSpec>, observations: seq<Observation>, selector: Selector,
    current: int)
    returns (r: Result<Folded, MetricError>)
    requires ValidMetrics(metrics) && |observations| == |metrics| && 0 < current
    requires forall i :: 0 <= i < |observations| ==> Listing(observations[i])
    ensures r == Computed(metrics, observations, selector, current, calculator.tolerance)
  {
    var replicas, metric, timestamp := 0, NoMetric, ZERO_TIME;
    var statuses: seq<MetricStatus> := [];
    ghost var ps: seq<MetricProposal> := [];
    for i := 0 to |metrics|
      invariant Proposals(metrics[..i], observations[..i], selector, current, calculator.tolerance) == Ok(ps)
      invariant Folded(replicas, metric, timestamp, statuses) == FoldAll(ps)
    {
      PrefixOfPrefix(metrics, observations, i);
      if selector.NoSelector? {
        FirstFailureVoids(metrics, observations, selector, current, calculator.tolerance, i + 1);
        return Err(SelectorRequired);
      }
      if selector.UnusableSelector? {
        FirstFailureVoids(metrics, observations, selector, current, calculator.tolerance, i + 1);
        return Err(SelectorInvalid);
      }
      var proposal := ProposeForMetric(calculator, metrics[i], observations[i], current);
      if proposal.Err? {
        FirstFailureVoids(metrics, observations, selector, current, calculator.tolerance, i + 1);
        return Err(proposal.error);
      }
      var MetricProposal(replicaCountProposal, metricNameProposal, timestampProposal, status) := proposal.value;
      statuses := statuses + [status];
      if replicas == 0 || replicaCountProposal > replicas {
        timestamp := timestampProposal;
        replicas := replicaCountProposal;
        metric := metricNameProposal;
      }
      assert (ps + [proposal.value])[..|ps|] == ps;
      ps := ps + [proposal.value];
    }
    assert metrics[..|metrics|] == metrics && observations[..|metrics|] == observations;
    r := Ok(Folded(replicas, metric, timestamp, statuses));
  }

  lemma {:induction false} PrefixOfPrefix(metrics: seq<MetricSpec>, observations: seq<Observation>, i: nat)
    requires i < |metrics| == |observations|
    ensures metrics[..i + 1][..i] == metrics[..i] && observations[..i + 1][..i] == observations[..i]
    ensures metrics[..i + 1][i] == metrics[i] && observations[..i + 1][i] == observations[i]
  {
  }

  /** Whatever fails within a prefix fails the whole list with the same error. */
  lemma {:induction false} FirstFailureVoids(
    metrics: seq<MetricSpec>, observations: seq<Observation>, selector: Selector, current: int, tolerance: real, i: nat)
    requires ValidMetrics(metrics) && |observations| == |metrics| && 0 < current
    requires forall j :: 0 <= j < |observations| ==> Listing(observations[j])
    requires i <= |metrics| && Proposals(metrics[..i], observations[..i], selector, current, tolerance).Err?
    ensures Proposals(metrics, observations, selector, current, tolerance)
         == Proposals(metrics[..i], observations[..i], selector, current, tolerance)
    decreases |metrics|
  {
    var n := |metrics| - 1;
    if i == |metrics| {
      assert metrics[..i] == metrics && observations[..i] == observations;
    } else {
      assert metrics[..n][..i] == metrics[..i] && observations[..n][..i] == observations[..i];
      FirstFailureVoids(metrics[..n], observations[..n], selector, current, tolerance, i);
    }
  }

  method ComputeReplicasForMetrics(
    calculator: ReplicaCalculator, status: Status, metrics: seq<MetricSpec>, observations: seq<Observation>,
    selector: Selector, current: int, now: Time)
    returns (r: Result<Folded, MetricError>)
    requires ValidMetrics(metrics) && |observations| == |metrics| && 0 < current
    requires forall i :: 0 <= i < |observations| ==> Listing(observations[i])
    requires status.Valid()
    modifies status`conditions, status.conditions.data
    ensures r == Computed(metrics, observations, selector, current, calculator.tolerance)
    ensures status.Valid() && (status.conditions.data == old(status.conditions.data) || fresh(status.conditions.data))
    ensures status.Value()
      == old(status.Value()).(conditions := ApplyUpdate(old(status.Value()).conditions, ActiveUpdate(r, now)))
  {
    r := FoldMetrics(calculator, metrics, observations, selector, current);
    if r.Err? {
      status.SetCondition(ScalingActive, CondFalse, FailureReason(r.error), Failing(r.error), now);
    } else {
      status.SetCondition(ScalingActive, CondTrue, ValidMetricFound, Naming(r.value.name), now);
    }
  }

  // ---- what the fold returns ----

  ghost predicate NonNegativeProposals(ps: seq<MetricProposal>) {
    forall i :: 0 <= i < |ps| ==> 0 <= ps[i].replicas
  }

  /** `w` is the first proposal attaining the maximum, and the maximum is positive. */
  ghost predicate FirstMaximum(ps: seq<MetricProposal>, w: nat) {
    && w < |ps| && 0 < ps[w].replicas
    && (forall i :: 0 <= i < |ps| ==> ps[i].replicas <= ps[w].replicas)
    && (forall i :: 0 <= i < w ==> ps[i].replicas < ps[w].replicas)
  }

  /**
   A positive result is the maximum, with name and timestamp of the first metric attaining it.
   A zero result means every proposal is zero, and then the last metric is the one reported.
   */
  lemma {:induction false} FoldIsFirstMaximum(ps: seq<MetricProposal>) returns (w: nat)
    requires NonNegativeProposals(ps)
    ensures var f := FoldAll(ps);
      && |f.statuses| == |ps| && (forall i :: 0 <= i < |ps| ==> f.statuses[i] == ps[i].status)
      && 0 <= f.replicas
      && (f.replicas > 0 ==>
          FirstMaximum(ps, w) && f.replicas == ps[w].replicas && f.name == ps[w].name && f.timestamp == ps[w].timestamp)
      && (f.replicas == 0 ==> forall i :: 0 <= i < |ps| ==> ps[i].replicas == 0)
      && (f.replicas == 0 && ps != [] ==> f.name == ps[|ps| - 1].name && f.timestamp == ps[|ps| - 1].timestamp)
  {
    w := 0;
    if ps != [] {
      var n := |ps| - 1;
      var v := FoldIsFirstMaximum(ps[..n]);
      var before := FoldAll(ps[..n]);
      w := if before.replicas == 0 || ps[n].replicas > before.replicas then n else v;
    }
  }

  /** The maximum is unaffected by the order of the metrics. */
  lemma {:induction false} FoldPermutation(ps: seq<MetricProposal>, qs: seq<MetricProposal>)
    requires NonNegativeProposals(ps) && multiset(ps) == multiset(qs)
    ensures FoldAll(ps).replicas == FoldAll(qs).replicas
  {
    assert NonNegativeProposals(qs) by {
      forall i | 0 <= i < |qs|
        ensures 0 <= qs[i].replicas
      {
        SameMembers(qs, ps, qs[i]);
      }
    }
    FoldAtLeast(ps, qs);
    FoldAtLeast(qs, ps);
  }

  lemma {:induction false} SameMembers(ps: seq<MetricProposal>, qs: seq<MetricProposal>, p: MetricProposal)
    requires multiset(ps) == multiset(qs) && p in ps
    ensures p in qs
  {
    assert p in multiset(ps);
    assert p in multiset(qs);
  }

  lemma {:induction false} FoldAtLeast(ps: seq<MetricProposal>, qs: seq<MetricProposal>)
    requires NonNegativeProposals(ps) && NonNegativeProposals(qs) && multiset(ps) == multiset(qs)
    ensures FoldAll(ps).replicas <= FoldAll(qs).replicas
  {
    var w := FoldIsFirstMaximum(ps);
    var v := FoldIsFirstMaximum(qs);
    if FoldAll(ps).replicas > 0 {
      SameMembers(ps, qs, ps[w]);
      var i :| 0 <= i < |qs| && qs[i] == ps[w];
    }
  }

  // ---- proposals are never negative ----

  ghost predicate NonNegativeObservation(o: Observation) {
    && (o.podMetrics.Some? ==> NonNegative(o.podMetrics.value.value))
    && (o.objectValue.Some? ==> 0 <= o.objectValue.value.value)
    && (o.externalValues.Some? ==> forall i :: 0 <= i < |o.externalValues.value.value| ==>
        0 <= o.externalValues.value.value[i])
  }

  lemma {:induction false} SumSeqNonNegative(values: seq<int>)
    requires forall i :: 0 <= i < |values| ==> 0 <= values[i]
    ensures 0 <= SumSeq(values)
  {
    if values != [] {
      SumSeqNonNegative(values[..|values| - 1]);
    }
  }

  lemma {:induction false} ScaledNonNegative(usage: int, target: Target, current: int, tolerance: real)
    requires 0 <= usage && 0 < current
    ensures 0 <= ScaledReplicas(usage, target, current, tolerance)
    ensures 0 <= PerPodReplicas(usage, target, current, tolerance)
  {
    RatioVersusOne(usage, target);
    CeilScaled(Ratio(usage, target), current);
    CeilScaled(Ratio(usage, target), 1);
  }

  lemma {:induction false} ResourceNonNegative(t: Tally, current: int, target: Target, tolerance: real)
    requires 0 <= t.usage && 0 < t.readyRequest && 0 < current
    ensures 0 <= ResourceReplicas(t, current, target, tolerance)
  {
    var ratio := UsageRatio(t, target);
    var load := ResourceRefill(t, ratio);
    PercentNonNegative(t.usage, t.readyRequest);
    PercentNonNegative(load.usage, load.request);
    RatioVersusOne(Percent(t.usage, t.readyRequest), target);
    RatioVersusOne(Percent(load.usage, load.request), target);
    CeilScaled(ratio, t.ready);
    CeilScaled(Ratio(Percent(load.usage, load.request), target), load.count);
  }

  lemma {:induction false} PlainNonNegative(t: PlainTally, current: int, target: Target, tolerance: real)
    requires 0 <= t.usage && 0 < t.ready + t.extra && 0 < current
    ensures 0 <= PlainReplicas(t, current, target, tolerance)
  {
    var ratio := PlainRatio(t, target);
    var load := PlainRefill(t, ratio, target);
    MulNonNegative(target, t.missing);
    TruncIsDiv(t.usage, t.ready + t.extra);
    TruncIsDiv(load.usage, load.count);
    RatioVersusOne(Average(t), target);
    RatioVersusOne(TruncDiv(load.usage, load.count), target);
    CeilScaled(ratio, t.ready);
    CeilScaled(Ratio(TruncDiv(load.usage, load.count), target), load.count);
  }

  lemma {:induction false} PlainTallyNonNegative(pods: set<Pod>, metrics: Metrics)
    requires NonNegative(metrics)
    ensures 0 <= PlainTallyOf(pods, metrics).usage
  {
    var kept := metrics - NotReadyNames(pods);
    SumNonNegative(kept, kept.Keys);
  }

  lemma {:induction false} FetchedPlainNonNegative(o: Observation, current: int, target: Target, tolerance: real)
    requires NonNegativeObservation(o) && 0 < current
    ensures var r := FetchedPlain(o, current, target, tolerance); r.Ok? ==> 0 <= r.value.replicas
  {
    if o.podMetrics.Some? && o.pods.Some? {
      var pods, metrics := PodSet(o.pods.value), o.podMetrics.value.value;
      var t := PlainTallyOf(pods, metrics);
      PlainTallyNonNegative(pods, metrics);
      hide PlainTallyOf, PlainReplicas, NonNegative, TruncDiv, PodSet, UniqueNames;
      if 0 < t.ready + t.extra {
        PlainNonNegative(t, current, target, tolerance);
      }
    }
  }

  lemma {:induction false} TallyNonNegative(pods: set<Pod>, metrics: Metrics)
    requires NonNegative(metrics) && Injective(pods)
    ensures 0 <= ResourceTally(pods, metrics).usage
  {
    SumNonNegative(metrics, ReadyNames(pods, metrics));
  }

  lemma {:induction false} TallyOutcomeNonNegative(
    t: Tally, current: int, target: Target, tolerance: real, timestamp: Time)
    requires 0 <= t.usage && 0 < current
    ensures var r := TallyOutcome(t, current, target, tolerance, timestamp); r.Ok? ==> 0 <= r.value.replicas
  {
    hide ResourceReplicas, Percent, TruncDiv;
    if 0 < t.readyRequest {
      ResourceNonNegative(t, current, target, tolerance);
    }
  }

  lemma {:induction false} ResourceOutcomeNonNegative(
    pods: set<Pod>, metrics: Metrics, timestamp: Time, current: int, target: Target, tolerance: real)
    requires Injective(pods) && NonNegative(metrics) && 0 < current
    ensures var r := ResourceOutcome(pods, metrics, timestamp, current, target, tolerance);
      r.Ok? ==> 0 <= r.value.replicas
  {
    TallyNonNegative(pods, metrics);
    hide ResourceTally, TallyOutcome, NonNegative, Injective;
    TallyOutcomeNonNegative(ResourceTally(pods, metrics), current, target, tolerance, timestamp);
  }

  lemma {:induction false} FetchedResourceNonNegative(o: Observation, current: int, target: Target, tolerance: real)
    requires Listing(o) && NonNegativeObservation(o) && 0 < current
    ensures var r := FetchedResource(o, current, target, tolerance); r.Ok? ==> 0 <= r.value.replicas
  {
    hide ResourceOutcome;
    if o.podMetrics.Some? && o.pods.Some? {
      UniqueIsInjective(o.pods.value);
      ResourceOutcomeNonNegative(
        PodSet(o.pods.value), o.podMetrics.value.value, o.podMetrics.value.timestamp, current, target, tolerance);
    }
  }

  lemma {:induction false} ProposalNonNegative(m: MetricSpec, o: Observation, current: int, tolerance: real)
    requires m.PointerSet() && Listing(o) && NonNegativeObservation(o) && 0 < current
    ensures var r := Propose(m, o, current, tolerance); r.Ok? ==> 0 <= r.value.replicas
  {
    hide FetchedPlain, FetchedResource, ScaledReplicas, PerPodReplicas;
    match m.typ {
      case ObjectType =>
        if o.objectValue.Some? {
          ScaledNonNegative(o.objectValue.value.value, m.objectMetric.value.target, current, tolerance);
        }
      case PodsType =>
        FetchedPlainNonNegative(o, current, m.podsMetric.value.target, tolerance);
      case ResourceType =>
        var s := m.resourceMetric.value;
        if s.averageValue.Some? {
          FetchedPlainNonNegative(o, current, s.averageValue.value, tolerance);
        } else if s.averageUtilization.Some? {
          FetchedResourceNonNegative(o, current, s.averageUtilization.value, tolerance);
        }
      case ExternalType =>
        var s := m.externalMetric.value;
        if o.externalValues.Some? {
          var usage := SumSeq(o.externalValues.value.value);
          SumSeqNonNegative(o.externalValues.value.value);
          if s.averageValue.Some? {
            ScaledNonNegative(usage, s.averageValue.value, current, tolerance);
          } else if s.value.Some? {
            ScaledNonNegative(usage, s.value.value, current, tolerance);
          }
        }
      case OtherMetricType(_) =>
    }
  }

  lemma {:induction false} ProposalsNonNegative(
    metrics: seq<MetricSpec>, observations: seq<Observation>, selector: Selector, current: int, tolerance: real)
    requires ValidMetrics(metrics) && |observations| == |metrics| && 0 < current
    requires forall i :: 0 <= i < |observations| ==> Listing(observations[i]) && NonNegativeObservation(observations[i])
    ensures var r := Proposals(metrics, observations, selector, current, tolerance);
      r.Ok? ==> |r.value| == |metrics| && NonNegativeProposals(r.value)
  {
    if metrics != [] {
      var n := |metrics| - 1;
      ProposalsNonNegative(metrics[..n], observations[..n], selector, current, tolerance);
      ProposalNonNegative(metrics[n], observations[n], current, tolerance);
    }
  }

  /** Every metric evaluates, on a deployment whose selector is usable. */
  ghost predicate AllPropose(
    metrics: seq<MetricSpec>, observations: seq<Observation>, selector: Selector, current: int, tolerance: real)
    requires ValidMetrics(metrics) && |observations| == |metrics| && 0 < current
    requires forall i :: 0 <= i < |observations| ==> Listing(observations[i])
  {
    metrics != [] ==>
      selector.UsableSelector? && forall i :: 0 <= i < |metrics| ==>
        Propose(metrics[i], observations[i], current, tolerance).Ok?
  }

  /** Dropping the last metric keeps what the callers promise, and every position before it. */
  lemma {:induction false} FewerMetrics(metrics: seq<MetricSpec>, observations: seq<Observation>)
    requires ValidMetrics(metrics) && |observations| == |metrics| && metrics != []
    requires forall i :: 0 <= i < |observations| ==> Listing(observations[i])
    ensures var n := |metrics| - 1;
      && ValidMetrics(metrics[..n]) && |observations[..n]| == |metrics[..n]|
      && (forall i :: 0 <= i < n ==> Listing(observations[..n][i]))
      && (forall i :: 0 <= i < n ==> metrics[..n][i] == metrics[i] && observations[..n][i] == observations[i])
      && metrics[n].PointerSet() && Listing(observations[n])
  {
    hide Listing;
  }

  /** One more metric: it evaluates after all earlier ones did, and its proposal comes last. */
  lemma {:induction false} OneMoreMetric(
    metrics: seq<MetricSpec>, observations: seq<Observation>, selector: Selector, current: int, tolerance: real)
    requires ValidMetrics(metrics) && |observations| == |metrics| && 0 < current && metrics != []
    requires forall i :: 0 <= i < |observations| ==> Listing(observations[i])
    ensures var n, r := |metrics| - 1, Proposals(metrics, observations, selector, current, tolerance);
      var earlier := Proposals(metrics[..n], observations[..n], selector, current, tolerance);
      var last := Propose(metrics[n], observations[n], current, tolerance);
      && (r.Ok? <==> earlier.Ok? && selector.UsableSelector? && last.Ok?)
      && (r.Ok? ==> r.value == earlier.value + [last.value])
  {
    FewerMetrics(metrics, observations);
    hide Propose, Listing, ValidMetrics;
  }

  lemma {:induction false} ProposalsAreOwn(
    metrics: seq<MetricSpec>, observations: seq<Observation>, selector: Selector, current: int, tolerance: real)
    requires ValidMetrics(metrics) && |observations| == |metrics| && 0 < current
    requires forall i :: 0 <= i < |observations| ==> Listing(observations[i])
    requires Proposals(metrics, observations, selector, current, tolerance).Ok?
    ensures metrics != [] ==> selector.UsableSelector?
    ensures var ps := Proposals(metrics, observations, selector, current, tolerance).value;
      && |ps| == |metrics|
      && forall i :: 0 <= i < |metrics| ==> Propose(metrics[i], observations[i], current, tolerance) == Ok(ps[i])
  {
    if metrics != [] {
      var n := |metrics| - 1;
      FewerMetrics(metrics, observations);
      OneMoreMetric(metrics, observations, selector, current, tolerance);
      hide Propose, Proposals, Listing, ValidMetrics;
      ProposalsAreOwn(metrics[..n], observations[..n], selector, current, tolerance);
    }
  }

  lemma {:induction false} AllProposeSuffices(
    metrics: seq<MetricSpec>, observations: seq<Observation>, selector: Selector, current: int, tolerance: real)
    requires ValidMetrics(metrics) && |observations| == |metrics| && 0 < current
    requires forall i :: 0 <= i < |observations| ==> Listing(observations[i])
    requires AllPropose(metrics, observations, selector, current, tolerance)
    ensures Proposals(metrics, observations, selector, current, tolerance).Ok?
  {
    if metrics != [] {
      var n := |metrics| - 1;
      FewerMetrics(metrics, observations);
      OneMoreMetric(metrics, observations, selector, current, tolerance);
      hide Propose, Proposals, Listing, ValidMetrics;
      AllProposeSuffices(metrics[..n], observations[..n], selector, current, tolerance);
    }
  }

  /**
   Any metric that cannot be evaluated voids them all; otherwise each contributes the proposal it makes on
   its own.
   */
  lemma {:induction false} ProposalsPointwise(
    metrics: seq<MetricSpec>, observations: seq<Observation>, selector: Selector, current: int, tolerance: real)
    requires ValidMetrics(metrics) && |observations| == |metrics| && 0 < current
    requires forall i :: 0 <= i < |observations| ==> Listing(observations[i])
    ensures Proposals(metrics, observations, selector, current, tolerance).Ok?
      <==> AllPropose(metrics, observations, selector, current, tolerance)
    ensures var r := Proposals(metrics, observations, selector, current, tolerance);
      r.Ok? ==>
        && |r.value| == |metrics|
        && forall i :: 0 <= i < |metrics| ==> Propose(metrics[i], observations[i], current, tolerance) == Ok(r.value[i])
  {
    hide Propose, Proposals, Listing, ValidMetrics;
    if Proposals(metrics, observations, selector, current, tolerance).Ok? {
      ProposalsAreOwn(metrics, observations, selector, current, tolerance);
    }
    if AllPropose(metrics, observations, selector, current, tolerance) {
      AllProposeSuffices(metrics, observations, selector, current, tolerance);
    }
  }
}
