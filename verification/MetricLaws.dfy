/**
 Which calculation each metric type and target selects, told in what was observed: the size of
 the proposal, the name, value and timestamp reported with it, and every failure with the
 reason that goes into the condition.
 */
module MetricLaws {
  import opened Wrappers
  import opened Arithmetic
  import opened PodMetrics
  import opened ReplicaCalculators
  import opened ReplicaLaws
  import opened Conditions
  import opened Chpa
  import opened MetricFold

  /** What is reported beside the count. */
  predicate Tells(p: MetricProposal, source: SourceKind, name: string, percentage: Option<int>, value: int, at: Time) {
    p.name == MetricName(source, name) && p.status == MetricStatus(source, name, percentage, value) && p.timestamp == at
  }

  predicate Fails(r: Result<MetricProposal, MetricError>, source: SourceKind, error: CalcError, reason: Reason) {
    r == Err(CalculationFailed(source, error)) && FailureReason(CalculationFailed(source, error)) == reason
  }

  lemma {:induction false} ObjectProposes(m: MetricSpec, o: Observation, current: int, tolerance: real)
    requires m.typ == ObjectType && m.objectMetric.Some? && Listing(o) && 0 < current
    ensures var s, r := m.objectMetric.value, Propose(m, o, current, tolerance);
      match o.objectValue
      case None => Fails(r, ObjectSource, NoMetricsFetched, FailedGetObjectMetric)
      case Some(sample) =>
        && r.Ok? && Tells(r.value, ObjectSource, s.name, None, sample.value, sample.timestamp)
        && Sized(r.value.replicas, current, sample.value, current, s.target, tolerance, false)
  {
    if o.objectValue.Some? {
      ScaledSized(o.objectValue.value.value, m.objectMetric.value.target, current, tolerance);
    }
    hide ScaledReplicas, Sized, Listing;
  }

  /** Failures that external metrics have in common. */
  predicate ExternalFails(o: Observation, r: Result<MetricProposal, MetricError>) {
    && (!o.externalSelectorOk ==> Fails(r, ExternalSource, BadSelector, FailedGetExternalMetric))
    && (o.externalSelectorOk && o.externalValues.None? ==>
          Fails(r, ExternalSource, NoMetricsFetched, FailedGetExternalMetric))
  }

  /** A target for the total scales the current count by total over target. */
  lemma {:induction false} ExternalTotalProposes(m: MetricSpec, o: Observation, current: int, tolerance: real)
    requires m.typ == ExternalType && m.externalMetric.Some? && Listing(o) && 0 < current
    requires m.externalMetric.value.averageValue.None? && m.externalMetric.value.value.Some?
    ensures var s, r := m.externalMetric.value, Propose(m, o, current, tolerance);
      && ExternalFails(o, r)
      && (o.externalSelectorOk && o.externalValues.Some? ==>
            var total := SumSeq(o.externalValues.value.value);
            && r.Ok? && Tells(r.value, ExternalSource, s.name, None, total, o.externalValues.value.timestamp)
            && Sized(r.value.replicas, current, total, current, s.value.value, tolerance, false))
  {
    if o.externalValues.Some? {
      ScaledSized(SumSeq(o.externalValues.value.value), m.externalMetric.value.value.value, current, tolerance);
    }
    hide ScaledReplicas, Sized, Listing, SumSeq;
  }

  /** A target per pod asks for the least count that the total needs; it wins over a target for the total. */
  lemma {:induction false} ExternalPerPodProposes(m: MetricSpec, o: Observation, current: int, tolerance: real)
    requires m.typ == ExternalType && m.externalMetric.Some? && Listing(o) && 0 < current
    requires m.externalMetric.value.averageValue.Some?
    ensures var s, r := m.externalMetric.value, Propose(m, o, current, tolerance);
      && ExternalFails(o, r)
      && (o.externalSelectorOk && o.externalValues.Some? ==>
            var total, target := SumSeq(o.externalValues.value.value), s.averageValue.value;
            && r.Ok? && 0 < target * current
            && Tells(r.value, ExternalSource, s.name, None, r.value.status.value, o.externalValues.value.timestamp)
            && LeastFor(r.value.status.value, total, current)
            && (if Within(total, target * current, tolerance) then r.value.replicas == current
                else LeastFor(r.value.replicas, total, target)))
  {
    PositiveProduct(m.externalMetric.value.averageValue.value, current);
    if o.externalValues.Some? {
      var total := SumSeq(o.externalValues.value.value);
      PerPodSized(total, m.externalMetric.value.averageValue.value, current, tolerance);
      CeilLeast(total, current);
    }
    hide PerPodReplicas, Within, LeastFor, Listing, SumSeq, Ratio, Ceil;
  }

  /** Without either target the metric fails. */
  lemma {:induction false} NoTargetFails(m: MetricSpec, o: Observation, current: int, tolerance: real)
    requires m.PointerSet() && Listing(o) && 0 < current
    ensures m.typ == ExternalType && m.externalMetric.value.averageValue.None? && m.externalMetric.value.value.None? ==>
      Propose(m, o, current, tolerance) == Err(NoTarget(ExternalSource))
    ensures
      var none := m.typ == ResourceType && m.resourceMetric.value.averageValue.None?
        && m.resourceMetric.value.averageUtilization.None?;
      none ==> Propose(m, o, current, tolerance) == Err(NoTarget(ResourceSource))
    ensures FailureReason(NoTarget(ExternalSource)) == FailedGetExternalMetric
    ensures FailureReason(NoTarget(ResourceSource)) == FailedGetResourceMetric
  {
    hide Listing, FetchedPlain, FetchedResource, FetchedPerPod, FetchedExternal, FetchedObject;
  }

  // ---- metrics of pods ----

  /** The failures of a calculation over pods, and its answer otherwise. */
  ghost predicate PlainProposed(
    o: Observation, source: SourceKind, name: string, reason: Reason, current: int, target: Target, tolerance: real,
    r: Result<MetricProposal, MetricError>)
  {
    if o.podMetrics.None? then Fails(r, source, NoMetricsFetched, reason)
    else if o.pods.None? then Fails(r, source, NoPodsFetched, reason)
    else
      var pods, sample := PodSet(o.pods.value), o.podMetrics.value;
      var t := PlainTallyOf(pods, sample.value);
      if pods == {} then Fails(r, source, NoPods, reason)
      else if t.ready + t.extra == 0 then Fails(r, source, NoReadyMetrics, reason)
      else
        && r.Ok? && Tells(r.value, source, name, None, r.value.status.value, sample.timestamp)
        && PlainAnswer(t, current, target, tolerance,
            Proposal(r.value.replicas, r.value.status.value, sample.timestamp))
  }

  /** The same about the calculation itself. */
  ghost predicate PlainReports(
    t: PlainTally, none: bool, at: Time, current: int, target: Target, tolerance: real, r: Result<Proposal, CalcError>)
  {
    if none then r == Err(NoPods)
    else if t.ready + t.extra == 0 then r == Err(NoReadyMetrics)
    else r.Ok? && r.value.timestamp == at && PlainAnswer(t, current, target, tolerance, r.value)
  }

  lemma {:induction false} PlainOutcomeReports(
    pods: set<Pod>, metrics: Metrics, at: Time, current: int, target: Target, tolerance: real)
    ensures PlainReports(PlainTallyOf(pods, metrics), pods == {}, at, current, target, tolerance,
                         PlainOutcome(pods, metrics, at, current, target, tolerance))
  {
    hide PlainTallyOf, PlainOutcome, PlainAnswer;
    PlainFailsIff(pods, metrics, at, current, target, tolerance);
    if PlainOutcome(pods, metrics, at, current, target, tolerance).Ok? {
      PlainProposalIs(pods, metrics, at, current, target, tolerance);
    }
  }

  lemma {:induction false} PlainFetched(
    o: Observation, source: SourceKind, name: string, reason: Reason, current: int, target: Target, tolerance: real)
    requires Listing(o) && SourceReason(source) == reason
    ensures PlainProposed(o, source, name, reason, current, target, tolerance,
                          Named(source, name, FetchedPlain(o, current, target, tolerance)))
  {
    hide PlainTallyOf, PlainOutcome, PlainAnswer, PodSet, Listing;
    if o.podMetrics.Some? && o.pods.Some? {
      var sample := o.podMetrics.value;
      PlainOutcomeReports(PodSet(o.pods.value), sample.value, sample.timestamp, current, target, tolerance);
    }
  }

  lemma {:induction false} PodsProposes(m: MetricSpec, o: Observation, current: int, tolerance: real)
    requires m.typ == PodsType && m.podsMetric.Some? && Listing(o) && 0 < current
    ensures PlainProposed(o, PodsSource, m.podsMetric.value.name, FailedGetPodsMetric, current,
                          m.podsMetric.value.target, tolerance, Propose(m, o, current, tolerance))
  {
    var s := m.podsMetric.value;
    PlainFetched(o, PodsSource, s.name, FailedGetPodsMetric, current, s.target, tolerance);
    hide PlainProposed, FetchedPlain, Listing, Named;
  }

  /** A raw resource target wins over a utilization target. */
  lemma {:induction false} RawResourceProposes(m: MetricSpec, o: Observation, current: int, tolerance: real)
    requires m.typ == ResourceType && m.resourceMetric.Some? && Listing(o) && 0 < current
    requires m.resourceMetric.value.averageValue.Some?
    ensures PlainProposed(o, RawResourceSource, m.resourceMetric.value.name, FailedGetResourceMetric, current,
                          m.resourceMetric.value.averageValue.value, tolerance, Propose(m, o, current, tolerance))
  {
    var s := m.resourceMetric.value;
    PlainFetched(o, RawResourceSource, s.name, FailedGetResourceMetric, current, s.averageValue.value, tolerance);
    hide PlainProposed, FetchedPlain, Listing, Named;
  }

  ghost predicate ResourceProposed(
    o: Observation, name: string, current: int, target: Target, tolerance: real, r: Result<MetricProposal, MetricError>)
    requires Listing(o)
  {
    if o.podMetrics.None? then Fails(r, ResourceSource, NoMetricsFetched, FailedGetResourceMetric)
    else if o.pods.None? then Fails(r, ResourceSource, NoPodsFetched, FailedGetResourceMetric)
    else
      UniqueIsInjective(o.pods.value);
      var pods, sample := PodSet(o.pods.value), o.podMetrics.value;
      var t := ResourceTally(pods, sample.value);
      if pods == {} then Fails(r, ResourceSource, NoPods, FailedGetResourceMetric)
      else if LacksRequest(pods) then Fails(r, ResourceSource, MissingRequest, FailedGetResourceMetric)
      else if t.ready + t.extra == 0 then Fails(r, ResourceSource, NoReadyMetrics, FailedGetResourceMetric)
      else if t.ready == 0 || t.readyRequest == 0 then Fails(r, ResourceSource, NoMatchingPods, FailedGetResourceMetric)
      else
        && r.Ok? && r.value.status.percentage.Some?
        && Tells(r.value, ResourceSource, name, r.value.status.percentage, r.value.status.value, sample.timestamp)
        && ResourceAnswer(t, current, target, tolerance,
             ResourceProposal(r.value.replicas, r.value.status.percentage.value, r.value.status.value,
               sample.timestamp))
  }

  ghost predicate ResourceReports(
    t: Tally, none: bool, lacks: bool, at: Time, current: int, target: Target, tolerance: real,
    r: Result<ResourceProposal, CalcError>)
  {
    if none then r == Err(NoPods)
    else if lacks then r == Err(MissingRequest)
    else if t.ready + t.extra == 0 then r == Err(NoReadyMetrics)
    else if t.ready == 0 || t.readyRequest == 0 then r == Err(NoMatchingPods)
    else r.Ok? && r.value.timestamp == at && ResourceAnswer(t, current, target, tolerance, r.value)
  }

  lemma {:induction false} ResourceOutcomeReports(
    pods: set<Pod>, metrics: Metrics, at: Time, current: int, target: Target, tolerance: real)
    requires Injective(pods)
    ensures ResourceReports(
        ResourceTally(pods, metrics), pods == {}, LacksRequest(pods), at, current, target, tolerance,
        ResourceOutcome(pods, metrics, at, current, target, tolerance))
  {
    hide ResourceTally, ResourceOutcome, ResourceAnswer, LacksRequest, Injective;
    ResourceFailsIff(pods, metrics, at, current, target, tolerance);
    if ResourceOutcome(pods, metrics, at, current, target, tolerance).Ok? {
      ResourceProposalIs(pods, metrics, at, current, target, tolerance);
    }
  }

  lemma {:induction false} ResourceFetched(
    o: Observation, name: string, current: int, target: Target, tolerance: real)
    requires Listing(o)
    ensures ResourceProposed(o, name, current, target, tolerance,
                             NamedResource(name, FetchedResource(o, current, target, tolerance)))
  {
    hide ResourceTally, ResourceOutcome, ResourceAnswer, PodSet, LacksRequest, Injective;
    if o.podMetrics.Some? && o.pods.Some? {
      UniqueIsInjective(o.pods.value);
      var sample := o.podMetrics.value;
      ResourceOutcomeReports(PodSet(o.pods.value), sample.value, sample.timestamp, current, target, tolerance);
    }
    hide UniqueNames;
  }

  lemma {:induction false} UtilizationProposes(m: MetricSpec, o: Observation, current: int, tolerance: real)
    requires m.typ == ResourceType && m.resourceMetric.Some? && Listing(o) && 0 < current
    requires m.resourceMetric.value.averageValue.None? && m.resourceMetric.value.averageUtilization.Some?
    ensures ResourceProposed(o, m.resourceMetric.value.name, current, m.resourceMetric.value.averageUtilization.value,
                             tolerance, Propose(m, o, current, tolerance))
  {
    var s := m.resourceMetric.value;
    ResourceFetched(o, s.name, current, s.averageUtilization.value, tolerance);
    hide ResourceProposed, FetchedResource, Listing, NamedResource;
  }

  // ---- all metrics together ----

  /** A valid metric is never of an unknown type. */
  lemma {:induction false} ValidIsKnown(m: MetricSpec, o: Observation, current: int, tolerance: real)
    requires m.PointerSet() && Listing(o) && 0 < current
    ensures Propose(m, o, current, tolerance) != Err(UnknownSource) && !m.typ.OtherMetricType?
  {
    hide FetchedPlain, FetchedResource, FetchedPerPod, FetchedExternal, FetchedObject, Listing;
  }

  /** The error of the whole: that of the selector, or that of the first metric that fails. */
  lemma {:induction false} FirstError(
    metrics: seq<MetricSpec>, observations: seq<Observation>, selector: Selector, current: int, tolerance: real)
    requires ValidMetrics(metrics) && |observations| == |metrics| && 0 < current
    requires forall i :: 0 <= i < |observations| ==> Listing(observations[i])
    ensures var r := Proposals(metrics, observations, selector, current, tolerance);
      && (metrics != [] && selector.NoSelector? ==> r == Err(SelectorRequired))
      && (metrics != [] && selector.UnusableSelector? ==> r == Err(SelectorInvalid))
      && (r.Err? && selector.UsableSelector? ==>
            exists i :: 0 <= i < |metrics| && Propose(metrics[i], observations[i], current, tolerance) == Err(r.error)
              && forall j :: 0 <= j < i ==> Propose(metrics[j], observations[j], current, tolerance).Ok?)
    ensures FailureReason(SelectorRequired) == InvalidSelector == FailureReason(SelectorInvalid)
  {
    if metrics != [] {
      var n := |metrics| - 1;
      FewerMetrics(metrics, observations);
      hide Propose, Listing, ValidMetrics;
      FirstError(metrics[..n], observations[..n], selector, current, tolerance);
      var earlier := Proposals(metrics[..n], observations[..n], selector, current, tolerance);
      if selector.UsableSelector? && earlier.Ok? {
        ProposalsAreOwn(metrics[..n], observations[..n], selector, current, tolerance);
      }
    }
  }
}
