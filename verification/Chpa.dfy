/**
 The CHPA object: specification with its defaults and validity check, status with
 its deep copy, and the pure rules that turn a proposal into a bounded, windowed decision.
 */
module Chpa {
  import opened Wrappers
  import opened Arithmetic
  import opened PodMetrics
  import opened Conditions

  // ---- specification ----

  datatype MetricType = ObjectType | PodsType | ResourceType | ExternalType | OtherMetricType(name: string)

  datatype ObjectMetric = ObjectMetric(name: string, target: Target)
  datatype PodsMetric = PodsMetric(name: string, target: Target)
  datatype ResourceMetric = ResourceMetric(name: string, averageValue: Option<Target>,
    averageUtilization: Option<Target>)
  datatype ExternalMetric = ExternalMetric(name: string, averageValue: Option<Target>, value: Option<Target>)

  datatype MetricSpec = MetricSpec(
    typ: MetricType, objectMetric: Option<ObjectMetric>, podsMetric: Option<PodsMetric>,
    resourceMetric: Option<ResourceMetric>, externalMetric: Option<ExternalMetric>)
  {
    /** The pointer that the type announces is set. */
    predicate PointerSet() {
      match typ
      case ObjectType => objectMetric.Some?
      case PodsType => podsMetric.Some?
      case ResourceType => resourceMetric.Some?
      case ExternalType => externalMetric.Some?
      case OtherMetricType(_) => false
    }
  }

  /** Windows in seconds; a zero field means "not given". */
  datatype Spec = Spec(
    downscaleWindow: int, upscaleWindow: int, limitFactor: real, limitMinimum: int, tolerance: real,
    targetKind: string, targetName: string, metrics: seq<MetricSpec>, minReplicas: Option<int>, maxReplicas: int)

  const DEFAULT_DOWNSCALE_WINDOW := 300
  const DEFAULT_UPSCALE_WINDOW := 300
  const DEFAULT_LIMIT_FACTOR := 2.0
  const DEFAULT_LIMIT_MINIMUM := 4
  const DEFAULT_TOLERANCE := 0.1
  const SECOND: Time := 1_000_000_000

  function WithDefaults(spec: Spec): Spec {
    spec.(downscaleWindow := if spec.downscaleWindow == 0 then DEFAULT_DOWNSCALE_WINDOW else spec.downscaleWindow,
          upscaleWindow := if spec.upscaleWindow == 0 then DEFAULT_UPSCALE_WINDOW else spec.upscaleWindow,
          limitFactor := if spec.limitFactor == 0.0 then DEFAULT_LIMIT_FACTOR else spec.limitFactor,
          limitMinimum := if spec.limitMinimum == 0 then DEFAULT_LIMIT_MINIMUM else spec.limitMinimum,
          tolerance := if spec.tolerance == 0.0 then DEFAULT_TOLERANCE else spec.tolerance)
  }

  /** What the controller accepts: a Deployment as target, and no nil pointer behind a metric's type. */
  predicate ValidSpec(spec: Spec) {
    spec.targetKind == "Deployment" && ValidMetrics(spec.metrics)
  }

  predicate ValidMetrics(metrics: seq<MetricSpec>) {
    forall i :: 0 <= i < |metrics| ==> metrics[i].PointerSet()
  }

  /** Defaulting is idempotent and changes nothing the validity check looks at. */
  lemma {:induction false} DefaultsAreStable(spec: Spec)
    ensures WithDefaults(WithDefaults(spec)) == WithDefaults(spec)
    ensures ValidSpec(WithDefaults(spec)) <==> ValidSpec(spec)
  {
  }

  /** Field by field: what is given is kept, what is zero is filled in, and nothing else moves. */
  lemma {:induction false} DefaultsFillIn(spec: Spec)
    ensures var d := WithDefaults(spec);
      && d.downscaleWindow == (if spec.downscaleWindow != 0 then spec.downscaleWindow else 300)
      && d.upscaleWindow == (if spec.upscaleWindow != 0 then spec.upscaleWindow else 300)
      && d.limitFactor == (if spec.limitFactor != 0.0 then spec.limitFactor else 2.0)
      && d.limitMinimum == (if spec.limitMinimum != 0 then spec.limitMinimum else 4)
      && d.tolerance == (if spec.tolerance != 0.0 then spec.tolerance else 0.1)
      && d.targetKind == spec.targetKind && d.targetName == spec.targetName && d.metrics == spec.metrics
      && d.minReplicas == spec.minReplicas && d.maxReplicas == spec.maxReplicas
  {
  }

  /** The ranges of the CHPA type, where a field may also be left out. */
  predicate InRanges(spec: Spec) {
    && (spec.downscaleWindow == 0 || 1 <= spec.downscaleWindow <= 600)
    && (spec.upscaleWindow == 0 || 1 <= spec.upscaleWindow <= 600)
    && (spec.limitFactor == 0.0 || 1.0 <= spec.limitFactor <= 10.0)
    && (spec.limitMinimum == 0 || 1 <= spec.limitMinimum <= 20)
    && (spec.tolerance == 0.0 || 0.01 <= spec.tolerance <= 0.99)
    && (spec.minReplicas.None? || 1 <= spec.minReplicas.value <= 1000)
    && 1 <= spec.maxReplicas <= 1000
  }

  /** After defaulting every field is given and in its range. */
  lemma {:induction false} DefaultedInRanges(spec: Spec)
    requires InRanges(spec)
    ensures var d := WithDefaults(spec);
      && 1 <= d.downscaleWindow <= 600 && 1 <= d.upscaleWindow <= 600
      && 1.0 <= d.limitFactor <= 10.0 && 1 <= d.limitMinimum <= 20 && 0.01 <= d.tolerance <= 0.99
      && (d.minReplicas.None? || 1 <= d.minReplicas.value <= 1000) && 1 <= d.maxReplicas <= 1000
  {
  }

  /** Which metrics are accepted, type by type. */
  lemma {:induction false} AcceptedMetric(m: MetricSpec)
    ensures m.PointerSet() <==>
      || (m.typ == ObjectType && m.objectMetric.Some?)
      || (m.typ == PodsType && m.podsMetric.Some?)
      || (m.typ == ResourceType && m.resourceMetric.Some?)
      || (m.typ == ExternalType && m.externalMetric.Some?)
  {
  }

  datatype SpecError = UnsupportedKind | NilPointer(metric: nat) | IncorrectType(metric: nat)

  method CheckMetricsValidity(metrics: seq<MetricSpec>) returns (err: Option<SpecError>)
    ensures err.None? <==> ValidMetrics(metrics)
    ensures err.Some? && !err.value.UnsupportedKind? ==>
      err.value.metric < |metrics| && !metrics[err.value.metric].PointerSet()
        && ValidMetrics(metrics[..err.value.metric])
    ensures err.Some? ==> !err.value.UnsupportedKind?
  {
    for i := 0 to |metrics|
      invariant ValidMetrics(metrics[..i])
    {
      match metrics[i].typ {
        case ObjectType => if metrics[i].objectMetric.None? { return Some(NilPointer(i)); }
        case PodsType => if metrics[i].podsMetric.None? { return Some(NilPointer(i)); }
        case ResourceType => if metrics[i].resourceMetric.None? { return Some(NilPointer(i)); }
        case ExternalType => if metrics[i].externalMetric.None? { return Some(NilPointer(i)); }
        case OtherMetricType(_) => return Some(IncorrectType(i));
      }
      assert metrics[..i + 1] == metrics[..i] + [metrics[i]];
    }
    assert metrics[..|metrics|] == metrics;
    err := None;
  }

  method CheckValidity(spec: Spec) returns (err: Option<SpecError>)
    ensures err.None? <==> ValidSpec(spec)
    ensures err == Some(UnsupportedKind) <==> spec.targetKind != "Deployment"
  {
    if spec.targetKind != "Deployment" {
      return Some(UnsupportedKind);
    }
    err := CheckMetricsValidity(spec.metrics);
  }

  // ---- limits ----

  /** `int32(x)`: rounds toward zero. */
  function Truncate(x: real): int {
    if x < 0.0 then -((-x).Floor) else x.Floor
  }

  function ScaleUpLimitFor(spec: Spec, current: int): int {
    Truncate(MaxReal(spec.limitFactor * current as real, spec.limitMinimum as real))
  }

  datatype Normalized = Normalized(replicas: int, reason: Reason, text: LimitText)

  /** The lower bound's own texts are always overwritten by the upper bound's before they are returned. */
  function ConvertDesiredReplicas(
    spec: Spec, current: int, desired: int, minReplicas: int, maxReplicas: int): Normalized {
    var minimumAllowed := if minReplicas == 0 then 1 else minReplicas;
    var limit := ScaleUpLimitFor(spec, current);
    var (maximumAllowed, reason, text) :=
      if maxReplicas > limit then (limit, ScaleUpLimit, IncreasingTooFast)
      else (maxReplicas, TooManyReplicas, AboveMaximum);
    if desired < minimumAllowed then Normalized(minimumAllowed, TooFewReplicas, text)
    else if desired > maximumAllowed then Normalized(maximumAllowed, reason, text)
    else Normalized(desired, DesiredWithinRange, WithinRange)
  }

  function Normalize(spec: Spec, current: int, desired: int): Normalized {
    ConvertDesiredReplicas(spec, current, desired, spec.minReplicas.GetOr(0), spec.maxReplicas)
  }

  /** The lower end of the allowed interval. */
  function Floor(spec: Spec): int {
    var m := spec.minReplicas.GetOr(0);
    if m == 0 then 1 else m
  }

  /** The upper end of the allowed interval. */
  function Ceiling(spec: Spec, current: int): int {
    Min(spec.maxReplicas, ScaleUpLimitFor(spec, current))
  }

  // ---- windows ----

  /** `last.Add(window).Before(t)`. */
  predicate Elapsed(last: Time, window: int, t: Time) {
    last + window * SECOND < t
  }

  predicate ShouldScale(spec: Spec, last: Option<Time>, current: int, desired: int, timestamp: Time) {
    desired != current &&
    match last
    case None => true
    case Some(l) =>
      || (desired < current && Elapsed(l, spec.downscaleWindow, timestamp))
      || (desired > current && Elapsed(l, spec.upscaleWindow, timestamp))
  }

  // ---- the clamp is a projection ----

  /** The state in which the metrics branch is entered. */
  predicate InMetricsBranch(spec: Spec, current: int) {
    && 0 <= spec.minReplicas.GetOr(0)
    && spec.minReplicas.GetOr(0) <= current <= spec.maxReplicas
    && current != 0
  }

  lemma {:induction false} LimitAtLeastCurrent(spec: Spec, current: int)
    requires 1.0 <= spec.limitFactor && 0 <= current
    ensures current <= ScaleUpLimitFor(spec, current)
    ensures ScaleUpLimitFor(spec, current) as real
      <= MaxReal(spec.limitFactor * current as real, spec.limitMinimum as real)
  {
    var grown := spec.limitFactor * current as real;
    ProductNonNegative(spec.limitFactor - 1.0, current as real);
    assert grown >= current as real;
  }

  /** The limit is `max(factor * current, minimum)`, rounded toward zero. */
  lemma {:induction false} LimitIsTruncated(spec: Spec, current: int)
    ensures var limit := ScaleUpLimitFor(spec, current) as real;
      var grown := spec.limitFactor * current as real;
      var x := if grown < spec.limitMinimum as real then spec.limitMinimum as real else grown;
      && (0.0 <= x ==> limit <= x < limit + 1.0)
      && (x < 0.0 ==> limit - 1.0 < x <= limit)
  {
    var x := MaxReal(spec.limitFactor * current as real, spec.limitMinimum as real);
    assert ScaleUpLimitFor(spec, current) == Truncate(x);
  }

  /** The allowed interval is nonempty and holds the current count, and normalization projects onto it. */
  lemma {:induction false} ClampIsProjection(spec: Spec, current: int, desired: int)
    requires InMetricsBranch(spec, current) && 1.0 <= spec.limitFactor
    ensures var lo, hi, r := Floor(spec), Ceiling(spec, current), Normalize(spec, current, desired).replicas;
      && 1 <= lo <= current <= hi <= spec.maxReplicas
      && lo <= r <= hi
      && (lo <= desired <= hi ==> r == desired)
      && (desired < lo ==> r == lo) && (desired > hi ==> r == hi)
      && Normalize(spec, current, r).replicas == r
      && (desired >= current ==> current <= r <= desired)
      && (desired <= current ==> r <= current && (desired <= r))
  {
    LimitAtLeastCurrent(spec, current);
    hide ScaleUpLimitFor;
  }

  /** The reason names the end of the interval that was hit; at the lower end the text is about the upper one. */
  lemma {:induction false} ClampIsExplained(spec: Spec, current: int, desired: int)
    requires InMetricsBranch(spec, current) && 1.0 <= spec.limitFactor
    ensures var (lo, limit, n) := (Floor(spec), ScaleUpLimitFor(spec, current), Normalize(spec, current, desired));
      && (n.reason == DesiredWithinRange <==> n.replicas == desired)
      && (n.reason == TooFewReplicas <==> desired < lo)
      && (n.reason == ScaleUpLimit <==> limit < spec.maxReplicas && limit < desired)
      && (n.reason == TooManyReplicas <==> spec.maxReplicas <= limit && spec.maxReplicas < desired)
      && (n.text == WithinRange <==> n.reason == DesiredWithinRange)
      && (n.reason == TooFewReplicas ==> n.text == if limit < spec.maxReplicas then IncreasingTooFast else AboveMaximum)
  {
    LimitAtLeastCurrent(spec, current);
    hide ScaleUpLimitFor;
  }

  lemma {:induction false} ClampIsMonotone(spec: Spec, current: int, desired: int, desired': int)
    requires InMetricsBranch(spec, current) && 1.0 <= spec.limitFactor && desired <= desired'
    ensures Normalize(spec, current, desired).replicas <= Normalize(spec, current, desired').replicas
  {
    ClampIsProjection(spec, current, desired);
    ClampIsProjection(spec, current, desired');
    hide Normalize, Ceiling;
  }

  // ---- status ----

  datatype MetricStatus = MetricStatus(source: SourceKind, name: string, percentage: Option<int>, value: int)

  datatype StatusValue = StatusValue(
    observedGeneration: Option<int>, lastScaleTime: Option<Time>, currentReplicas: int, desiredReplicas: int,
    currentMetrics: seq<MetricStatus>, conditions: seq<Condition>)

  /** The status struct in memory; its condition list is a slice over a backing array. */
  class Status {
    var observedGeneration: Option<int>
    var lastScaleTime: Option<Time>
    var currentReplicas: int
    var desiredReplicas: int
    var currentMetrics: seq<MetricStatus>
    var conditions: Slice

    predicate Valid()
      reads this
    {
      conditions.Ok()
    }

    function Value(): StatusValue
      requires Valid()
      reads this, conditions.data
    {
      StatusValue(observedGeneration, lastScaleTime, currentReplicas, desiredReplicas, currentMetrics,
        conditions.Contents())
    }

    /** Decoding a stored status. */
    constructor (v: StatusValue)
      ensures Valid() && Value() == v && fresh(conditions.data)
    {
      observedGeneration, lastScaleTime := v.observedGeneration, v.lastScaleTime;
      currentReplicas, desiredReplicas := v.currentReplicas, v.desiredReplicas;
      currentMetrics := v.currentMetrics;
      var data := new Condition[|v.conditions|](i requires 0 <= i < |v.conditions| => v.conditions[i]);
      conditions := Slice(data, |v.conditions|);
      assert data[..|v.conditions|] == v.conditions;
    }

    /** Overwrites `out`, then replaces its condition slice by a freshly allocated copy. */
    method DeepCopyInto(out: Status)
      requires Valid() && out != this
      modifies out
      ensures out.Valid() && out.Value() == Value() && fresh(out.conditions.data)
    {
      out.observedGeneration, out.lastScaleTime := observedGeneration, lastScaleTime;
      out.currentReplicas, out.desiredReplicas := currentReplicas, desiredReplicas;
      out.currentMetrics := currentMetrics;
      var data := new Condition[conditions.len](i => Appended(AbleToScale));
      for i := 0 to conditions.len
        invariant data[..i] == conditions.data[..i] == old(conditions.data[..i])
        invariant out.observedGeneration == observedGeneration && out.lastScaleTime == lastScaleTime
        invariant out.currentReplicas == currentReplicas && out.desiredReplicas == desiredReplicas
          && out.currentMetrics == currentMetrics
      {
        data[i] := conditions.data[i];
      }
      out.conditions := Slice(data, conditions.len);
      assert out.conditions.Contents() == conditions.Contents();
    }

    method DeepCopy() returns (out: Status)
      requires Valid()
      ensures fresh(out) && out.Valid() && out.Value() == Value() && fresh(out.conditions.data)
    {
      out := new Status(StatusValue(None, None, 0, 0, [], []));
      DeepCopyInto(out);
    }

    method SetCondition(typ: ConditionType, status: ConditionStatus, reason: Reason, message: Message, now: Time)
      requires Valid()
      modifies this`conditions, conditions.data
      ensures Valid() && (conditions.data == old(conditions.data) || fresh(conditions.data))
      ensures Value()
        == old(Value()).(conditions := ApplyUpdate(old(Value()).conditions, Update(typ, status, reason, message, now)))
    {
      conditions := SetConditionInList(conditions, typ, status, reason, message, now);
    }

    /** Rebuilds the struct: the observed generation is dropped, the condition slice is shared. */
    method SetStatus(newCurrent: int, newDesired: int, metrics: seq<MetricStatus>, rescale: bool, now: Time)
      requires Valid()
      modifies this
      ensures Valid() && conditions == old(conditions)
      ensures Value()
        == WithCounts(old(Value()), newCurrent, newDesired, metrics, if rescale then Some(now) else old(lastScaleTime))
      ensures observedGeneration == None && currentReplicas == newCurrent && desiredReplicas == newDesired
      ensures currentMetrics == metrics && lastScaleTime == if rescale then Some(now) else old(lastScaleTime)
    {
      observedGeneration := None;
      currentReplicas, desiredReplicas, currentMetrics := newCurrent, newDesired, metrics;
      if rescale {
        lastScaleTime := Some(now);
      }
    }
  }

  function WithCounts(
    v: StatusValue, current: int, desired: int, metrics: seq<MetricStatus>, last: Option<Time>): StatusValue {
    StatusValue(None, last, current, desired, metrics, v.conditions)
  }
}
