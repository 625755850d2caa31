/**
 The replica calculator: one pass over the pods, a usage ratio, a conservative
 refill of the metric map, a second ratio, and a rounded-up count. Each method is
 proved against a specification over sets of pods, in which no order is left.
 */
module ReplicaCalculators {
  import opened Wrappers
  import opened Arithmetic
  import opened PodMetrics

  datatype CalcError =
    | NoMetricsFetched   // the metrics client failed
    | NoPodsFetched      // the pod lister failed
    | NoPods             // the selector matched nothing
    | MissingRequest     // some container of a listed pod requests nothing
    | NoReadyMetrics     // no metric entry is left after the pod loop
    | NoMatchingPods     // the requests of the counted pods total zero
    | BadSelector        // the external metric's label selector is invalid

  /** A value of the metrics client together with its timestamp. */
  datatype Sample<+T> = Sample(value: T, timestamp: Time)

  datatype Proposal = Proposal(replicas: int, utilization: int, timestamp: Time)
  datatype ResourceProposal = ResourceProposal(replicas: int, percentage: int, raw: int, timestamp: Time)

  // ---- specification: everything the calculator needs to know about the pods ----

  /** Head counts, usage and requests per class; `extra` counts metric entries of pods that are not listed. */
  datatype Tally = Tally(
    ready: nat, missing: nat, unready: nat, extra: nat,
    usage: int, readyRequest: nat, missingRequest: nat, unreadyRequest: nat)

  ghost function ResourceTally(pods: set<Pod>, metrics: Metrics): Tally
    requires Injective(pods)
  {
    var requests := RequestsOf(pods);
    var (r, m, u) := (ReadyNames(pods, metrics), MissingNames(pods, metrics), UnreadyNames(pods));
    ClassesCover(pods, metrics);
    SumNonNegative(requests, r);
    SumNonNegative(requests, m);
    SumNonNegative(requests, u);
    Tally(|r|, |m|, |u|, |metrics.Keys - Names(pods)|,
          SumOf(metrics, r), SumOf(requests, r), SumOf(requests, m), SumOf(requests, u))
  }

  /** Total usage and total request over a number of counted entries. */
  datatype Load = Load(usage: int, request: int, count: nat)

  /** Missing pods are charged their full request below target, nothing above; unready pods join above target. */
  function ResourceRefill(t: Tally, ratio: real): (load: Load)
    ensures t.readyRequest <= load.request
  {
    var counted := t.ready + t.extra;
    if ratio < 1.0 then
      Load(t.usage + t.missingRequest, t.readyRequest + t.missingRequest, counted + t.missing)
    else if ratio > 1.0 then
      Load(t.usage, t.readyRequest + t.missingRequest + t.unreadyRequest, counted + t.missing + t.unready)
    else
      Load(t.usage, t.readyRequest, counted)
  }

  function Percent(usage: int, request: nat): int
    requires 0 < request
  {
    TruncDiv(usage * 100, request)
  }

  /** The count kept when the change is too small or the refill reversed the direction, else the rounded-up product. */
  function AfterRefill(ratio: real, newRatio: real, count: nat, current: int, tolerance: real): int {
    if Abs(1.0 - newRatio) <= tolerance || (ratio < 1.0 && newRatio > 1.0) || (ratio > 1.0 && newRatio < 1.0)
    then current
    else RoundUp(newRatio, count)
  }

  function ResourceDecision(t: Tally, ratio: real, current: int, target: Target, tolerance: real): int
    requires 0 < t.readyRequest
  {
    if (t.unready == 0 || ratio <= 1.0) && t.missing == 0 then
      if Abs(1.0 - ratio) <= tolerance then current else RoundUp(ratio, t.ready)
    else
      var load := ResourceRefill(t, ratio);
      AfterRefill(ratio, Ratio(Percent(load.usage, load.request), target), load.count, current, tolerance)
  }

  function ResourceReplicas(t: Tally, current: int, target: Target, tolerance: real): int
    requires 0 < t.readyRequest
  {
    ResourceDecision(t, Ratio(Percent(t.usage, t.readyRequest), target), current, target, tolerance)
  }

  /** What the calculation proposes once the pods are tallied. */
  function TallyOutcome(
    t: Tally, current: int, target: Target, tolerance: real, timestamp: Time): Result<ResourceProposal, CalcError> {
    if t.ready + t.extra == 0 then Err(NoReadyMetrics)
    else if t.ready == 0 || t.readyRequest == 0 then Err(NoMatchingPods)
    else Ok(ResourceProposal(ResourceReplicas(t, current, target, tolerance),
                             Percent(t.usage, t.readyRequest), TruncDiv(t.usage, t.ready), timestamp))
  }

  ghost predicate NoneListed(pods: set<Pod>) {
    pods == {}
  }

  ghost predicate SomeRequestMissing(pods: set<Pod>) {
    exists p :: p in pods && !p.HasAllRequests()
  }

  ghost function ResourceOutcome(
    pods: set<Pod>, metrics: Metrics, timestamp: Time, current: int, target: Target, tolerance: real)
    : Result<ResourceProposal, CalcError>
    requires Injective(pods)
  {
    if NoneListed(pods) then Err(NoPods)
    else if SomeRequestMissing(pods) then Err(MissingRequest)
    else TallyOutcome(ResourceTally(pods, metrics), current, target, tolerance, timestamp)
  }

  datatype PlainTally = PlainTally(ready: nat, missing: nat, unready: nat, extra: nat, usage: int)

  ghost function PlainTallyOf(pods: set<Pod>, metrics: Metrics): PlainTally {
    var kept := metrics - NotReadyNames(pods);
    PlainTally(|ReadyNames(pods, metrics)|, |MissingNames(pods, metrics)|, |NotReadyNames(pods)|,
               |metrics.Keys - Names(pods)|, SumOf(kept, kept.Keys))
  }

  datatype PlainLoad = PlainLoad(usage: int, count: nat)

  /** Missing pods are charged the target below target, nothing otherwise; unready pods join above target. */
  function PlainRefill(t: PlainTally, ratio: real, target: Target): (load: PlainLoad)
    ensures t.ready + t.extra <= load.count
  {
    var counted := t.ready + t.extra + t.missing;
    if ratio < 1.0 then PlainLoad(t.usage + target * t.missing, counted)
    else if ratio > 1.0 then PlainLoad(t.usage, counted + t.unready)
    else PlainLoad(t.usage, counted)
  }

  function PlainDecision(t: PlainTally, ratio: real, current: int, target: Target, tolerance: real): int
    requires 0 < t.ready + t.extra
  {
    if (t.unready == 0 || ratio <= 1.0) && t.missing == 0 then
      if Abs(1.0 - ratio) <= tolerance then current else RoundUp(ratio, t.ready)
    else
      var load := PlainRefill(t, ratio, target);
      AfterRefill(ratio, Ratio(TruncDiv(load.usage, load.count), target), load.count, current, tolerance)
  }

  function PlainReplicas(t: PlainTally, current: int, target: Target, tolerance: real): int
    requires 0 < t.ready + t.extra
  {
    PlainDecision(t, Ratio(TruncDiv(t.usage, t.ready + t.extra), target), current, target, tolerance)
  }

  function PlainTallyOutcome(
    t: PlainTally, current: int, target: Target, tolerance: real, timestamp: Time): Result<Proposal, CalcError> {
    if t.ready + t.extra == 0 then Err(NoReadyMetrics)
    else Ok(Proposal(PlainReplicas(t, current, target, tolerance), TruncDiv(t.usage, t.ready + t.extra), timestamp))
  }

  ghost function PlainOutcome(
    pods: set<Pod>, metrics: Metrics, timestamp: Time, current: int, target: Target, tolerance: real)
    : Result<Proposal, CalcError>
  {
    if NoneListed(pods) then Err(NoPods)
    else PlainTallyOutcome(PlainTallyOf(pods, metrics), current, target, tolerance, timestamp)
  }

  /** Object and external metrics: scale the current count by the usage ratio. */
  function ScaledReplicas(usage: int, target: Target, current: int, tolerance: real): int {
    var ratio := Ratio(usage, target);
    if Abs(1.0 - ratio) <= tolerance then current else RoundUp(ratio, current)
  }

  lemma {:induction false} PositiveProduct(a: int, b: int)
    requires 0 < a && 0 < b
    ensures 0 < a * b
  {
  }

  /**
   External metrics with a per-pod target: as many pods as the total needs. At zero pods the float
   ratio is infinite, and so outside every tolerance, or undefined, and so outside none.
   */
  function PerPodReplicas(usage: int, target: Target, current: int, tolerance: real): int
    requires 0 <= current
  {
    if current == 0 then
      if usage == 0 then 0 else Ceil(Ratio(usage, target))
    else
      PositiveProduct(target, current);
      if Abs(1.0 - Ratio(usage, target * current)) > tolerance then Ceil(Ratio(usage, target)) else current
  }

  function SumSeq(values: seq<int>): int {
    if values == [] then 0 else SumSeq(values[..|values| - 1]) + values[|values| - 1]
  }

  // ---- the pod loops ----

  lemma {:induction false} PrefixSet(pods: seq<Pod>, i: nat)
    requires UniqueNames(pods) && i < |pods|
    ensures PodSet(pods[..i + 1]) == PodSet(pods[..i]) + {pods[i]}
    ensures pods[i].name !in Names(PodSet(pods[..i]))
    ensures Injective(PodSet(pods[..i]))
    ensures Injective(PodSet(pods[..i + 1]))
  {
    assert pods[..i + 1] == pods[..i] + [pods[i]];
    var prefix := pods[..i + 1];
    forall p, q | p in PodSet(prefix) && q in PodSet(prefix) && p.name == q.name
      ensures p == q
    {
      var j :| 0 <= j <= i && prefix[j] == p;
      var k :| 0 <= k <= i && prefix[k] == q;
      assert pods[j].name == pods[k].name;
    }
  }

  lemma {:induction false} UniqueIsInjective(pods: seq<Pod>)
    requires UniqueNames(pods)
    ensures Injective(PodSet(pods))
  {
    if |pods| > 0 {
      PrefixSet(pods, |pods| - 1);
      assert pods[..|pods| - 1 + 1] == pods;
    }
  }

  /** What a pod loop leaves behind: the shrunk metric map and the grown maps and sets. */
  datatype Classes = Classes(metrics: Metrics, requests: Metrics, readyCount: nat, unready: set<string>,
    missing: set<string>)

  /** The resource loop over `pods`, in any order: failed pods are dropped, the other classes are set comprehensions. */
  ghost function ResourceClasses(pods: set<Pod>, fetched: Metrics): Classes
    requires Injective(pods)
  {
    Classes(fetched - NotReadyNames(pods), RequestsOf(pods), |ReadyNames(pods, fetched)|,
            UnreadyNames(pods), MissingNames(pods, fetched))
  }

  /** The plain loop: failed pods count as unready, and requests play no part. */
  ghost function PlainClasses(pods: set<Pod>, fetched: Metrics): Classes {
    Classes(fetched - NotReadyNames(pods), map[], |ReadyNames(pods, fetched)|,
            NotReadyNames(pods), MissingNames(pods, fetched))
  }

  lemma {:induction false} OneMoreReady(done: set<Pod>, pod: Pod, metrics: Metrics)
    requires pod.name !in Names(done)
    ensures pod.name !in NotReadyNames(done) && pod.name !in ReadyNames(done, metrics)
    ensures pod.IsReady() && pod.name in metrics ==>
      ReadyNames(done + {pod}, metrics) == ReadyNames(done, metrics) + {pod.name}
    ensures !(pod.IsReady() && pod.name in metrics) ==> ReadyNames(done + {pod}, metrics) == ReadyNames(done, metrics)
    ensures pod.IsReady() && pod.name !in metrics ==>
      MissingNames(done + {pod}, metrics) == MissingNames(done, metrics) + {pod.name}
    ensures !(pod.IsReady() && pod.name !in metrics) ==>
      MissingNames(done + {pod}, metrics) == MissingNames(done, metrics)
  {
  }

  lemma {:induction false} OneMoreUnready(done: set<Pod>, pod: Pod, metrics: Metrics)
    ensures !pod.IsReady() ==> NotReadyNames(done + {pod}) == NotReadyNames(done) + {pod.name}
    ensures !pod.IsReady() ==> metrics - NotReadyNames(done + {pod}) == metrics - NotReadyNames(done) - {pod.name}
    ensures pod.IsReady() ==> NotReadyNames(done + {pod}) == NotReadyNames(done)
    ensures !pod.IsReady() && pod.phase != Failed ==> UnreadyNames(done + {pod}) == UnreadyNames(done) + {pod.name}
    ensures pod.IsReady() || pod.phase == Failed ==> UnreadyNames(done + {pod}) == UnreadyNames(done)
  {
    if !pod.IsReady() {
      assert NotReadyNames(done + {pod}) == NotReadyNames(done) + {pod.name};
    }
  }

  lemma {:induction false} OneMoreRequest(done: set<Pod>, pod: Pod)
    requires pod.name !in Names(done) && Injective(done) && Injective(done + {pod})
    ensures RequestsOf(done + {pod}) == RequestsOf(done)[pod.name := pod.Request()]
  {
    assert Names(done + {pod}) == Names(done) + {pod.name};
  }

  /** One iteration of the resource loop on what earlier iterations left. */
  function AddPod(c: Classes, pod: Pod): Classes {
    var requests := c.requests[pod.name := pod.Request()];
    if !pod.IsReady() then
      Classes(c.metrics - {pod.name}, requests, c.readyCount,
              if pod.phase != Failed then c.unready + {pod.name} else c.unready, c.missing)
    else if pod.name !in c.metrics then
      Classes(c.metrics, requests, c.readyCount, c.unready, c.missing + {pod.name})
    else
      Classes(c.metrics, requests, c.readyCount + 1, c.unready, c.missing)
  }

  lemma {:induction false} OneMorePod(done: set<Pod>, pod: Pod, fetched: Metrics)
    requires pod.name !in Names(done) && Injective(done) && Injective(done + {pod})
    ensures ResourceClasses(done + {pod}, fetched) == AddPod(ResourceClasses(done, fetched), pod)
  {
    hide Names, ReadyNames, MissingNames, UnreadyNames, NotReadyNames, RequestsOf, Injective;
    OneMoreReady(done, pod, fetched);
    OneMoreUnready(done, pod, fetched);
    OneMoreRequest(done, pod);
    var kept := fetched - NotReadyNames(done);
    assert pod.name !in NotReadyNames(done) && (pod.name in kept <==> pod.name in fetched);
    if pod.IsReady() && pod.name in fetched {
      assert |ReadyNames(done, fetched) + {pod.name}| == |ReadyNames(done, fetched)| + 1;
    }
  }

  /** Adds up the container requests of one pod, stopping at the first container without one. */
  method PodRequest(pod: Pod) returns (r: Option<nat>)
    ensures r == if pod.HasAllRequests() then Some(pod.Request()) else None
  {
    var podSum: nat := 0;
    for c := 0 to |pod.requests|
      invariant forall j :: 0 <= j < c ==> pod.requests[j].Some?
      invariant podSum == SumRequests(pod.requests[..c])
    {
      assert pod.requests[..c + 1][..c] == pod.requests[..c];
      if pod.requests[c].None? {
        return None;
      }
      podSum := podSum + pod.requests[c].value;
    }
    assert pod.requests[..|pod.requests|] == pod.requests;
    r := Some(podSum);
  }

  /** The resource pod loop: what it deletes, inserts and counts are the classes of the listed pods. */
  method ClassifyForResource(listed: seq<Pod>, fetched: Metrics) returns (r: Result<Classes, CalcError>)
    requires UniqueNames(listed)
    ensures Injective(PodSet(listed))
    ensures r.Err? <==> SomeRequestMissing(PodSet(listed))
    ensures r.Err? ==> r.error == MissingRequest
    ensures r.Ok? ==> r.value == ResourceClasses(PodSet(listed), fetched)
  {
    UniqueIsInjective(listed);
    var metrics := fetched;
    var requests: Metrics := map[];
    var readyPodCount := 0;
    var unreadyPods: set<string> := {};
    var missingPods: set<string> := {};
    ghost var done: set<Pod> := {};
    ghost var c := ResourceClasses(done, fetched);
    for i := 0 to |listed|
      invariant done == PodSet(listed[..i]) && Injective(done)
      invariant forall p :: p in done ==> p.HasAllRequests()
      invariant c == ResourceClasses(done, fetched)
      invariant c == Classes(metrics, requests, readyPodCount, unreadyPods, missingPods)
    {
      var pod := listed[i];
      PrefixSet(listed, i);
      OneMorePod(done, pod, fetched);
      done, c := done + {pod}, AddPod(c, pod);
      var podSum := PodRequest(pod);
      if podSum.None? {
        assert pod in PodSet(listed);
        return Err(MissingRequest);
      }
      requests := requests[pod.name := podSum.value];
      if !pod.IsReady() {
        if pod.phase != Failed {
          unreadyPods := unreadyPods + {pod.name};
        }
        metrics := metrics - {pod.name};
        continue;
      }
      if pod.name !in metrics {
        missingPods := missingPods + {pod.name};
        continue;
      }
      readyPodCount := readyPodCount + 1;
    }
    assert listed[..|listed|] == listed;
    r := Ok(Classes(metrics, requests, readyPodCount, unreadyPods, missingPods));
  }

  method ClassifyForPlain(listed: seq<Pod>, fetched: Metrics) returns (r: Classes)
    requires UniqueNames(listed)
    ensures Injective(PodSet(listed))
    ensures r == PlainClasses(PodSet(listed), fetched)
  {
    UniqueIsInjective(listed);
    var metrics := fetched;
    var readyPodCount := 0;
    var unreadyPods: set<string> := {};
    var missingPods: set<string> := {};
    ghost var done: set<Pod> := {};
    for i := 0 to |listed|
      invariant done == PodSet(listed[..i])
      invariant Classes(metrics, map[], readyPodCount, unreadyPods, missingPods) == PlainClasses(done, fetched)
    {
      var pod := listed[i];
      PrefixSet(listed, i);
      OneMoreReady(done, pod, fetched);
      OneMoreUnready(done, pod, fetched);
      done := done + {pod};
      if !pod.IsReady() {
        unreadyPods := unreadyPods + {pod.name};
        metrics := metrics - {pod.name};
        continue;
      }
      if pod.name !in metrics {
        missingPods := missingPods + {pod.name};
        continue;
      }
      readyPodCount := readyPodCount + 1;
    }
    assert listed[..|listed|] == listed;
    r := Classes(metrics, map[], readyPodCount, unreadyPods, missingPods);
  }

  // ---- the utilization ratios of the metrics library, over any iteration order ----

  /** The entries of `metrics` that some request matches. */
  ghost function Matched(metrics: Metrics, requests: Metrics): (keys: set<string>)
    ensures keys <= metrics.Keys && keys <= requests.Keys
  {
    set k | k in metrics && k in requests
  }

  method GetResourceUtilizationRatio(metrics: Metrics, requests: Metrics, target: Target)
    returns (r: Result<(real, int, int), CalcError>)
    requires forall k :: k in requests ==> 0 <= requests[k]
    ensures var keys := Matched(metrics, requests);
      r == if SumOf(requests, keys) <= 0 then Err(NoMatchingPods)
           else if keys == {} then Err(NoMatchingPods)
           else Ok((Ratio(Percent(SumOf(metrics, keys), SumOf(requests, keys)), target),
                    Percent(SumOf(metrics, keys), SumOf(requests, keys)),
                    TruncDiv(SumOf(metrics, keys), |keys|)))
  {
    var metricsTotal, requestsTotal, numEntries := 0, 0, 0;
    ghost var all := Matched(metrics, requests);
    SumNonNegative(requests, all);
    var rest := metrics.Keys;
    ghost var todo := all;
    while rest != {}
      invariant rest <= metrics.Keys
      invariant todo == set k | k in rest && k in requests
      invariant metricsTotal + SumOf(metrics, todo) == SumOf(metrics, all)
      invariant requestsTotal + SumOf(requests, todo) == SumOf(requests, all)
      invariant numEntries + |todo| == |all|
    {
      var podName :| podName in rest;
      rest := rest - {podName};
      if podName !in requests {
        continue;
      }
      SumPick(metrics, todo, podName);
      SumPick(requests, todo, podName);
      todo := todo - {podName};
      metricsTotal := metricsTotal + metrics[podName];
      requestsTotal := requestsTotal + requests[podName];
      numEntries := numEntries + 1;
    }
    if requestsTotal == 0 {
      return Err(NoMatchingPods);
    }
    var currentUtilization := TruncDiv(metricsTotal * 100, requestsTotal);
    r := Ok((Ratio(currentUtilization, target), currentUtilization, TruncDiv(metricsTotal, numEntries)));
  }

  method GetMetricUtilizationRatio(metrics: Metrics, target: Target) returns (ratio: real, utilization: int)
    requires metrics != map[]
    ensures utilization == TruncDiv(SumOf(metrics, metrics.Keys), |metrics|)
    ensures ratio == Ratio(utilization, target)
  {
    var metricsTotal := 0;
    var rest := metrics.Keys;
    while rest != {}
      invariant rest <= metrics.Keys
      invariant metricsTotal + SumOf(metrics, rest) == SumOf(metrics, metrics.Keys)
    {
      var podName :| podName in rest;
      SumPick(metrics, rest, podName);
      metricsTotal := metricsTotal + metrics[podName];
      rest := rest - {podName};
    }
    utilization := TruncDiv(metricsTotal, |metrics|);
    ratio := Ratio(utilization, target);
  }

  // ---- the refill loops ----

  ghost function Filled(names: set<string>, value: int): Metrics {
    map k | k in names :: value
  }

  ghost function FilledFrom(names: set<string>, requests: Metrics): Metrics
    requires names <= requests.Keys
  {
    map k | k in names :: requests[k]
  }

  /** The entries of `metrics`, overwritten and extended by those of `added`. */
  ghost function Merge(metrics: Metrics, added: Metrics): Metrics {
    metrics + added
  }

  method FillWith(metrics: Metrics, names: set<string>, value: int) returns (filled: Metrics)
    ensures filled == Merge(metrics, Filled(names, value))
  {
    filled := metrics;
    var rest := names;
    while rest != {}
      invariant rest <= names
      invariant filled == metrics + (map k | k in names - rest :: value)
    {
      var podName :| podName in rest;
      rest := rest - {podName};
      filled := filled[podName := value];
    }
    assert names - rest == names;
  }

  method FillFrom(metrics: Metrics, names: set<string>, requests: Metrics) returns (filled: Metrics)
    requires names <= requests.Keys
    ensures filled == Merge(metrics, FilledFrom(names, requests))
  {
    filled := metrics;
    var rest := names;
    while rest != {}
      invariant rest <= names
      invariant filled == metrics + (map k | k in names - rest :: requests[k])
    {
      var podName :| podName in rest;
      rest := rest - {podName};
      filled := filled[podName := requests[podName]];
    }
    assert names - rest == names;
  }

  // ---- what the utilization ratios see before and after the refill ----

  lemma {:induction false} KeptMatched(pods: set<Pod>, fetched: Metrics)
    requires Injective(pods)
    ensures (fetched - NotReadyNames(pods)).Keys * Names(pods) == ReadyNames(pods, fetched)
    ensures MissingNames(pods, fetched) + UnreadyNames(pods) <= Names(pods)
  {
    KeptKeys(pods, fetched);
    assert ReadyNames(pods, fetched) <= Names(pods);
  }

  lemma {:induction false} KeptSize(pods: set<Pod>, fetched: Metrics)
    requires Injective(pods)
    ensures |fetched - NotReadyNames(pods)| == |ReadyNames(pods, fetched)| + |fetched.Keys - Names(pods)|
  {
    KeptKeys(pods, fetched);
    MapSize(fetched - NotReadyNames(pods));
    ReadyAreListed(pods, fetched);
    SizeOfUnion(ReadyNames(pods, fetched), fetched.Keys - Names(pods));
  }

  lemma {:induction false} ReadyAreListed(pods: set<Pod>, fetched: Metrics)
    ensures ReadyNames(pods, fetched) <= Names(pods) * fetched.Keys
    ensures ReadyNames(pods, fetched) !! fetched.Keys - Names(pods)
  {
  }

  lemma {:induction false} MapSize(m: Metrics)
    ensures |m| == |m.Keys|
  {
  }

  lemma {:induction false} MergeSize(a: Metrics, b: Metrics)
    requires Apart(b.Keys, a)
    ensures |Merge(a, b)| == |a| + |b|
  {
    MapSize(a);
    MapSize(b);
    MapSize(a + b);
    SizeOfUnion(a.Keys, b.Keys);
  }

  /** The entries of `metrics` matched by a request carry `load`. */
  ghost predicate Carries(metrics: Metrics, requests: Metrics, load: Load) {
    var keys := Matched(metrics, requests);
    && SumOf(metrics, keys) == load.usage
    && SumOf(requests, keys) == load.request
    && |metrics| == load.count
  }

  /** Before the refill exactly the ready pods are matched by a request, with their fetched usage. */
  lemma {:induction false} KeptLoad(pods: set<Pod>, fetched: Metrics)
    requires Injective(pods)
    ensures var c, t := ResourceClasses(pods, fetched), ResourceTally(pods, fetched);
      && Matched(c.metrics, c.requests) == ReadyNames(pods, fetched) && |ReadyNames(pods, fetched)| == t.ready
      && Carries(c.metrics, c.requests, Load(t.usage, t.readyRequest, t.ready + t.extra))
  {
    hide ReadyNames, MissingNames, UnreadyNames, NotReadyNames, Names, RequestsOf, SumOf, Matched, Injective;
    KeptIsMatched(pods, fetched);
    KeptSize(pods, fetched);
  }

  lemma {:induction false} KeptIsMatched(pods: set<Pod>, fetched: Metrics)
    requires Injective(pods)
    ensures var kept, ready := fetched - NotReadyNames(pods), ReadyNames(pods, fetched);
      && Matched(kept, RequestsOf(pods)) == ready
      && ready <= kept.Keys && ready <= fetched.Keys && SumOf(kept, ready) == SumOf(fetched, ready)
  {
    KeptMatched(pods, fetched);
    ReadyAreListed(pods, fetched);
    var kept := fetched - NotReadyNames(pods);
    assert Matched(kept, RequestsOf(pods)) == kept.Keys * Names(pods);
    hide ReadyNames, MissingNames, UnreadyNames, NotReadyNames, Names, RequestsOf, SumOf, Injective, Matched;
    SumAgree(kept, fetched, ReadyNames(pods, fetched));
  }

  lemma {:induction false} AddedKeys(metrics: Metrics, requests: Metrics, added: Metrics)
    requires added.Keys <= requests.Keys
    ensures Matched(Merge(metrics, added), requests) == Matched(metrics, requests) + added.Keys
  {
    assert (metrics + added).Keys == metrics.Keys + added.Keys;
  }

  ghost predicate Apart(names: set<string>, metrics: Metrics) {
    forall k :: k in names ==> k !in metrics
  }

  lemma {:induction false} MergeSum(metrics: Metrics, added: Metrics, keys: set<string>)
    requires keys <= metrics.Keys && Apart(added.Keys, metrics)
    ensures SumOf(Merge(metrics, added), keys + added.Keys) == SumOf(metrics, keys) + SumOf(added, added.Keys)
  {
    SumUnion(Merge(metrics, added), keys, added.Keys);
    SumAgree(Merge(metrics, added), metrics, keys);
    SumAgree(Merge(metrics, added), added, added.Keys);
  }

  lemma {:induction false} AddedSums(metrics: Metrics, requests: Metrics, added: Metrics)
    requires added.Keys <= requests.Keys && Apart(added.Keys, metrics)
    ensures SumOf(Merge(metrics, added), Matched(Merge(metrics, added), requests))
         == SumOf(metrics, Matched(metrics, requests)) + SumOf(added, added.Keys)
    ensures SumOf(requests, Matched(Merge(metrics, added), requests))
         == SumOf(requests, Matched(metrics, requests)) + SumOf(requests, added.Keys)
  {
    var keys := Matched(metrics, requests);
    AddedKeys(metrics, requests, added);
    MergeSum(metrics, added, keys);
    SumUnion(requests, keys, added.Keys);
  }

  /** Adding entries for one more class of listed pods adds its total, its requests and its head count. */
  lemma {:induction false} AddClass(metrics: Metrics, requests: Metrics, load: Load, added: Metrics)
    requires Carries(metrics, requests, load)
    requires added.Keys <= requests.Keys && Apart(added.Keys, metrics)
    ensures Carries(Merge(metrics, added), requests,
                    Load(load.usage + SumOf(added, added.Keys), load.request + SumOf(requests, added.Keys),
                         load.count + |added|))
  {
    hide SumOf, Merge, Matched, Apart;
    AddedSums(metrics, requests, added);
    MergeSize(metrics, added);
  }

  lemma {:induction false} FilledFacts(names: set<string>, value: int)
    ensures Filled(names, value).Keys == names
    ensures |Filled(names, value)| == |names|
    ensures SumOf(Filled(names, value), names) == value * |names|
  {
    MapSize(Filled(names, value));
    SumConstant(Filled(names, value), names, value);
  }

  lemma {:induction false} FilledFromFacts(names: set<string>, requests: Metrics)
    requires names <= requests.Keys
    ensures FilledFrom(names, requests).Keys == names
    ensures |FilledFrom(names, requests)| == |names|
    ensures SumOf(FilledFrom(names, requests), names) == SumOf(requests, names)
  {
    MapSize(FilledFrom(names, requests));
    SumAgree(FilledFrom(names, requests), requests, names);
  }

  lemma {:induction false} AddZeros(metrics: Metrics, requests: Metrics, load: Load, names: set<string>)
    requires Carries(metrics, requests, load)
    requires names <= requests.Keys && Apart(names, metrics)
    ensures Carries(Merge(metrics, Filled(names, 0)), requests,
                    Load(load.usage, load.request + SumOf(requests, names), load.count + |names|))
  {
    hide Carries, Filled, SumOf, Merge, Apart;
    FilledFacts(names, 0);
    AddClass(metrics, requests, load, Filled(names, 0));
  }

  /** Missing and unready pods have a request and no entry, so the refill adds each of them once. */
  ghost predicate RefillIsDisjoint(c: Classes) {
    && c.missing <= c.requests.Keys && c.unready <= c.requests.Keys
    && Apart(c.missing, c.metrics)
    && Apart(c.unready, Merge(c.metrics, Filled(c.missing, 0)))
  }

  lemma {:induction false} ClassesAreDisjoint(pods: set<Pod>, fetched: Metrics)
    requires Injective(pods)
    ensures RefillIsDisjoint(ResourceClasses(pods, fetched))
  {
    KeptKeys(pods, fetched);
    KeptMatched(pods, fetched);
    ClassesDisjoint(pods, fetched);
    ClassesCover(pods, fetched);
  }

  ghost function RefilledMap(c: Classes, ratio: real): Metrics
    requires c.missing <= c.requests.Keys
  {
    if ratio < 1.0 then Merge(c.metrics, FilledFrom(c.missing, c.requests))
    else if ratio > 1.0 then Merge(Merge(c.metrics, Filled(c.missing, 0)), Filled(c.unready, 0))
    else c.metrics
  }

  lemma {:induction false} RefilledBelow(c: Classes, load: Load)
    requires RefillIsDisjoint(c) && Carries(c.metrics, c.requests, load)
    ensures var more := SumOf(c.requests, c.missing);
      Carries(Merge(c.metrics, FilledFrom(c.missing, c.requests)), c.requests,
              Load(load.usage + more, load.request + more, load.count + |c.missing|))
  {
    hide Carries, Merge, FilledFrom, SumOf, Apart;
    FilledFromFacts(c.missing, c.requests);
    AddClass(c.metrics, c.requests, load, FilledFrom(c.missing, c.requests));
  }

  lemma {:induction false} RefilledAbove(c: Classes, load: Load)
    requires RefillIsDisjoint(c) && Carries(c.metrics, c.requests, load)
    ensures Carries(Merge(Merge(c.metrics, Filled(c.missing, 0)), Filled(c.unready, 0)), c.requests,
                    Load(load.usage, load.request + SumOf(c.requests, c.missing) + SumOf(c.requests, c.unready),
                         load.count + |c.missing| + |c.unready|))
  {
    hide Carries, Merge, Filled, SumOf, Apart;
    AddZeros(c.metrics, c.requests, load, c.missing);
    AddZeros(Merge(c.metrics, Filled(c.missing, 0)), c.requests,
             Load(load.usage, load.request + SumOf(c.requests, c.missing), load.count + |c.missing|), c.unready);
  }

  /** All that the rest of the calculation may use about the classes: they weigh what the tally says. */
  ghost predicate Weighs(c: Classes, t: Tally) {
    && c.missing <= c.requests.Keys
    && (forall k :: k in c.requests ==> 0 <= c.requests[k])
    && |c.metrics| == t.ready + t.extra
    && |c.missing| == t.missing && |c.unready| == t.unready && c.readyCount == t.ready
    && |Matched(c.metrics, c.requests)| == t.ready
    && Carries(c.metrics, c.requests, Load(t.usage, t.readyRequest, t.ready + t.extra))
    && (forall ratio: real :: Carries(RefilledMap(c, ratio), c.requests, ResourceRefill(t, ratio)))
  }

  lemma {:induction false} RefillWeighs(c: Classes, t: Tally, load: Load, ratio: real)
    requires RefillIsDisjoint(c) && Carries(c.metrics, c.requests, load)
    requires load == Load(t.usage, t.readyRequest, t.ready + t.extra)
    requires |c.missing| == t.missing && |c.unready| == t.unready
    requires SumOf(c.requests, c.missing) == t.missingRequest && SumOf(c.requests, c.unready) == t.unreadyRequest
    ensures Carries(RefilledMap(c, ratio), c.requests, ResourceRefill(t, ratio))
  {
    hide Carries, SumOf, Merge, Filled, FilledFrom, Apart;
    RefilledBelow(c, load);
    RefilledAbove(c, load);
  }

  lemma {:induction false} ClassCounts(pods: set<Pod>, fetched: Metrics)
    requires Injective(pods)
    ensures var c, t := ResourceClasses(pods, fetched), ResourceTally(pods, fetched);
      && |c.missing| == t.missing && |c.unready| == t.unready && c.readyCount == t.ready
      && SumOf(c.requests, c.missing) == t.missingRequest && SumOf(c.requests, c.unready) == t.unreadyRequest
      && |c.metrics| == t.ready + t.extra
      && (forall k :: k in c.requests ==> 0 <= c.requests[k])
  {
    KeptSize(pods, fetched);
    hide ReadyNames, MissingNames, UnreadyNames, NotReadyNames, SumOf;
  }

  lemma {:induction false} RefillOfPodsWeighs(pods: set<Pod>, fetched: Metrics, ratio: real)
    requires Injective(pods)
    ensures var c, t := ResourceClasses(pods, fetched), ResourceTally(pods, fetched);
      && c.missing <= c.requests.Keys
      && Carries(RefilledMap(c, ratio), c.requests, ResourceRefill(t, ratio))
  {
    var c, t := ResourceClasses(pods, fetched), ResourceTally(pods, fetched);
    ClassCounts(pods, fetched);
    KeptLoad(pods, fetched);
    ClassesAreDisjoint(pods, fetched);
    hide ResourceClasses, ResourceTally, Carries, RefilledMap, ResourceRefill, SumOf, Matched;
    RefillWeighs(c, t, Load(t.usage, t.readyRequest, t.ready + t.extra), ratio);
  }

  lemma {:induction false} ClassesWeigh(pods: set<Pod>, fetched: Metrics)
    requires Injective(pods)
    ensures Weighs(ResourceClasses(pods, fetched), ResourceTally(pods, fetched))
  {
    hide ResourceClasses, ResourceTally, Carries, RefilledMap, ResourceRefill, SumOf, Matched, Injective;
    ClassesCountAndCarry(pods, fetched);
    forall ratio: real {
      RefillOfPodsWeighs(pods, fetched, ratio);
    }
  }

  /** Everything `Weighs` asks for before the refill. */
  lemma {:induction false} ClassesCountAndCarry(pods: set<Pod>, fetched: Metrics)
    requires Injective(pods)
    ensures var c, t := ResourceClasses(pods, fetched), ResourceTally(pods, fetched);
      && c.missing <= c.requests.Keys
      && (forall k :: k in c.requests ==> 0 <= c.requests[k])
      && |c.metrics| == t.ready + t.extra
      && |c.missing| == t.missing && |c.unready| == t.unready && c.readyCount == t.ready
      && |Matched(c.metrics, c.requests)| == t.ready
      && Carries(c.metrics, c.requests, Load(t.usage, t.readyRequest, t.ready + t.extra))
  {
    ClassCounts(pods, fetched);
    KeptLoad(pods, fetched);
    ClassesAreDisjoint(pods, fetched);
    hide ResourceClasses, ResourceTally, Carries, SumOf, Matched, ReadyNames, Injective, Apart, Merge, Filled;
  }

  // ---- the same for the plain path, where every remaining entry counts ----

  ghost predicate Totals(metrics: Metrics, load: PlainLoad) {
    SumOf(metrics, metrics.Keys) == load.usage && |metrics| == load.count
  }

  lemma {:induction false} AddConstant(metrics: Metrics, load: PlainLoad, names: set<string>, value: int)
    requires Totals(metrics, load) && Apart(names, metrics)
    ensures Totals(Merge(metrics, Filled(names, value)), PlainLoad(load.usage + value * |names|, load.count + |names|))
  {
    FilledFacts(names, value);
    MergeSize(metrics, Filled(names, value));
    MergeSum(metrics, Filled(names, value), metrics.Keys);
    assert Merge(metrics, Filled(names, value)).Keys == metrics.Keys + names;
  }

  ghost function PlainRefilledMap(c: Classes, ratio: real, target: Target): Metrics {
    var charged := Merge(c.metrics, Filled(c.missing, if ratio < 1.0 then target else 0));
    if ratio > 1.0 then Merge(charged, Filled(c.unready, 0)) else charged
  }

  ghost predicate PlainWeighs(c: Classes, t: PlainTally) {
    && |c.missing| == t.missing && |c.unready| == t.unready && c.readyCount == t.ready
    && Totals(c.metrics, PlainLoad(t.usage, t.ready + t.extra))
    && (forall ratio: real, target: Target :: Totals(PlainRefilledMap(c, ratio, target), PlainRefill(t, ratio, target)))
  }

  lemma {:induction false} PlainAreDisjoint(pods: set<Pod>, fetched: Metrics, value: int)
    requires Injective(pods)
    ensures var c := PlainClasses(pods, fetched);
      Apart(c.missing, c.metrics) && Apart(c.unready, Merge(c.metrics, Filled(c.missing, value)))
  {
    ClassesDisjoint(pods, fetched);
  }

  lemma {:induction false} PlainRefillWeighs(c: Classes, t: PlainTally, ratio: real, target: Target)
    requires Apart(c.missing, c.metrics)
    requires Apart(c.unready, Merge(c.metrics, Filled(c.missing, if ratio < 1.0 then target else 0)))
    requires Totals(c.metrics, PlainLoad(t.usage, t.ready + t.extra))
    requires |c.missing| == t.missing && |c.unready| == t.unready
    ensures Totals(PlainRefilledMap(c, ratio, target), PlainRefill(t, ratio, target))
  {
    hide Totals, Filled, Merge, Apart, SumOf;
    var value := if ratio < 1.0 then target else 0;
    AddConstant(c.metrics, PlainLoad(t.usage, t.ready + t.extra), c.missing, value);
    if ratio > 1.0 {
      AddConstant(Merge(c.metrics, Filled(c.missing, value)), PlainLoad(t.usage, t.ready + t.extra + t.missing),
        c.unready, 0);
    }
  }

  lemma {:induction false} PlainClassesWeigh(pods: set<Pod>, fetched: Metrics)
    requires Injective(pods)
    ensures PlainWeighs(PlainClasses(pods, fetched), PlainTallyOf(pods, fetched))
  {
    var c, t := PlainClasses(pods, fetched), PlainTallyOf(pods, fetched);
    PlainClassesTotal(pods, fetched);
    hide PlainClasses, PlainTallyOf, Totals, PlainRefilledMap, PlainRefill, SumOf, Injective;
    hide ReadyNames, MissingNames, NotReadyNames, Names;
    forall ratio: real, target: Target
      ensures Totals(PlainRefilledMap(c, ratio, target), PlainRefill(t, ratio, target))
    {
      PlainRefillOfPodsWeighs(pods, fetched, ratio, target);
    }
  }

  /** Everything `PlainWeighs` asks for before the refill. */
  lemma {:induction false} PlainClassesTotal(pods: set<Pod>, fetched: Metrics)
    requires Injective(pods)
    ensures var c, t := PlainClasses(pods, fetched), PlainTallyOf(pods, fetched);
      && |c.missing| == t.missing && |c.unready| == t.unready && c.readyCount == t.ready
      && Totals(c.metrics, PlainLoad(t.usage, t.ready + t.extra))
  {
    KeptSize(pods, fetched);
    hide SumOf, MissingNames, ReadyNames, NotReadyNames, Names, Injective;
  }

  lemma {:induction false} PlainRefillOfPodsWeighs(pods: set<Pod>, fetched: Metrics, ratio: real, target: Target)
    requires Injective(pods)
    ensures Totals(PlainRefilledMap(PlainClasses(pods, fetched), ratio, target),
      PlainRefill(PlainTallyOf(pods, fetched), ratio, target))
  {
    PlainClassesTotal(pods, fetched);
    PlainAreDisjoint(pods, fetched, if ratio < 1.0 then target else 0);
    hide PlainClasses, PlainTallyOf, Totals, Merge, Filled, PlainRefilledMap, PlainRefill, SumOf, Apart, Injective;
    PlainRefillWeighs(PlainClasses(pods, fetched), PlainTallyOf(pods, fetched), ratio, target);
  }

  /** Holds the configured tolerance and computes proposals from what the clients returned. */
  class ReplicaCalculator {
    const tolerance: real

    constructor (tolerance: real)
      ensures this.tolerance == tolerance
    {
      this.tolerance := tolerance;
    }

    method GetResourceReplicas(
      fetched: Option<Sample<Metrics>>, listed: Option<seq<Pod>>, currentReplicas: int, target: Target)
      returns (r: Result<ResourceProposal, CalcError>)
      requires listed.Some? ==> UniqueNames(listed.value)
      ensures fetched.None? ==> r == Err(NoMetricsFetched)
      ensures fetched.Some? && listed.None? ==> r == Err(NoPodsFetched)
      ensures fetched.Some? && listed.Some? ==>
        && Injective(PodSet(listed.value))
        && r == ResourceOutcome(PodSet(listed.value), fetched.value.value, fetched.value.timestamp, currentReplicas,
            target, tolerance)
    {
      if fetched.None? {
        return Err(NoMetricsFetched);
      }
      if listed.None? {
        return Err(NoPodsFetched);
      }
      if |listed.value| == 0 {
        return Err(NoPods);
      }
      ghost var pods := PodSet(listed.value);
      assert listed.value[0] in pods;
      hide ResourceTally, ResourceClasses, Weighs, TallyOutcome, PodSet, Injective, UniqueNames, SomeRequestMissing;
      var classified := ClassifyForResource(listed.value, fetched.value.value);
      if classified.Err? {
        return Err(classified.error);
      }
      ClassesWeigh(pods, fetched.value.value);
      r := ProposeForClasses(classified.value, ResourceTally(pods, fetched.value.value), currentReplicas, target,
        fetched.value.timestamp);
    }

    /** The part of the calculation after the pod loop. */
    method ProposeForClasses(c: Classes, ghost t: Tally, currentReplicas: int, target: Target, timestamp: Time)
      returns (r: Result<ResourceProposal, CalcError>)
      requires Weighs(c, t)
      ensures r == TallyOutcome(t, currentReplicas, target, tolerance, timestamp)
    {
      assert Carries(c.metrics, c.requests, Load(t.usage, t.readyRequest, t.ready + t.extra));
      hide Carries, RefilledMap, ResourceRefill, Ratio, Percent, TruncDiv, RoundUp;
      if |c.metrics| == 0 {
        return Err(NoReadyMetrics);
      }
      var first := RatioOfLoad(c.metrics, c.requests, target, Load(t.usage, t.readyRequest, t.ready + t.extra),
        t.ready);
      if first.Err? {
        return Err(first.error);
      }
      var (usageRatio, utilization, rawUtilization) := first.value;
      hide Weighs, ResourceDecision;
      var replicas := DecideForClasses(c, t, usageRatio, currentReplicas, target);
      r := Ok(ResourceProposal(replicas, utilization, rawUtilization, timestamp));
    }

    method DecideForClasses(c: Classes, ghost t: Tally, usageRatio: real, currentReplicas: int, target: Target)
      returns (replicas: int)
      requires Weighs(c, t) && 0 < t.readyRequest
      ensures replicas == ResourceDecision(t, usageRatio, currentReplicas, target, tolerance)
    {
      var rebalanceUnready := |c.unready| > 0 && usageRatio > 1.0;
      if !rebalanceUnready && |c.missing| == 0 {
        // no unready or missing pods: the count can be computed now
        hide RoundUp, ResourceRefill, AfterRefill, Carries;
        replicas := if Abs(1.0 - usageRatio) <= tolerance then currentReplicas else RoundUp(usageRatio, c.readyCount);
      } else {
        hide RoundUp, ResourceRefill, AfterRefill, Carries, Ratio, Percent;
        replicas := RefilledReplicas(c, t, usageRatio, rebalanceUnready, currentReplicas, target);
      }
    }

    /** The refill, the second ratio, and the refusal of small or reversed changes. */
    method RefilledReplicas(
      c: Classes, ghost t: Tally, usageRatio: real, rebalanceUnready: bool, currentReplicas: int, target: Target)
      returns (replicas: int)
      requires Weighs(c, t) && 0 < t.readyRequest
      requires rebalanceUnready <==> |c.unready| > 0 && usageRatio > 1.0
      ensures var load := ResourceRefill(t, usageRatio);
        replicas == AfterRefill(usageRatio, Ratio(Percent(load.usage, load.request), target), load.count,
          currentReplicas, tolerance)
    {
      hide Carries, RefilledMap, ResourceRefill, Ratio, Percent, TruncDiv, RoundUp;
      var metrics := RefillForResource(c, usageRatio, rebalanceUnready);
      ghost var load := ResourceRefill(t, usageRatio);
      assert Carries(metrics, c.requests, load);
      hide Weighs;
      var second := RatioOfLoad(metrics, c.requests, target, load, |Matched(metrics, c.requests)|);
      // the source's error check here never fires: the refill only adds requests
      assert second.Ok?;
      var newUsageRatio := second.value.0;
      if Abs(1.0 - newUsageRatio) <= tolerance || (usageRatio < 1.0 && newUsageRatio > 1.0)
        || (usageRatio > 1.0 && newUsageRatio < 1.0) {
        replicas := currentReplicas;
      } else {
        replicas := RoundUp(newUsageRatio, |metrics|);
      }
    }

    /** Raw resource values and pod metrics: both fetch a metric map and take the plain calculation. */
    method GetPlainReplicas(
      fetched: Option<Sample<Metrics>>, listed: Option<seq<Pod>>, currentReplicas: int, target: Target)
      returns (r: Result<Proposal, CalcError>)
      requires listed.Some? ==> UniqueNames(listed.value)
      ensures fetched.None? ==> r == Err(NoMetricsFetched)
      ensures fetched.Some? && listed.None? ==> r == Err(NoPodsFetched)
      ensures fetched.Some? && listed.Some? ==>
        && Injective(PodSet(listed.value))
        && r == PlainOutcome(PodSet(listed.value), fetched.value.value, fetched.value.timestamp, currentReplicas,
            target, tolerance)
    {
      if fetched.None? {
        return Err(NoMetricsFetched);
      }
      if listed.None? {
        return Err(NoPodsFetched);
      }
      if |listed.value| == 0 {
        return Err(NoPods);
      }
      ghost var pods := PodSet(listed.value);
      assert listed.value[0] in pods;
      hide PlainTallyOf, PlainClasses, PlainWeighs, PlainTallyOutcome, PodSet, Injective, UniqueNames;
      var c := ClassifyForPlain(listed.value, fetched.value.value);
      PlainClassesWeigh(pods, fetched.value.value);
      r := ProposeForPlain(c, PlainTallyOf(pods, fetched.value.value), currentReplicas, target,
        fetched.value.timestamp);
    }

    method ProposeForPlain(c: Classes, ghost t: PlainTally, currentReplicas: int, target: Target, timestamp: Time)
      returns (r: Result<Proposal, CalcError>)
      requires PlainWeighs(c, t)
      ensures r == PlainTallyOutcome(t, currentReplicas, target, tolerance, timestamp)
    {
      ghost var kept := PlainLoad(t.usage, t.ready + t.extra);
      assert Totals(c.metrics, kept);
      if |c.metrics| == 0 {
        return Err(NoReadyMetrics);
      }
      hide Totals, PlainRefilledMap, PlainRefill, Ratio, TruncDiv, RoundUp;
      var usageRatio, utilization := RatioOfTotal(c.metrics, target, kept);
      hide PlainWeighs, PlainDecision;
      var replicas := DecideForPlain(c, t, usageRatio, currentReplicas, target);
      r := Ok(Proposal(replicas, utilization, timestamp));
    }

    method DecideForPlain(c: Classes, ghost t: PlainTally, usageRatio: real, currentReplicas: int, target: Target)
      returns (replicas: int)
      requires PlainWeighs(c, t) && 0 < t.ready + t.extra
      ensures replicas == PlainDecision(t, usageRatio, currentReplicas, target, tolerance)
    {
      var rebalanceUnready := |c.unready| > 0 && usageRatio > 1.0;
      if !rebalanceUnready && |c.missing| == 0 {
        hide RoundUp, PlainRefill, AfterRefill, Totals;
        replicas := if Abs(1.0 - usageRatio) <= tolerance then currentReplicas else RoundUp(usageRatio, c.readyCount);
      } else {
        hide RoundUp, PlainRefill, AfterRefill, Totals, Ratio, TruncDiv;
        replicas := RefilledPlainReplicas(c, t, usageRatio, rebalanceUnready, currentReplicas, target);
      }
    }

    method RefilledPlainReplicas(
      c: Classes, ghost t: PlainTally, usageRatio: real, rebalanceUnready: bool, currentReplicas: int, target: Target)
      returns (replicas: int)
      requires PlainWeighs(c, t) && 0 < t.ready + t.extra
      requires rebalanceUnready <==> |c.unready| > 0 && usageRatio > 1.0
      ensures var load := PlainRefill(t, usageRatio, target);
        replicas == AfterRefill(usageRatio, Ratio(TruncDiv(load.usage, load.count), target), load.count,
          currentReplicas, tolerance)
    {
      hide Totals, PlainRefilledMap, PlainRefill, Ratio, TruncDiv, RoundUp;
      var metrics := RefillForPlain(c, usageRatio, rebalanceUnready, target);
      ghost var load := PlainRefill(t, usageRatio, target);
      assert Totals(metrics, load);
      hide PlainWeighs;
      var newUsageRatio, _ := RatioOfTotal(metrics, target, load);
      if Abs(1.0 - newUsageRatio) <= tolerance || (usageRatio < 1.0 && newUsageRatio > 1.0)
        || (usageRatio > 1.0 && newUsageRatio < 1.0) {
        replicas := currentReplicas;
      } else {
        replicas := RoundUp(newUsageRatio, |metrics|);
      }
    }

    function GetObjectMetricReplicas(
      fetched: Option<Sample<int>>, currentReplicas: int, target: Target): Result<Proposal, CalcError> {
      if fetched.None? then Err(NoMetricsFetched)
      else Ok(Proposal(ScaledReplicas(fetched.value.value, target, currentReplicas, tolerance), fetched.value.value,
        fetched.value.timestamp))
    }

    method GetExternalMetricReplicas(
      selectorOk: bool, fetched: Option<Sample<seq<int>>>, currentReplicas: int, target: Target)
      returns (r: Result<Proposal, CalcError>)
      ensures r ==
        if !selectorOk then Err(BadSelector)
        else if fetched.None? then Err(NoMetricsFetched)
        else var usage := SumSeq(fetched.value.value);
             Ok(Proposal(ScaledReplicas(usage, target, currentReplicas, tolerance), usage, fetched.value.timestamp))
    {
      if !selectorOk {
        return Err(BadSelector);
      }
      if fetched.None? {
        return Err(NoMetricsFetched);
      }
      var utilization := AddUp(fetched.value.value);
      var usageRatio := Ratio(utilization, target);
      if Abs(1.0 - usageRatio) <= tolerance {
        return Ok(Proposal(currentReplicas, utilization, fetched.value.timestamp));
      }
      r := Ok(Proposal(RoundUp(usageRatio, currentReplicas), utilization, fetched.value.timestamp));
    }

    /**
     At zero pods the per-pod utilization is a converted infinite or undefined float; `converted` is
     what the platform makes of it. The only caller has ruled this case out.
     */
    method GetExternalPerPodMetricReplicas(
      selectorOk: bool, fetched: Option<Sample<seq<int>>>, currentReplicas: int, target: Target, converted: int)
      returns (r: Result<Proposal, CalcError>)
      requires 0 <= currentReplicas
      ensures r ==
        if !selectorOk then Err(BadSelector)
        else if fetched.None? then Err(NoMetricsFetched)
        else var usage := SumSeq(fetched.value.value);
             Ok(Proposal(PerPodReplicas(usage, target, currentReplicas, tolerance),
                         if currentReplicas == 0 then converted else Ceil(Ratio(usage, currentReplicas)),
                         fetched.value.timestamp))
    {
      if !selectorOk {
        return Err(BadSelector);
      }
      if fetched.None? {
        return Err(NoMetricsFetched);
      }
      var utilization := AddUp(fetched.value.value);
      var replicaCount := currentReplicas;
      if currentReplicas == 0 {
        if utilization != 0 {
          replicaCount := Ceil(Ratio(utilization, target));
        }
        return Ok(Proposal(replicaCount, converted, fetched.value.timestamp));
      }
      PositiveProduct(target, replicaCount);
      var usageRatio := Ratio(utilization, target * replicaCount);
      if Abs(1.0 - usageRatio) > tolerance {
        replicaCount := Ceil(Ratio(utilization, target));
      }
      utilization := Ceil(Ratio(utilization, currentReplicas));
      r := Ok(Proposal(replicaCount, utilization, fetched.value.timestamp));
    }
  }

  method AddUp(values: seq<int>) returns (sum: int)
    ensures sum == SumSeq(values)
  {
    sum := 0;
    for i := 0 to |values|
      invariant sum == SumSeq(values[..i])
    {
      assert values[..i + 1][..i] == values[..i];
      sum := sum + values[i];
    }
    assert values[..|values|] == values;
  }

  method RatioOfTotal(metrics: Metrics, target: Target, ghost load: PlainLoad) returns (ratio: real, utilization: int)
    requires Totals(metrics, load) && 0 < load.count
    ensures utilization == TruncDiv(load.usage, load.count) && ratio == Ratio(utilization, target)
      && |metrics| == load.count
  {
    ratio, utilization := GetMetricUtilizationRatio(metrics, target);
  }

  /** The refill loops of the plain path. */
  method RefillForPlain(c: Classes, usageRatio: real, rebalanceUnready: bool, target: Target) returns (metrics: Metrics)
    requires rebalanceUnready <==> |c.unready| > 0 && usageRatio > 1.0
    ensures metrics == PlainRefilledMap(c, usageRatio, target)
  {
    metrics := c.metrics;
    if |c.missing| > 0 {
      if usageRatio < 1.0 {
        metrics := FillWith(metrics, c.missing, target);
      } else {
        metrics := FillWith(metrics, c.missing, 0);
      }
    }
    if rebalanceUnready {
      metrics := FillWith(metrics, c.unready, 0);
    }
  }

  /** The library ratio, told in terms of the load the map carries. */
  method RatioOfLoad(metrics: Metrics, requests: Metrics, target: Target, ghost load: Load, ghost matched: nat)
    returns (r: Result<(real, int, int), CalcError>)
    requires forall k :: k in requests ==> 0 <= requests[k]
    requires Carries(metrics, requests, load) && |Matched(metrics, requests)| == matched
    ensures r == if load.request <= 0 || matched == 0 then Err(NoMatchingPods)
                 else var percent := Percent(load.usage, load.request);
                      Ok((Ratio(percent, target), percent, TruncDiv(load.usage, matched)))
    ensures load.request > 0 ==> matched > 0 && r.Ok?
    ensures |metrics| == load.count
  {
    r := GetResourceUtilizationRatio(metrics, requests, target);
  }

  /** The refill loops of the resource path. */
  method RefillForResource(c: Classes, usageRatio: real, rebalanceUnready: bool) returns (metrics: Metrics)
    requires c.missing <= c.requests.Keys
    requires rebalanceUnready <==> |c.unready| > 0 && usageRatio > 1.0
    ensures metrics == RefilledMap(c, usageRatio)
  {
    metrics := c.metrics;
    if |c.missing| > 0 {
      if usageRatio < 1.0 {
        metrics := FillFrom(metrics, c.missing, c.requests);
      } else if usageRatio > 1.0 {
        metrics := FillWith(metrics, c.missing, 0);
      }
    }
    if rebalanceUnready {
      metrics := FillWith(metrics, c.unready, 0);
    }
  }
}
