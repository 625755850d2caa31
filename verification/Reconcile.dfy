/**
 One reconcile pass: which branch is taken, what is decided, what is written to the
 API server, and what the status in memory and in the store look like afterwards.
 The pass is specified as a function of the stored objects and of everything the
 environment contributes; the methods at the end are proved against it.
 */
module Reconcile {
  import opened Wrappers
  import opened PodMetrics
  import opened ReplicaCalculators
  import opened Conditions
  import opened Chpa
  import opened MetricFold

  // ---- what the environment contributes to one pass ----

  /** The clock is read at nine program points, in this order. */
  const AT_GET_SCALE := 0
  const AT_START := 1
  const AT_ACTIVE := 2
  const AT_LIMITED := 3
  const AT_DOWN := 4
  const AT_UP := 5
  const AT_SCALE := 6
  const AT_STATUS := 7
  const AT_STORE_FAILED := 8

  type Readings = r: seq<Time> | |r| == 9 && (forall i, j :: 0 <= i <= j < 9 ==> r[i] <= r[j])
    witness [0, 0, 0, 0, 0, 0, 0, 0, 0]

  datatype Inputs = Inputs(
    observations: seq<Observation>, selector: Selector, tolerance: real,
    readings: Readings, deployWriteOk: bool, statusWriteOk: bool)

  /** What the source assumes of its clients: one observation per metric, and unique pod names. */
  ghost predicate Usable(spec: Spec, inputs: Inputs) {
    && ValidSpec(spec)
    && |inputs.observations| == |spec.metrics|
    && forall i :: 0 <= i < |inputs.observations| ==> Listing(inputs.observations[i])
  }

  // ---- the decision ----

  /** `failed` means the metrics could not be computed; `log` holds the condition updates in order. */
  datatype Verdict = Verdict(failed: bool, rescale: bool, desired: int, statuses: seq<MetricStatus>, log: seq<Update>)

  function GotScale(r: Readings): Update {
    Update(AbleToScale, CondTrue, SucceededGetScale, Plain, r[AT_GET_SCALE])
  }

  predicate BackoffFrom(last: Option<Time>, window: int, timestamp: Time) {
    last.Some? && !Elapsed(last.value, window, timestamp)
  }

  function BackoffLog(spec: Spec, last: Option<Time>, timestamp: Time, r: Readings): seq<Update> {
    var down := BackoffFrom(last, spec.downscaleWindow, timestamp);
    var up := BackoffFrom(last, spec.upscaleWindow, timestamp);
    if down && up then
      [Update(AbleToScale, CondFalse, BackoffDownscale, Plain, r[AT_DOWN]),
        Update(AbleToScale, CondFalse, BackoffBoth, Plain, r[AT_UP])]
    else if down then [Update(AbleToScale, CondFalse, BackoffDownscale, Plain, r[AT_DOWN])]
    else if up then [Update(AbleToScale, CondFalse, BackoffUpscale, Plain, r[AT_UP])]
    else [Update(AbleToScale, CondTrue, ReadyForNewScale, Plain, r[AT_UP])]
  }

  function LimitedUpdate(n: Normalized, desired: int, at: Time): Update {
    Update(ScalingLimited, if n.replicas == desired then CondFalse else CondTrue, n.reason, Limiting(n.text), at)
  }

  /** A corrective branch is taken: the current count is out of bounds. */
  predicate OutOfBounds(spec: Spec, current: int) {
    || current > spec.maxReplicas
    || (spec.minReplicas.Some? && current < spec.minReplicas.value)
    || current == 0
  }

  function Correction(spec: Spec, current: int): int {
    if current > spec.maxReplicas then spec.maxReplicas
    else if spec.minReplicas.Some? && current < spec.minReplicas.value then spec.minReplicas.value
    else 1
  }

  /** The proposal and the timestamp that go into normalization and the window check. */
  function Proposed(f: Folded): int {
    if f.replicas > 0 then f.replicas else 0
  }

  function ProposedAt(f: Folded, now: Time): Time {
    if f.replicas > 0 then f.timestamp else now
  }

  function MetricsVerdict(
    spec: Spec, last: Option<Time>, current: int, computed: Result<Folded, MetricError>, r: Readings): Verdict {
    match computed
    case Err(_) => Verdict(true, false, 0, [], [ActiveUpdate(computed, r[AT_ACTIVE])])
    case Ok(f) =>
      var n := Normalize(spec, current, Proposed(f));
      var timestamp := ProposedAt(f, r[AT_START]);
      Verdict(false, ShouldScale(spec, last, current, n.replicas, timestamp), n.replicas, f.statuses,
              [ActiveUpdate(computed, r[AT_ACTIVE]), LimitedUpdate(n, Proposed(f), r[AT_LIMITED])]
              + BackoffLog(spec, last, timestamp, r))
  }

  ghost function ComputedFor(spec: Spec, current: nat, inputs: Inputs): Result<Folded, MetricError>
    requires Usable(spec, inputs) && 0 < current
  {
    Computed(spec.metrics, inputs.observations, inputs.selector, current, inputs.tolerance)
  }

  /** The branch taken after the scale was read, with the conditions it sets. */
  ghost function Branch(spec: Spec, last: Option<Time>, specReplicas: int, current: nat, inputs: Inputs): Verdict
    requires Usable(spec, inputs)
  {
    var r := inputs.readings;
    if specReplicas == 0 then
      Verdict(false, false, 0, [], [Update(ScalingActive, CondFalse, ScalingDisabled, Plain, r[AT_ACTIVE])])
    else if OutOfBounds(spec, current) then
      Verdict(false, true, Correction(spec, current), [], [])
    else
      MetricsVerdict(spec, last, current, ComputedFor(spec, current, inputs), r)
  }

  ghost function Assess(spec: Spec, last: Option<Time>, specReplicas: int, current: nat, inputs: Inputs): Verdict
    requires Usable(spec, inputs)
  {
    var v := Branch(spec, last, specReplicas, current, inputs);
    v.(log := [GotScale(inputs.readings)] + v.log)
  }

  // ---- the writes ----

  /**
   `target` is the replica count left in the deployment object, `scaled` says that the API server took it;
   `proposed` is the status at the moment the store is considered, `memory` the one left when the pass ends.
   */
  datatype Outcome = Outcome(
    deployAttempted: bool, scaled: bool, target: int,
    proposed: StatusValue, statusAttempted: bool, statusStored: bool, memory: StatusValue)

  function Logged(s: StatusValue, log: seq<Update>): StatusValue {
    s.(conditions := ApplyAll(s.conditions, log))
  }

  /** `setCurrentReplicasInStatus`: only the current count moves. */
  function WithCurrent(s: StatusValue, current: int): StatusValue {
    WithCounts(s, current, s.desiredReplicas, s.currentMetrics, s.lastScaleTime)
  }

  function ScaleUpdate(v: Verdict, ok: bool, at: Time): Update {
    if ok then Update(AbleToScale, CondTrue, SucceededRescale, Counting(v.desired), at)
    else Update(AbleToScale, CondFalse, FailedUpdateScale, Plain, at)
  }

  function FullLog(v: Verdict, deployWriteOk: bool, r: Readings): seq<Update> {
    if v.rescale then v.log + [ScaleUpdate(v, deployWriteOk, r[AT_SCALE])] else v.log
  }

  function ProposedStatus(s: StatusValue, v: Verdict, current: int, deployWriteOk: bool, r: Readings): StatusValue {
    var logged := Logged(s, FullLog(v, deployWriteOk, r));
    if v.failed || (v.rescale && !deployWriteOk) then WithCurrent(logged, current)
    else if v.rescale then WithCounts(logged, current, v.desired, v.statuses, Some(r[AT_STATUS]))
    else WithCounts(logged, current, current, v.statuses, s.lastScaleTime)
  }

  /** A failed store is reported in a condition, except on the main path where the error is dropped. */
  function AfterStore(proposed: StatusValue, reports: bool, stored: bool, attempted: bool, at: Time): StatusValue {
    if reports && attempted && !stored then
      proposed.(conditions :=
        ApplyUpdate(proposed.conditions, Update(AbleToScale, CondFalse, FailedUpdateReplicas, Plain, at)))
    else proposed
  }

  function Conclude(s: StatusValue, v: Verdict, specReplicas: int, current: int, inputs: Inputs): Outcome {
    var proposed := ProposedStatus(s, v, current, inputs.deployWriteOk, inputs.readings);
    var attempted := proposed != s;
    var stored := attempted && inputs.statusWriteOk;
    var reports := v.failed || (v.rescale && !inputs.deployWriteOk);
    Outcome(v.rescale, v.rescale && inputs.deployWriteOk, if v.rescale then v.desired else specReplicas,
            proposed, attempted, stored,
            AfterStore(proposed, reports, stored, attempted, inputs.readings[AT_STORE_FAILED]))
  }

  ghost function Pass(spec: Spec, s: StatusValue, specReplicas: int, current: nat, inputs: Inputs): Outcome
    requires Usable(spec, inputs)
  {
    Conclude(s, Assess(spec, s.lastScaleTime, specReplicas, current, inputs), specReplicas, current, inputs)
  }

  // ---- the request around the pass ----

  /** What a read of the cache returned. */
  datatype Lookup = Found(spec: Spec, status: StatusValue) | NotFound | Unreadable

  /** The deployment could not be read, belongs to another controller, or is at hand. */
  datatype DeploymentRead = ReadFailed | OwnedByOther | ReadOk(specReplicas: Option<int>, statusReplicas: nat)

  /** Drop the request, repeat it after the sync period, or drop it because a recovered panic was reported. */
  datatype Next = Stop | Again | Panicked

  datatype Handled = Handled(next: Next, outcome: Option<Outcome>)

  /** A valid object is found; the pass will run on its defaulted specification. */
  predicate Admitted(lookup: Lookup) {
    lookup.Found? && ValidSpec(lookup.spec)
  }

  ghost predicate UsableFor(lookup: Lookup, inputs: Inputs) {
    Admitted(lookup) ==> Usable(WithDefaults(lookup.spec), inputs)
  }

  ghost function Handle(lookup: Lookup, read: DeploymentRead, inputs: Inputs): Handled
    requires UsableFor(lookup, inputs)
  {
    if lookup.Unreadable? then Handled(Again, None)
    else if !Admitted(lookup) then Handled(Stop, None)
    else if !read.ReadOk? then Handled(Again, None)
    else if read.specReplicas.None? then Handled(Panicked, None)
    else Handled(Again,
      Some(Pass(WithDefaults(lookup.spec), lookup.status, read.specReplicas.value, read.statusReplicas, inputs)))
  }

  // ---- the objects ----

  /** The CHPA as decoded from the API server; only this copy is edited during a pass. */
  class CHPA {
    var spec: Spec
    const status: Status

    constructor (spec: Spec, status: StatusValue)
      ensures this.spec == spec && this.status.Valid() && this.status.Value() == status
      ensures fresh(this.status) && fresh(this.status.conditions.data)
    {
      this.spec := spec;
      this.status := new Status(status);
    }

    method SetDefaults()
      modifies this
      ensures spec == WithDefaults(old(spec))
    {
      if spec.downscaleWindow == 0 {
        spec := spec.(downscaleWindow := DEFAULT_DOWNSCALE_WINDOW);
      }
      if spec.upscaleWindow == 0 {
        spec := spec.(upscaleWindow := DEFAULT_UPSCALE_WINDOW);
      }
      if spec.limitFactor == 0.0 {
        spec := spec.(limitFactor := DEFAULT_LIMIT_FACTOR);
      }
      if spec.limitMinimum == 0 {
        spec := spec.(limitMinimum := DEFAULT_LIMIT_MINIMUM);
      }
      if spec.tolerance == 0.0 {
        spec := spec.(tolerance := DEFAULT_TOLERANCE);
      }
    }
  }

  /** `specReplicas` is a pointer in the source; a nil one makes the pass panic. */
  class Deployment {
    var specReplicas: Option<int>
    var statusReplicas: nat

    constructor (specReplicas: Option<int>, statusReplicas: nat)
      ensures this.specReplicas == specReplicas && this.statusReplicas == statusReplicas
    {
      this.specReplicas, this.statusReplicas := specReplicas, statusReplicas;
    }
  }

  /** The stored objects, and how often a write of each was attempted. */
  class ApiServer {
    var spec: Spec
    var status: StatusValue
    var deployReplicas: Option<int>
    var chpaRequests: nat
    var deployRequests: nat

    constructor (spec: Spec, status: StatusValue, deployReplicas: Option<int>)
      ensures this.spec == spec && this.status == status && this.deployReplicas == deployReplicas
      ensures chpaRequests == deployRequests == 0
    {
      this.spec, this.status, this.deployReplicas := spec, status, deployReplicas;
      chpaRequests, deployRequests := 0, 0;
    }

    /** `Update` of the whole CHPA object, defaulted specification included. */
    method UpdateCHPA(chpa: CHPA, ok: bool) returns (stored: bool)
      requires chpa.status.Valid()
      modifies this`spec, this`status, this`chpaRequests
      ensures stored == ok && chpaRequests == old(chpaRequests) + 1
      ensures spec == if ok then chpa.spec else old(spec)
      ensures status == if ok then chpa.status.Value() else old(status)
    {
      chpaRequests := chpaRequests + 1;
      if ok {
        spec, status := chpa.spec, chpa.status.Value();
      }
      stored := ok;
    }

    method UpdateDeployment(deploy: Deployment, ok: bool) returns (stored: bool)
      modifies this`deployReplicas, this`deployRequests
      ensures stored == ok && deployRequests == old(deployRequests) + 1
      ensures deployReplicas == if ok then deploy.specReplicas else old(deployReplicas)
    {
      deployRequests := deployRequests + 1;
      if ok {
        deployReplicas := deploy.specReplicas;
      }
      stored := ok;
    }
  }

  // ---- the pass in memory ----

  class ReconcileCHPA {
    const calculator: ReplicaCalculator
    const api: ApiServer

    constructor (calculator: ReplicaCalculator, api: ApiServer)
      ensures this.calculator == calculator && this.api == api
    {
      this.calculator, this.api := calculator, api;
    }

    /** Skips the write when the status equals the copy taken on entry. */
    method UpdateStatusIfNeeded(oldStatus: Status, chpa: CHPA, ok: bool) returns (failed: bool)
      requires oldStatus.Valid() && chpa.status.Valid()
      modifies api`spec, api`status, api`chpaRequests
      ensures var needed := oldStatus.Value() != chpa.status.Value();
        && failed == (needed && !ok)
        && api.chpaRequests == old(api.chpaRequests) + (if needed then 1 else 0)
        && api.spec == (if needed && ok then chpa.spec else old(api.spec))
        && api.status == (if needed && ok then chpa.status.Value() else old(api.status))
    {
      if oldStatus.Value() == chpa.status.Value() {
        return false;
      }
      var stored := api.UpdateCHPA(chpa, ok);
      failed := !stored;
    }

    method SetCurrentReplicasInStatus(chpa: CHPA, current: int, now: Time)
      requires chpa.status.Valid()
      modifies chpa.status
      ensures chpa.status.Valid() && chpa.status.conditions == old(chpa.status.conditions)
      ensures chpa.status.Value() == WithCurrent(old(chpa.status.Value()), current)
      ensures chpa.status.currentReplicas == current && chpa.status.desiredReplicas == old(chpa.status.desiredReplicas)
      ensures chpa.status.currentMetrics == old(chpa.status.currentMetrics)
      ensures chpa.status.lastScaleTime == old(chpa.status.lastScaleTime) && chpa.status.observedGeneration == None
    {
      chpa.status.SetStatus(current, chpa.status.desiredReplicas, chpa.status.currentMetrics, false, now);
    }

    method NormalizeDesiredReplicas(chpa: CHPA, current: int, prenormalized: int, now: Time) returns (desired: int)
      requires chpa.status.Valid()
      modifies chpa.status`conditions, chpa.status.conditions.data
      ensures var n := Normalize(chpa.spec, current, prenormalized);
        && desired == n.replicas
        && chpa.status.Valid()
        && chpa.status.Value() == Logged(old(chpa.status.Value()), [LimitedUpdate(n, prenormalized, now)])
      ensures chpa.status.conditions.data == old(chpa.status.conditions.data) || fresh(chpa.status.conditions.data)
    {
      var minReplicas := if chpa.spec.minReplicas.Some? then chpa.spec.minReplicas.value else 0;
      var n := ConvertDesiredReplicas(chpa.spec, current, prenormalized, minReplicas, chpa.spec.maxReplicas);
      desired := n.replicas;
      LogOne(chpa.status.Value().conditions, LimitedUpdate(n, prenormalized, now));
      if desired == prenormalized {
        chpa.status.SetCondition(ScalingLimited, CondFalse, n.reason, Limiting(n.text), now);
      } else {
        chpa.status.SetCondition(ScalingLimited, CondTrue, n.reason, Limiting(n.text), now);
      }
    }

    /** Reports the forbidden windows that are in force; the decision itself was taken by `ShouldScale`. */
    method ReportBackoff(chpa: CHPA, timestamp: Time, r: Readings)
      requires chpa.status.Valid()
      modifies chpa.status`conditions, chpa.status.conditions.data
      ensures chpa.status.Valid()
      ensures chpa.status.Value()
        == Logged(old(chpa.status.Value()), BackoffLog(chpa.spec, old(chpa.status.lastScaleTime), timestamp, r))
      ensures chpa.status.conditions.data == old(chpa.status.conditions.data) || fresh(chpa.status.conditions.data)
    {
      var last := chpa.status.lastScaleTime;
      ghost var conds := chpa.status.Value().conditions;
      var backoffDown, backoffUp := false, false;
      if last.Some? {
        if !Elapsed(last.value, chpa.spec.downscaleWindow, timestamp) {
          chpa.status.SetCondition(AbleToScale, CondFalse, BackoffDownscale, Plain, r[AT_DOWN]);
          backoffDown := true;
        }
        if !Elapsed(last.value, chpa.spec.upscaleWindow, timestamp) {
          backoffUp := true;
          if backoffDown {
            chpa.status.SetCondition(AbleToScale, CondFalse, BackoffBoth, Plain, r[AT_UP]);
          } else {
            chpa.status.SetCondition(AbleToScale, CondFalse, BackoffUpscale, Plain, r[AT_UP]);
          }
        }
      }
      if !backoffDown && !backoffUp {
        chpa.status.SetCondition(AbleToScale, CondTrue, ReadyForNewScale, Plain, r[AT_UP]);
      }
      BackoffLogApplied(conds, chpa.spec, last, timestamp, r);
    }

    /** The metrics branch: compute, normalize, check the windows. */
    method DecideOnMetrics(
      chpa: CHPA, current: nat, inputs: Inputs)
      returns (failed: bool, rescale: bool, desired: int, statuses: seq<MetricStatus>)
      requires Usable(chpa.spec, inputs) && inputs.tolerance == calculator.tolerance && 0 < current
      requires chpa.status.Valid()
      modifies chpa.status`conditions, chpa.status.conditions.data
      ensures var v :=
        MetricsVerdict(chpa.spec, old(chpa.status.lastScaleTime), current, ComputedFor(chpa.spec, current, inputs),
          inputs.readings);
        && failed == v.failed && rescale == v.rescale && desired == v.desired && statuses == v.statuses
        && chpa.status.Valid()
        && chpa.status.Value() == Logged(old(chpa.status.Value()), v.log)
      ensures chpa.status.conditions.data == old(chpa.status.conditions.data) || fresh(chpa.status.conditions.data)
    {
      var r := inputs.readings;
      var last := chpa.status.lastScaleTime;
      ghost var conds := chpa.status.Value().conditions;
      failed, rescale, desired, statuses := false, true, 0, [];
      var timestamp := r[AT_START];
      var computed := ComputeReplicasForMetrics(
        calculator, chpa.status, chpa.spec.metrics, inputs.observations, inputs.selector, current, r[AT_ACTIVE]);
      ghost var active := ActiveUpdate(computed, r[AT_ACTIVE]);
      LogOne(conds, active);
      if computed.Err? {
        return true, false, 0, [];
      }
      statuses := computed.value.statuses;
      if computed.value.replicas > desired {
        desired := computed.value.replicas;
        timestamp := computed.value.timestamp;
      }
      ghost var proposed := desired;
      desired := NormalizeDesiredReplicas(chpa, current, desired, r[AT_LIMITED]);
      rescale := ShouldScale(chpa.spec, last, current, desired, timestamp);
      ReportBackoff(chpa, timestamp, r);
      LogInThree(conds, active, LimitedUpdate(Normalize(chpa.spec, current, proposed), proposed, r[AT_LIMITED]),
                 BackoffLog(chpa.spec, last, timestamp, r));
    }
  
    /** The branches of the pass up to the decision, with the conditions they set. */
    method Decide(
      chpa: CHPA, deploy: Deployment, inputs: Inputs)
      returns (failed: bool, rescale: bool, desired: int, statuses: seq<MetricStatus>)
      requires Usable(chpa.spec, inputs) && inputs.tolerance == calculator.tolerance
      requires chpa.status.Valid() && deploy.specReplicas.Some?
      modifies chpa.status`conditions, chpa.status.conditions.data
      ensures var v :=
        Assess(chpa.spec, old(chpa.status.lastScaleTime), deploy.specReplicas.value, deploy.statusReplicas, inputs);
        && failed == v.failed && rescale == v.rescale && desired == v.desired && statuses == v.statuses
        && chpa.status.Valid()
        && chpa.status.Value() == Logged(old(chpa.status.Value()), v.log)
      ensures chpa.status.conditions.data == old(chpa.status.conditions.data) || fresh(chpa.status.conditions.data)
    {
      ghost var conds := chpa.status.Value().conditions;
      var r := inputs.readings;
      var current := deploy.statusReplicas;
      chpa.status.SetCondition(AbleToScale, CondTrue, SucceededGetScale, Plain, r[AT_GET_SCALE]);
      LogOne(conds, GotScale(r));
      ghost var v := Branch(chpa.spec, chpa.status.lastScaleTime, deploy.specReplicas.value, current, inputs);
      LogConcat(conds, [GotScale(r)], v.log);
      failed, rescale, desired, statuses := false, true, 0, [];
      if deploy.specReplicas.value == 0 {
        rescale := false;
        LogOne(chpa.status.Value().conditions, Update(ScalingActive, CondFalse, ScalingDisabled, Plain, r[AT_ACTIVE]));
        chpa.status.SetCondition(ScalingActive, CondFalse, ScalingDisabled, Plain, r[AT_ACTIVE]);
      } else if current > chpa.spec.maxReplicas {
        desired := chpa.spec.maxReplicas;
      } else if chpa.spec.minReplicas.Some? && current < chpa.spec.minReplicas.value {
        desired := chpa.spec.minReplicas.value;
      } else if current == 0 {
        desired := 1;
      } else {
        failed, rescale, desired, statuses := DecideOnMetrics(chpa, current, inputs);
      }
    }
  
    /** What the pass leaves in memory and on the API server, given its entry status `s` and verdict `v`. */
    twostate predicate Concluded(chpa: CHPA, deploy: Deployment, o: Outcome)
      reads chpa, chpa.status, chpa.status.conditions.data, deploy, api
    {
      && chpa.status.Valid()
      && chpa.status.Value() == o.memory
      && deploy.specReplicas == Some(o.target)
      && api.deployRequests == old(api.deployRequests) + (if o.deployAttempted then 1 else 0)
      && api.deployReplicas == (if o.scaled then Some(o.target) else old(api.deployReplicas))
      && ChpaWritten(chpa, o)
    }

    /** The stored CHPA and the count of its write requests. */
    twostate predicate ChpaWritten(chpa: CHPA, o: Outcome)
      reads chpa, api
    {
      && api.chpaRequests == old(api.chpaRequests) + (if o.statusAttempted then 1 else 0)
      && api.status == (if o.statusStored then o.proposed else old(api.status))
      && api.spec == (if o.statusStored then chpa.spec else old(api.spec))
    }

    /** Only the current count is refreshed, and a failed store is reported. */
    method StoreCurrentReplicas(chpa: CHPA, original: Status, current: int, inputs: Inputs)
      requires chpa.status.Valid() && original.Valid()
      requires original != chpa.status && original.conditions.data != chpa.status.conditions.data
      modifies chpa.status, chpa.status.conditions.data, api`spec, api`status, api`chpaRequests
      ensures var s, proposed := old(original.Value()), WithCurrent(old(chpa.status.Value()), current);
        var attempted := proposed != s;
        var stored := attempted && inputs.statusWriteOk;
        && chpa.status.Valid()
        && chpa.status.Value() == AfterStore(proposed, true, stored, attempted, inputs.readings[AT_STORE_FAILED])
        && api.chpaRequests == old(api.chpaRequests) + (if attempted then 1 else 0)
        && api.status == (if stored then proposed else old(api.status))
        && api.spec == (if stored then chpa.spec else old(api.spec))
    {
      SetCurrentReplicasInStatus(chpa, current, inputs.readings[AT_STATUS]);
      var failed := UpdateStatusIfNeeded(original, chpa, inputs.statusWriteOk);
      if failed {
        chpa.status.SetCondition(AbleToScale, CondFalse, FailedUpdateReplicas, Plain, inputs.readings[AT_STORE_FAILED]);
      }
    }

    /** Metrics could not be computed: the deployment is left alone. */
    method CarryFailure(chpa: CHPA, deploy: Deployment, original: Status, ghost v: Verdict, inputs: Inputs)
      requires v.failed && !v.rescale
      requires chpa.status.Valid() && original.Valid() && deploy.specReplicas.Some?
      requires original != chpa.status && original.conditions.data != chpa.status.conditions.data
      requires chpa.status.Value() == Logged(original.Value(), v.log)
      modifies chpa.status, chpa.status.conditions.data, api`spec, api`status, api`chpaRequests
      ensures Concluded(chpa, deploy,
        Conclude(old(original.Value()), v, deploy.specReplicas.value, deploy.statusReplicas, inputs))
    {
      ConcludeUnscaled(original.Value(), v, deploy.specReplicas.value, deploy.statusReplicas, inputs);
      hide Conclude, ProposedStatus, Logged, WithCurrent, AfterStore;
      StoreCurrentReplicas(chpa, original, deploy.statusReplicas, inputs);
    }

    /** The deployment update failed: the new count stays in memory, and only the current count is stored. */
    method CarryRefusal(
      chpa: CHPA, deploy: Deployment, original: Status, ghost v: Verdict, ghost specReplicas: int, inputs: Inputs)
      requires !v.failed && v.rescale && !inputs.deployWriteOk
      requires chpa.status.Valid() && original.Valid() && deploy.specReplicas == Some(v.desired)
      requires original != chpa.status && original.conditions.data != chpa.status.conditions.data
      requires chpa.status.Value() == Logged(original.Value(), v.log)
      modifies chpa.status, chpa.status.conditions.data, api`spec, api`status, api`chpaRequests
      ensures var o := Conclude(old(original.Value()), v, specReplicas, deploy.statusReplicas, inputs);
        && chpa.status.Valid() && chpa.status.Value() == o.memory && o.deployAttempted && !o.scaled
        && o.target == v.desired && ChpaWritten(chpa, o)
    {
      var at := inputs.readings[AT_SCALE];
      ghost var s := original.Value();
      ApplyOneMore(s.conditions, v.log, ScaleUpdate(v, false, at));
      ConcludeRefused(s, v, specReplicas, deploy.statusReplicas, inputs);
      chpa.status.SetCondition(AbleToScale, CondFalse, FailedUpdateScale, Plain, at);
      assert chpa.status.Value() == Logged(s, FullLog(v, false, inputs.readings));
      hide Conclude, ProposedStatus, Logged, WithCurrent, AfterStore;
      StoreCurrentReplicas(chpa, original, deploy.statusReplicas, inputs);
    }

    /** The end of the main path: the status is rebuilt and stored, and the error of that write dropped. */
    method CarryStatus(
      chpa: CHPA, deploy: Deployment, original: Status, ghost v: Verdict, ghost specReplicas: int,
      newDesired: int, statuses: seq<MetricStatus>, rescale: bool, inputs: Inputs)
      requires !v.failed && v.rescale == rescale && v.statuses == statuses && (rescale ==> inputs.deployWriteOk)
      requires newDesired == if rescale then v.desired else deploy.statusReplicas
      requires chpa.status.Valid() && original.Valid()
      requires original != chpa.status && original.conditions.data != chpa.status.conditions.data
      requires chpa.status.Value() == Logged(original.Value(), FullLog(v, inputs.deployWriteOk, inputs.readings))
      modifies chpa.status, chpa.status.conditions.data, api`spec, api`status, api`chpaRequests
      ensures var o := Conclude(old(original.Value()), v, specReplicas, deploy.statusReplicas, inputs);
        && chpa.status.Valid() && chpa.status.Value() == o.memory && ChpaWritten(chpa, o)
        && o.deployAttempted == o.scaled == rescale && o.target == (if rescale then v.desired else specReplicas)
    {
      ConcludeStatus(original.Value(), v, specReplicas, deploy.statusReplicas, inputs);
      hide Conclude, ProposedStatus, Logged, FullLog, AfterStore;
      chpa.status.SetStatus(deploy.statusReplicas, newDesired, statuses, rescale, inputs.readings[AT_STATUS]);
      var _ := UpdateStatusIfNeeded(original, chpa, inputs.statusWriteOk);
    }

    /** A decision to rescale: the deployment is updated first. */
    method CarryRescale(
      chpa: CHPA, deploy: Deployment, original: Status, ghost v: Verdict, desired: int,
      statuses: seq<MetricStatus>, inputs: Inputs)
      requires !v.failed && v.rescale && v.desired == desired && v.statuses == statuses
      requires chpa.status.Valid() && original.Valid() && deploy.specReplicas.Some?
      requires original != chpa.status && original.conditions.data != chpa.status.conditions.data
      requires chpa.status.Value() == Logged(original.Value(), v.log)
      modifies chpa.status, chpa.status.conditions.data, deploy`specReplicas, api
      ensures Concluded(chpa, deploy,
        Conclude(old(original.Value()), v, old(deploy.specReplicas.value), deploy.statusReplicas, inputs))
    {
      hide Conclude;
      ghost var s, specReplicas := original.Value(), deploy.specReplicas.value;
      deploy.specReplicas := Some(desired);
      var scaled := api.UpdateDeployment(deploy, inputs.deployWriteOk);
      if !scaled {
        CarryRefusal(chpa, deploy, original, v, specReplicas, inputs);
        return;
      }
      ApplyOneMore(s.conditions, v.log, ScaleUpdate(v, true, inputs.readings[AT_SCALE]));
      chpa.status.SetCondition(AbleToScale, CondTrue, SucceededRescale, Counting(desired), inputs.readings[AT_SCALE]);
      assert chpa.status.Value() == Logged(s, FullLog(v, true, inputs.readings));
      hide Logged, FullLog;
      CarryStatus(chpa, deploy, original, v, specReplicas, desired, statuses, true, inputs);
    }

    /** The writes of a pass whose decision is known. */
    method Carry(chpa: CHPA, deploy: Deployment, original: Status, ghost v: Verdict,
                 failed: bool, rescale: bool, desired: int, statuses: seq<MetricStatus>, inputs: Inputs)
      requires v.failed == failed && v.rescale == rescale && v.desired == desired && v.statuses == statuses
      requires failed ==> !rescale
      requires chpa.status.Valid() && original.Valid() && deploy.specReplicas.Some?
      requires original != chpa.status && original.conditions.data != chpa.status.conditions.data
      requires chpa.status.Value() == Logged(original.Value(), v.log)
      modifies chpa.status, chpa.status.conditions.data, deploy`specReplicas, api
      ensures Concluded(chpa, deploy,
        Conclude(old(original.Value()), v, old(deploy.specReplicas.value), deploy.statusReplicas, inputs))
    {
      hide Conclude, Logged;
      if failed {
        CarryFailure(chpa, deploy, original, v, inputs);
      } else if rescale {
        CarryRescale(chpa, deploy, original, v, desired, statuses, inputs);
      } else {
        assert FullLog(v, inputs.deployWriteOk, inputs.readings) == v.log;
        CarryStatus(chpa, deploy, original, v, deploy.specReplicas.value, deploy.statusReplicas, statuses, false,
          inputs);
      }
    }

    /**
     The whole pass. The copy taken on entry is never reached by the in-place condition
     writes, so the skip decision compares the entry status with the final one.
     */
    method ReconcileObject(chpa: CHPA, deploy: Deployment, inputs: Inputs) returns (panicked: bool)
      requires Usable(chpa.spec, inputs) && inputs.tolerance == calculator.tolerance
      requires chpa.status.Valid()
      modifies chpa.status, chpa.status.conditions.data, deploy`specReplicas, api
      ensures panicked <==> old(deploy.specReplicas).None?
      ensures panicked ==> unchanged(api) && unchanged(deploy) && chpa.status.Valid()
      ensures panicked ==>
        chpa.status.conditions.data == old(chpa.status.conditions.data) || fresh(chpa.status.conditions.data)
      ensures !panicked ==>
        Concluded(chpa, deploy,
          Pass(chpa.spec, old(chpa.status.Value()), old(deploy.specReplicas.value), deploy.statusReplicas, inputs))
    {
      var original := chpa.status.DeepCopy();
      if deploy.specReplicas.None? {
        // the nil dereference below the first condition update is recovered by the deferred handler
        chpa.status.SetCondition(AbleToScale, CondTrue, SucceededGetScale, Plain, inputs.readings[AT_GET_SCALE]);
        return true;
      }
      ghost var v :=
        Assess(chpa.spec, chpa.status.lastScaleTime, deploy.specReplicas.value, deploy.statusReplicas, inputs);
      var failed, rescale, desired, statuses := Decide(chpa, deploy, inputs);
      Carry(chpa, deploy, original, v, failed, rescale, desired, statuses, inputs);
      panicked := false;
    }

    /** What one request leaves on the API server: nothing unless its pass ran to the end. */
    twostate predicate Served(lookup: Lookup, h: Handled)
      reads api
    {
      && (h.outcome.None? ==> unchanged(api))
      && (h.outcome.Some? ==> lookup.Found?)
      && (h.outcome.Some? ==>
            var o := h.outcome.value;
            && api.deployRequests == old(api.deployRequests) + (if o.deployAttempted then 1 else 0)
            && api.deployReplicas == (if o.scaled then Some(o.target) else old(api.deployReplicas))
            && api.chpaRequests == old(api.chpaRequests) + (if o.statusAttempted then 1 else 0)
            && api.status == (if o.statusStored then o.proposed else old(api.status))
            && api.spec == (if o.statusStored then WithDefaults(lookup.spec) else old(api.spec)))
    }

    /** One request of the work queue: every problem but a missing or invalid object is retried. */
    method Reconcile(lookup: Lookup, read: DeploymentRead, inputs: Inputs) returns (next: Next)
      requires UsableFor(lookup, inputs) && inputs.tolerance == calculator.tolerance
      modifies api
      ensures next == Handle(lookup, read, inputs).next && Served(lookup, Handle(lookup, read, inputs))
    {
      if lookup.Unreadable? {
        return Again;
      }
      if lookup.NotFound? {
        return Stop;
      }
      var chpa := new CHPA(lookup.spec, lookup.status);
      chpa.SetDefaults();
      DefaultsAreStable(lookup.spec);
      var invalid := CheckValidity(chpa.spec);
      if invalid.Some? {
        // the condition only reaches the copy that is thrown away
        chpa.status.SetCondition(AbleToScale, CondFalse, FailedSpecCheck, Plain, inputs.readings[AT_GET_SCALE]);
        return Stop;
      }
      if !read.ReadOk? {
        return Again;
      }
      var deploy := new Deployment(read.specReplicas, read.statusReplicas);
      var panicked := ReconcileObject(chpa, deploy, inputs);
      if panicked {
        chpa.status.SetCondition(AbleToScale, CondTrue, FailedProcessCHPA, Plain, inputs.readings[AT_STORE_FAILED]);
        return Panicked;
      }
      next := Again;
    }
  }

  // ---- the outcome, path by path ----

  lemma {:induction false} ConcludeUnscaled(s: StatusValue, v: Verdict, specReplicas: int, current: int, inputs: Inputs)
    requires v.failed && !v.rescale
    ensures var proposed := WithCurrent(Logged(s, v.log), current);
      var stored := proposed != s && inputs.statusWriteOk;
      Conclude(s, v, specReplicas, current, inputs)
        == Outcome(false, false, specReplicas, proposed, proposed != s, stored,
        AfterStore(proposed, true, stored, proposed != s, inputs.readings[AT_STORE_FAILED]))
  {
    hide Logged, WithCurrent, AfterStore;
  }

  lemma {:induction false} ConcludeRefused(s: StatusValue, v: Verdict, specReplicas: int, current: int, inputs: Inputs)
    requires !v.failed && v.rescale && !inputs.deployWriteOk
    ensures var proposed := WithCurrent(Logged(s, FullLog(v, false, inputs.readings)), current);
      var stored := proposed != s && inputs.statusWriteOk;
      Conclude(s, v, specReplicas, current, inputs) == Outcome(true, false, v.desired, proposed, proposed != s, stored,
        AfterStore(proposed, true, stored, proposed != s, inputs.readings[AT_STORE_FAILED]))
  {
    hide Logged, WithCurrent, AfterStore, FullLog;
  }

  lemma {:induction false} ConcludeStatus(s: StatusValue, v: Verdict, specReplicas: int, current: int, inputs: Inputs)
    requires !v.failed && (v.rescale ==> inputs.deployWriteOk)
    ensures var logged := Logged(s, FullLog(v, inputs.deployWriteOk, inputs.readings));
      var last := if v.rescale then Some(inputs.readings[AT_STATUS]) else logged.lastScaleTime;
      var proposed := WithCounts(logged, current, if v.rescale then v.desired else current, v.statuses, last);
      var target := if v.rescale then v.desired else specReplicas;
      Conclude(s, v, specReplicas, current, inputs) == Outcome(v.rescale, v.rescale, target, proposed, proposed != s,
        proposed != s && inputs.statusWriteOk, proposed)
  {
    hide FullLog, ApplyAll;
  }

  lemma {:induction false} LogOne(conds: seq<Condition>, u: Update)
    ensures ApplyAll(conds, [u]) == ApplyUpdate(conds, u)
  {
    ApplyOneMore(conds, [], u);
    assert [] + [u] == [u];
  }

  lemma {:induction false} LogConcat(conds: seq<Condition>, a: seq<Update>, b: seq<Update>)
    ensures ApplyAll(conds, a + b) == ApplyAll(ApplyAll(conds, a), b)
  {
    if b == [] {
      assert a + b == a;
    } else {
      var n := |b| - 1;
      LogConcat(conds, a, b[..n]);
      ApplyOneMore(conds, a + b[..n], b[n]);
      assert a + b[..n] + [b[n]] == a + b;
    }
  }

  lemma {:induction false} LogInThree(conds: seq<Condition>, u: Update, w: Update, rest: seq<Update>)
    ensures ApplyAll(ApplyAll(ApplyAll(conds, [u]), [w]), rest) == ApplyAll(conds, [u, w] + rest)
  {
    assert [u] + [w] == [u, w];
    LogConcat(conds, [u], [w]);
    LogConcat(conds, [u, w], rest);
  }

  lemma {:induction false} BackoffLogApplied(
    conds: seq<Condition>, spec: Spec, last: Option<Time>, timestamp: Time, r: Readings)
    ensures var down := BackoffFrom(last, spec.downscaleWindow, timestamp);
      var up := BackoffFrom(last, spec.upscaleWindow, timestamp);
      var first := ApplyUpdate(conds, Update(AbleToScale, CondFalse, BackoffDownscale, Plain, r[AT_DOWN]));
      ApplyAll(conds, BackoffLog(spec, last, timestamp, r)) ==
        if down && up then ApplyUpdate(first, Update(AbleToScale, CondFalse, BackoffBoth, Plain, r[AT_UP]))
        else if down then first
        else if up then ApplyUpdate(conds, Update(AbleToScale, CondFalse, BackoffUpscale, Plain, r[AT_UP]))
        else ApplyUpdate(conds, Update(AbleToScale, CondTrue, ReadyForNewScale, Plain, r[AT_UP]))
  {
    var down := Update(AbleToScale, CondFalse, BackoffDownscale, Plain, r[AT_DOWN]);
    var both := Update(AbleToScale, CondFalse, BackoffBoth, Plain, r[AT_UP]);
    LogOne(conds, down);
    ApplyOneMore(conds, [down], both);
    assert [down] + [both] == [down, both];
    LogOne(conds, Update(AbleToScale, CondFalse, BackoffUpscale, Plain, r[AT_UP]));
    LogOne(conds, Update(AbleToScale, CondTrue, ReadyForNewScale, Plain, r[AT_UP]));
  }
}
