# A verified model of the Configurable Horizontal Pod Autoscaler

The CHPA controller decides, every fifteen seconds and for every CHPA object, how many replicas a
Deployment should have. This project models its replica calculator, its reconcile pass with the
status it keeps, the closed loop of passes and a deployment that catches up, and the work queue
that schedules the passes. It proves what each of them promises over every input and every run.

| file | contents |
|---|---|
| `Arithmetic.dfy`, `Wrappers.dfy` | exact ratios and ceilings, truncating division, `Option` and `Result` |
| `PodMetrics.dfy` | pods, metric maps, the classes the calculator sorts pods into, order-free sums |
| `ReplicaCalculator.dfy` | the calculator's loops over mutable maps and sets, proved against functions of sets of pods |
| `ReplicaTheorems.dfy` | resource path: direction safety, monotonicity, conservative refills; capacity of the external paths |
| `PlainTheorems.dfy` | the same for the plain path |
| `ReplicaLaws.dfy` | how far a proposal goes and what it reports, on every path |
| `PodExamples.dfy` | pods and metrics on which the code departs from its comments |
| `Conditions.dfy` | the condition list as a slice over a shared backing array, and the history it records |
| `Chpa.dfy` | specification, defaults, validity, clamp, windows, the status object and its deep copy |
| `MetricFold.dfy` | one proposal per metric and the loop that keeps the largest |
| `MetricLaws.dfy` | which calculation each metric type and target selects, told in what was observed |
| `Reconcile.dfy` | one pass and one request, as functions and as methods over objects and an API server |
| `PassTheorems.dfy`, `PassLaws.dfy` | what one pass guarantees, decides and reports |
| `ControlLoop.dfy`, `Growth.dfy`, `LostRecord.dfy` | runs: bounds, separation of rescales, growth, a lost record |
| `Demands.dfy` | constant demands on several external metrics, and what they propose together |
| `Convergence.dfy` | constant demands: monotone approach and settling in rounds |
| `Settling.dfy` | constant demands over arbitrary runs |
| `Quiescence.dfy` | when an unchanged world causes no further write |
| `WorkQueue.dfy` | store, lagging watch, queue and requests: nothing valid is dropped, self-wakeups are bounded |

## How to read it

Loops over the pod list, the metric map and the metric specifications, and everything that changes
an object in place, are methods; their contracts tie them to functions (`ResourceOutcome`,
`PlainOutcome`, `Computed`, `Assess`, `Conclude`, `Handle`), and the theorems are about those
functions and about runs of them. Automatic induction is switched off throughout, so every inductive
proof spells out its step. Go's iteration order over maps is an arbitrary choice in the
loops. Everything the environment contributes is a parameter: fetched metrics, listed pods, nine
clock readings per pass, and whether each write succeeds.

Times are integers in nanoseconds, quantities are unbounded integers, and the float64 ratios are
exact reals. Targets are positive, pod names unique, and container requests non-negative. Where a
theorem needs more, it says so: non-negative samples, the field ranges of `CHPASpec` (`Sane`), a
current count equal to the non-failed pods (`Accounted`), few entries of unlisted pods
(`StrangersFit`), samples stamped before the pass had fetched them all (`TimelyInputs`), a replica
count that moves between its old value and the specified one (`Between`).

## Where the code departs from its documentation or comments

- `pkg/controller/chpa/replica_calculator.go:177-178` promises to count the pods that factored into the calculation; line 180 counts every metric entry, those of unlisted pods included. One such entry can turn a scale-down into an upscale (`StrangersReverseDirection`, `StrangersReversePlainDirection`). `ResourceDirectionIff` and `PlainDirectionOfPodsIff` say exactly when that happens, `ResourceGuardOfPodsIff` and `PlainGuardOfPodsIff` say which head counts rule it out whatever the load.
- `pkg/controller/chpa/replica_calculator.go:264-269` fills zeros also at ratio exactly 1, where the resource path fills nothing; there the plain path can lower the count under more load (`PlainDropsAtTarget`). `PlainMonotoneOfPodsIff` says exactly when it cannot, with entries of unlisted pods taken into account.
- `README.md:80-87` describes `Tolerance` as a parameter of the CHPA; the calculator is built once with the constant (`pkg/controller/chpa/chpa_controller.go:95`), so it is a field of the calculator here and the field of the specification is only defaulted (`SpecToleranceIsIgnored`).
- `README.md:64-79` measures a window from the previous event of the same direction; the code measures it from the last recorded rescale of any direction and reason, which is at least as strict (`WindowSeparation`).
- `pkg/controller/chpa/chpa_controller.go:346` drops the error of the final status write, so a rescale can go unrecorded and the next one come at once (`WindowIsArmedIff`, `TwoUpscalesInOneWindow`). Window and growth theorems therefore ask for that write to succeed.
- `minReplicas <= maxReplicas` is not enforced; without it the corrective branches alternate for ever (`CorrectionReachesBoundsIff`, `MinAboveMaxOscillates`).
- The texts chosen at `pkg/controller/chpa/chpa_controller.go:403-409` for a proposal below the minimum are always overwritten at 415-425, so `TooFewReplicas` carries a text about the upper limit.
- `setStatus` (`pkg/controller/chpa/chpa_controller.go:358-365`) drops `ObservedGeneration`.
- A pass within a forbidden window turns `AbleToScale` on and off again and so writes the status every time (`QuietIff`).
- A recovered panic stops the repetition although the object is valid (`LeavesQueueIff`).

## Model

| member | source | states |
|---|---|---|
| `PodMetrics.ClassesPartition` | pkg/controller/chpa/replica_calculator.go:88-119 | ready, missing, unready and failed pods partition the listed ones; the non-failed ones are exactly the first three |
| `PodMetrics.ClassesCover` | pkg/controller/chpa/replica_calculator.go:100-118 | the classes of both loops cover the listed pods; unready and failed together are what the loop deletes |
| `PodMetrics.KeptKeys` | pkg/controller/chpa/replica_calculator.go:88-119 | the metric keys that survive the deletions are the ready pods plus keys of no listed pod |
| `ReplicaCalculators.PodRequest` | pkg/controller/chpa/replica_calculator.go:89-96 | the request of a pod is the sum over its containers, and absent as soon as one container has none |
| `ReplicaCalculators.ClassifyForResource` | pkg/controller/chpa/replica_calculator.go:83-119 | the mutating pod loop leaves exactly the set comprehensions of the four classes in its map, sets and counter, and fails exactly when some listed pod lacks a request |
| `ReplicaCalculators.OneMorePod` | pkg/controller/chpa/replica_calculator.go:98-118 | one iteration on the comprehensions of the pods so far gives the comprehensions with that pod added |
| `ReplicaCalculators.ClassifyForPlain` | pkg/controller/chpa/replica_calculator.go:219-238 | the plain loop leaves the same classes, with failed pods counted as unready |
| `ReplicaCalculators.GetResourceUtilizationRatio` | vendor/k8s.io/kubernetes/pkg/controller/podautoscaler/metrics/utilization.go:26-52 | for every iteration order: floored percentage, ratio and average over the entries that have a request, and an error exactly when those requests total zero |
| `ReplicaCalculators.GetMetricUtilizationRatio` | vendor/k8s.io/kubernetes/pkg/controller/podautoscaler/metrics/utilization.go:57-66 | for every iteration order: truncated average over all entries and its ratio to the target |
| `ReplicaCalculators.RefillForResource` | pkg/controller/chpa/replica_calculator.go:143-162 | the fill loops overwrite exactly the missing pods (full request below target, zero above) and, above target, the unready ones (zero) |
| `ReplicaCalculators.RefillForPlain` | pkg/controller/chpa/replica_calculator.go:258-277 | the plain fill loops: target below, zero at and above target for missing pods, zero for unready ones above |
| `ReplicaCalculators.ClassesWeigh` | pkg/controller/chpa/replica_calculator.go:121-165 | what the pod loop left carries the usage, requests and head counts of the tally, before and after either refill |
| `ReplicaCalculators.PlainClassesWeigh` | pkg/controller/chpa/replica_calculator.go:240-280 | the same for the plain path, where every remaining entry counts |
| `ReplicaCalculators.ReplicaCalculator.GetResourceReplicas` | pkg/controller/chpa/replica_calculator.go:66-181 | the whole calculation equals an order-free function of the set of listed pods and the fetched map, including each error |
| `ReplicaCalculators.ReplicaCalculator.ProposeForClasses` | pkg/controller/chpa/replica_calculator.go:121-181 | from classified pods on, the proposal and the errors depend on the tally alone |
| `ReplicaCalculators.ReplicaCalculator.DecideForClasses` | pkg/controller/chpa/replica_calculator.go:130-180 | direct answer without unready and missing pods, refilled answer otherwise |
| `ReplicaCalculators.ReplicaCalculator.RefilledReplicas` | pkg/controller/chpa/replica_calculator.go:143-180 | second ratio, refusal of small and of reversed changes, rounding up; the second error check never fires |
| `ReplicaCalculators.ReplicaCalculator.GetPlainReplicas` | pkg/controller/chpa/replica_calculator.go:185-291 | raw resource and pods metrics: the whole calculation equals an order-free function of pods and metrics, including each error |
| `ReplicaCalculators.ReplicaCalculator.GetExternalMetricReplicas` | pkg/controller/chpa/replica_calculator.go:314-335 | sum of the external values, scaled current count outside the tolerance, errors for selector and fetch |
| `ReplicaCalculators.ReplicaCalculator.GetExternalPerPodMetricReplicas` | pkg/controller/chpa/replica_calculator.go:340-362 | sum of the external values, as many pods as the total needs outside the tolerance, rounded-up per-pod utilization; at zero pods the float division is infinite or undefined and its converted value a parameter |
| `ReplicaTheorems.OrderIndependent` | pkg/controller/chpa/replica_calculator.go:83-119 | permuting the listed pods changes nothing either calculation depends on |
| `ReplicaTheorems.TallyDirectionIff` | pkg/controller/chpa/replica_calculator.go:125-180 | for every tally, entries of unlisted pods included: above target at least, below at most, on target exactly the current count, if and only if the tally does not tip (pods missing, charged percentage below target and outside the tolerance, and times all left entries more than the current pods carry on target) |
| `ReplicaTheorems.TallyDirection` | pkg/controller/chpa/replica_calculator.go:130-180 | ratio above 1 gives at least, below 1 at most, exactly 1 precisely the current count, through direct, tolerance, fill and reversal branches, whenever unlisted entries are at most as many as unready pods or no pod is missing |
| `ReplicaTheorems.TallyMonotone` | pkg/controller/chpa/replica_calculator.go:125-180 | more usage of the ready pods never lowers the proposal, also across the change of branch, unless the answer to the smaller usage tipped |
| `ReplicaTheorems.StrangersGuardIff` | pkg/controller/chpa/replica_calculator.go:164-180 | over all usages, missing requests, targets and tolerances, direction safety holds if and only if unlisted entries are at most as many as unready pods or no pod is missing; monotonicity in load under the very same condition |
| `ReplicaTheorems.ResourceGuardOfPodsIff` | pkg/controller/chpa/replica_calculator.go:66-181 | given the classes of pods and metric keys, direction safety holds for all loads, container requests, targets and tolerances if and only if unlisted entries are at most as many as unready pods or no pod is missing |
| `ReplicaTheorems.LargeRequestsProtect` | pkg/controller/chpa/replica_calculator.go:164-180 | with the requests given too, more unlisted entries than that need not do harm: a tally of 1000 pods that no usage, target or tolerance tips |
| `ReplicaTheorems.ResourceDirectionIff` | pkg/controller/chpa/replica_calculator.go:66-181 | for all pods and fetched metrics, a computed proposal is on the right side of the current count if and only if their tally does not tip |
| `ReplicaTheorems.ResourceDirectionSafety` | pkg/controller/chpa/replica_calculator.go:66-181 | so it always is when the unlisted entries are few, a condition on head counts alone |
| `ReplicaTheorems.ResourceMonotoneInLoad` | pkg/controller/chpa/replica_calculator.go:125-180 | for all pods and metrics: raising any ready pod's usage keeps errors and never lowers the proposal, unless the tally of the lower load tips |
| `ReplicaTheorems.FullChargeMovesTowardHundred` | pkg/controller/chpa/replica_calculator.go:144-148 | charging a full request moves the floored percentage toward 100 and never past it (mediant inequality under floor) |
| `ReplicaTheorems.FullChargeIsConservativeIff` | pkg/controller/chpa/replica_calculator.go:144-148 | that charge never lowers the percentage, whatever is missing, exactly when the ready pods' floored percentage is at most 100 |
| `ReplicaTheorems.ResourceRefillConservative` | pkg/controller/chpa/replica_calculator.go:143-165 | above target the refill never raises the percentage; below a target of at most 100 it never lowers it nor passes 100; on target nothing moves |
| `PlainTheorems.PlainRefillConservative` | pkg/controller/chpa/replica_calculator.go:258-280 | below target the refill raises the average but keeps it below target, so the scale-down half of the reversal guard is dead; zero fills never raise it and leave the usage alone |
| `PlainTheorems.PlainDirectionIff` | pkg/controller/chpa/replica_calculator.go:244-290 | for every tally, entries of unlisted pods included: above target at least, otherwise between zero and the current count, if and only if the tally does not tip |
| `PlainTheorems.PlainGuardIff` | pkg/controller/chpa/replica_calculator.go:244-290 | over all usages, targets and tolerances, plain direction safety holds if and only if the entries left and the missing pods together do not exceed the current count, or no pod is missing |
| `PlainTheorems.PlainTallyDirection` | pkg/controller/chpa/replica_calculator.go:244-290 | above target at least, below target at most the current count; at exactly the target never more, and the same count if none is missing |
| `PlainTheorems.PlainDirectionOfPodsIff` | pkg/controller/chpa/replica_calculator.go:209-291 | the same equivalence for all pods and fetched metrics |
| `PlainTheorems.PlainDirectionSafety` | pkg/controller/chpa/replica_calculator.go:209-291 | plain direction safety for all pods and metrics with few unlisted entries |
| `PlainTheorems.PlainGuardOfPodsIff` | pkg/controller/chpa/replica_calculator.go:209-291 | given pods and metric keys, plain direction safety holds for all loads, targets and tolerances if and only if unlisted entries are at most as many as unready pods or no pod is missing |
| `PlainTheorems.PlainMonotone` | pkg/controller/chpa/replica_calculator.go:244-290 | with any number of unlisted entries: more usage never lowers the plain answer, if the smaller usage does not tip and either landing on the target is good or both averages are off it |
| `PlainTheorems.PlainMonotoneInLoad` | pkg/controller/chpa/replica_calculator.go:209-291 | the same over pods and metrics, errors included |
| `PlainTheorems.PlainMonotoneIff` | pkg/controller/chpa/replica_calculator.go:244-290 | over all usages, unlisted entries included, the plain path is monotone if and only if head counts, target and tolerance rule out a tip (the last average outside the tolerance, times the counted entries, is at most the current count times the target) and landing on the target is good (few enough pods missing, or the zero-filled average within tolerance, or rounded up to the current count when every answer below may be kept) |
| `PlainTheorems.PlainMonotoneOfPodsIff` | pkg/controller/chpa/replica_calculator.go:209-291 | over all loads of given pods and metric keys, unlisted entries included, the plain outcome is monotone if and only if that condition holds |
| `PlainTheorems.FitIsSteadyIff` | pkg/controller/chpa/replica_calculator.go:244-290 | when unlisted entries are few, the condition is just that landing on the target is harmless |
| `PlainTheorems.PlainCapacity` | pkg/controller/chpa/replica_calculator.go:280-290 | a computed count r over N pods with total M satisfies M - N < r*T < M + T |
| `PlainTheorems.PlainKeepsOrFits` | pkg/controller/chpa/replica_calculator.go:244-290 | every plain answer is the current count or satisfies that bound for the counted load; with unlisted entries and nothing to refill it covers the average times the ready pods |
| `PodExamples.PlainDropsAtTarget` | pkg/controller/chpa/replica_calculator.go:258-269 | two pods and metrics where more usage lowers the answer: landing on ratio exactly 1 with a pod missing |
| `PodExamples.StrangersReverseDirection` | pkg/controller/chpa/replica_calculator.go:164-180 | two pods and one unlisted entry: a ratio of an eighth is answered with three replicas, a ratio of 1 with two |
| `PodExamples.StrangersReversePlainDirection` | pkg/controller/chpa/replica_calculator.go:244-290 | two pods and one unlisted entry: half the target is answered with three replicas, a load above the target with two |
| `ReplicaTheorems.ScaledCapacity` | pkg/controller/chpa/replica_calculator.go:301-334 | object and total external metrics: never on the wrong side of the current count, and outside the tolerance the least r with usage*current <= r*target |
| `ReplicaTheorems.PerPodCapacity` | pkg/controller/chpa/replica_calculator.go:354-361 | the total fits into the proposed pods up to the tolerance; outside the tolerance, and always at zero pods, no smaller count carries it |
| `ReplicaLaws.ClassOfPod` | pkg/controller/chpa/replica_calculator.go:88-119 | pod by pod: ready is running with the ready condition, missing is ready without a metric entry, failed pods are left out of account, and the request is the sum over containers |
| `ReplicaLaws.SumRequestsSplits` | pkg/controller/chpa/replica_calculator.go:89-96 | sums of container requests split over concatenation, and one container contributes its request |
| `ReplicaLaws.SumSeqSplits` | pkg/controller/chpa/replica_calculator.go:323-326 | the same for the values of an external metric |
| `ReplicaLaws.ResourceMagnitude` | pkg/controller/chpa/replica_calculator.go:125-180 | how far a resource proposal goes: the current count if the floored percentage (the refilled one when pods are missing, or unready above target) is within tolerance, or the refill put it on the other side of the target; otherwise the least n with percentage * counted pods <= n * target |
| `ReplicaLaws.ResourceFailsIff` | pkg/controller/chpa/replica_calculator.go:67-128 | each error of the resource calculation, and exactly when it occurs |
| `ReplicaLaws.ResourceProposalIs` | pkg/controller/chpa/replica_calculator.go:66-181 | the magnitude over all pods and fetched metrics, with the reported floored percentage, average and timestamp |
| `ReplicaLaws.PlainMagnitude` | pkg/controller/chpa/replica_calculator.go:244-290 | the same for the plain path in floored averages: kept exactly within tolerance or when reversed by the refill, otherwise the least n that carries the counted load |
| `ReplicaLaws.PlainFailsIff` | pkg/controller/chpa/replica_calculator.go:210-242 | each error of the plain calculation, and exactly when it occurs |
| `ReplicaLaws.PlainProposalIs` | pkg/controller/chpa/replica_calculator.go:185-291 | the plain magnitude over all pods and fetched metrics, with the reported average and timestamp |
| `ReplicaLaws.ScaledSized` | pkg/controller/chpa/replica_calculator.go:301-334 | object and total external metrics: the current count within tolerance, otherwise the least n with usage * current <= n * target |
| `ReplicaLaws.PerPodSized` | pkg/controller/chpa/replica_calculator.go:354-361 | per-pod external metrics: the current count within tolerance, otherwise the least n with usage <= n * target |
| `Chpa.DefaultsAreStable` | pkg/controller/chpa/chpa_controller.go:477-530 | defaulting is idempotent and leaves validity unchanged |
| `Chpa.DefaultsFillIn` | pkg/controller/chpa/chpa_controller.go:477-493 | field by field: given values are kept, zero ones become 300, 300, 2.0, 4 and 0.1, and nothing else of the specification moves |
| `Chpa.DefaultedInRanges` | pkg/apis/autoscalers/v1beta1/chpa_types.go:39-68 | a specification whose fields are left out or in their ranges has all of them in range after defaulting |
| `Chpa.AcceptedMetric` | pkg/controller/chpa/chpa_controller.go:506-526 | type by type, which metrics are accepted |
| `Chpa.LimitIsTruncated` | pkg/controller/chpa/chpa_controller.go:532-534 | the scale-up limit is max(factor * current, minimum) rounded toward zero |
| `Chpa.CheckMetricsValidity` | pkg/controller/chpa/chpa_controller.go:503-530 | accepts exactly the lists without a nil pointer or unknown type, and otherwise names the first offending metric |
| `Chpa.CheckValidity` | pkg/controller/chpa/chpa_controller.go:494-501 | accepts exactly Deployments with valid metrics |
| `Chpa.LimitAtLeastCurrent` | pkg/controller/chpa/chpa_controller.go:532-534 | with a factor of at least 1 the truncated scale-up limit is at least the current count and at most max(factor*current, minimum) |
| `Chpa.ClampIsProjection` | pkg/controller/chpa/chpa_controller.go:395-436 | in the metrics branch the allowed interval is nonempty and holds the current count; normalization is the idempotent projection onto it, never 0 and never past the current count in the other direction |
| `Chpa.ClampIsExplained` | pkg/controller/chpa/chpa_controller.go:395-436 | the reported reason says exactly which end of the interval was hit, if any; at the lower end the text is always one about the upper end |
| `Chpa.ClampIsMonotone` | pkg/controller/chpa/chpa_controller.go:395-436 | a larger proposal never gets a smaller answer |
| `Chpa.Status.DeepCopyInto` | pkg/apis/autoscalers/v1beta1/zz_generated.deepcopy.go:118-144 | the copy has the same value and its condition list is backed by a fresh array |
| `Chpa.Status.DeepCopy` | pkg/apis/autoscalers/v1beta1/zz_generated.deepcopy.go:147-154 | the copy is a fresh object that no in-place condition write reaches |
| `Chpa.Status.SetCondition` | pkg/controller/chpa/chpa_controller.go:441-443 | the condition list becomes the old one with one update applied, in place or in a fresh array; nothing else moves |
| `Chpa.Status.SetStatus` | pkg/controller/chpa/chpa_controller.go:358-371 | counts and metric statuses are replaced, conditions shared, the observed generation dropped, the scale time set only on a rescale |
| `Conditions.FindOrAppend` | pkg/controller/chpa/chpa_controller.go:449-464 | finds the first entry of the type, or appends a blank one to the slice |
| `Conditions.WriteEntry` | pkg/controller/chpa/chpa_controller.go:466-472 | the write through the entry's address changes exactly that entry, its time only with its status |
| `Conditions.SetConditionInList` | pkg/controller/chpa/chpa_controller.go:448-475 | the in-place list update equals the functional one, on shared and on reallocated backing arrays |
| `Conditions.OneUpdate` | pkg/controller/chpa/chpa_controller.go:448-475 | one update keeps types unique, the order and every other entry |
| `Conditions.ListKept` | pkg/controller/chpa/chpa_controller.go:441-475 | so does any sequence of updates; only updated types are appended |
| `Conditions.EntryStatus` | pkg/controller/chpa/chpa_controller.go:441-475 | an entry's status is that of the latest call for its type, or the stored one |
| `Conditions.LatestChangeSetsTime` | pkg/controller/chpa/chpa_controller.go:466-468 | an entry's transition time is that of the latest call that changed its type's status |
| `Conditions.NoChangeKeepsTime` | pkg/controller/chpa/chpa_controller.go:466-468 | if no call changed the status, the stored time is kept |
| `MetricFold.ProposeForMetric` | pkg/controller/chpa/chpa_controller.go:594-716 | each metric type and target picks its calculation, and every failure its condition reason |
| `MetricLaws.ObjectProposes` | pkg/controller/chpa/chpa_controller.go:595-610 | object metric: scaled count, name, value and sample time, or its failure with the condition reason |
| `MetricLaws.ExternalTotalProposes` | pkg/controller/chpa/chpa_controller.go:689-704 | external metric with a target for the total: the current count scaled by total over target, with what is reported and each failure |
| `MetricLaws.ExternalPerPodProposes` | pkg/controller/chpa/chpa_controller.go:673-688 | external metric with a target per pod, which wins over one for the total: the least count the total needs, with the rounded-up value per pod that is reported and each failure |
| `MetricLaws.PodsProposes` | pkg/controller/chpa/chpa_controller.go:611-625 | pods metric: the plain magnitude for its target, with what is reported and each failure |
| `MetricLaws.RawResourceProposes` | pkg/controller/chpa/chpa_controller.go:627-642 | resource metric with a value target, which wins over a utilization target: the plain magnitude for it, with what is reported and each failure |
| `MetricLaws.UtilizationProposes` | pkg/controller/chpa/chpa_controller.go:652-671 | resource metric with a utilization target: the resource magnitude for it, with what is reported and each failure |
| `MetricLaws.NoTargetFails` | pkg/controller/chpa/chpa_controller.go:645-709 | without any target the metric fails with its reason |
| `MetricLaws.FirstError` | pkg/controller/chpa/chpa_controller.go:573-716 | the error of the whole is that of the selector or of the first metric that fails |
| `MetricFold.FoldMetrics` | pkg/controller/chpa/chpa_controller.go:568-726 | the loop returns the fold of all proposals, or the error of the first failing metric |
| `MetricFold.FirstFailureVoids` | pkg/controller/chpa/chpa_controller.go:573-716 | whatever fails within a prefix fails the whole list with the same error |
| `MetricFold.ComputeReplicasForMetrics` | pkg/controller/chpa/chpa_controller.go:568-726 | the loop together with the single ScalingActive condition it leaves behind |
| `MetricFold.FoldIsFirstMaximum` | pkg/controller/chpa/chpa_controller.go:717-721 | for non-negative proposals the result is their maximum, with name and timestamp of the first metric attaining it when positive |
| `MetricFold.FoldPermutation` | pkg/controller/chpa/chpa_controller.go:717-721 | the resulting count is invariant under permutation of the metrics |
| `MetricFold.ProposalsNonNegative` | pkg/controller/chpa/chpa_controller.go:573-722 | non-negative samples yield non-negative proposals for every metric type |
| `Reconcile.ReconcileCHPA.UpdateStatusIfNeeded` | pkg/controller/chpa/chpa_controller.go:729-739 | the whole object is written exactly when the status differs from the copy taken on entry |
| `Reconcile.ReconcileCHPA.SetCurrentReplicasInStatus` | pkg/controller/chpa/chpa_controller.go:352-354 | only the current count moves (and the observed generation is lost) |
| `Reconcile.ReconcileCHPA.NormalizeDesiredReplicas` | pkg/controller/chpa/chpa_controller.go:375-392 | the clamped count, reported in ScalingLimited as limited exactly when it differs from the proposal |
| `Reconcile.ReconcileCHPA.ReportBackoff` | pkg/controller/chpa/chpa_controller.go:297-320 | the AbleToScale updates for every combination of forbidden windows in force |
| `Reconcile.ReconcileCHPA.DecideOnMetrics` | pkg/controller/chpa/chpa_controller.go:265-321 | the metrics branch equals its verdict function: failure, rescale decision, clamped count, conditions in order |
| `Reconcile.ReconcileCHPA.Decide` | pkg/controller/chpa/chpa_controller.go:237-321 | the five branches equal the verdict function; the in-memory status is the entry status with the verdict's log applied |
| `Reconcile.ReconcileCHPA.StoreCurrentReplicas` | pkg/controller/chpa/chpa_controller.go:267-275 | the failing paths store the current count only and report a failed store in memory |
| `Reconcile.ReconcileCHPA.CarryFailure` | pkg/controller/chpa/chpa_controller.go:266-277 | when the metrics could not be computed: only the current count is stored, a failed store is reported in memory, the deployment is left alone |
| `Reconcile.ReconcileCHPA.CarryRefusal` | pkg/controller/chpa/chpa_controller.go:325-335 | when the deployment update fails: a condition, the current count stored, and the scale time kept |
| `Reconcile.ReconcileCHPA.CarryRescale` | pkg/controller/chpa/chpa_controller.go:323-346 | the deployment is updated first, then the condition and the status |
| `Reconcile.ReconcileCHPA.CarryStatus` | pkg/controller/chpa/chpa_controller.go:345-346 | the status is rebuilt with the new count and, on a rescale, the scale time; the error of its store is dropped |
| `Reconcile.ReconcileCHPA.Carry` | pkg/controller/chpa/chpa_controller.go:323-348 | deployment write, scale time, status write and each failure leave exactly the outcome computed from entry status and verdict |
| `Reconcile.ReconcileCHPA.ReconcileObject` | pkg/controller/chpa/chpa_controller.go:225-349 | the whole pass against its outcome function: objects in memory, both stores and the number of writes attempted; the entry snapshot is untouched by the in-place writes; a nil replica count panics and writes nothing |
| `Reconcile.ReconcileCHPA.Reconcile` | pkg/controller/chpa/chpa_controller.go:161-222 | one request: which problems stop it, which repeat it, and that it writes nothing unless its pass ran to the end |
| `PassTheorems.LastScaleTimeAdvancesIff` | pkg/controller/chpa/chpa_controller.go:323-371 | the scale time moves exactly on passes whose deployment update succeeded, and then to that pass's clock |
| `PassTheorems.RescalesIff` | pkg/controller/chpa/chpa_controller.go:250-324 | a pass attempts a rescale exactly when a bound is violated or the clamped proposal differs and its own window has passed |
| `PassTheorems.ComputedDirection` | pkg/controller/chpa/chpa_controller.go:280-293 | the clamped count is within the allowed interval; above current only if some metric proposes more, below only if all propose fewer |
| `PassTheorems.EndToEndDirection` | pkg/controller/chpa/chpa_controller.go:265-324 | the same for every write of the metrics branch, which never writes the current count |
| `PassTheorems.ProposedAtTimely` | pkg/controller/chpa/chpa_controller.go:281-285 | if samples are stamped before the clock reading that follows the last fetch, so is the timestamp the windows are compared with |
| `PassTheorems.SpecToleranceIsIgnored` | pkg/controller/chpa/chpa_controller.go:95 | the tolerance field of the specification has no influence on a pass |
| `PassLaws.CorrectionIs` | pkg/controller/chpa/chpa_controller.go:250-263 | above the maximum the target is the maximum, below a configured minimum that minimum, at zero without one it is 1; a disabled deployment is left alone |
| `PassLaws.CorrectionIsNearest` | pkg/controller/chpa/chpa_controller.go:255-263 | when the minimum does not exceed the maximum a correction goes to the nearest count within the bounds |
| `PassLaws.DecisionIs` | pkg/controller/chpa/chpa_controller.go:280-324 | the metrics branch in the specification's own fields: the largest proposal clamped between minimum, maximum and limit, compared with the current count, and the window of that direction measured in seconds from the last scale time to the winning sample's timestamp |
| `PassLaws.RequestDecisionIs` | pkg/controller/chpa/chpa_controller.go:161-222 | the same for a request on a stored object in its ranges, with 300, 300, 2.0 and 4 where nothing is given |
| `PassLaws.RequestCorrectionIs` | pkg/controller/chpa/chpa_controller.go:161-222 | corrections of a request go by the stored bounds |
| `PassLaws.DefaultedIsSane` | pkg/controller/chpa/chpa_controller.go:477-493 | the specification a request runs its pass on satisfies what the run theorems ask for, whenever the stored one is in its ranges |
| `PassLaws.DisabledReports` | pkg/controller/chpa/chpa_controller.go:250-254 | conditions and counts after a pass over a disabled deployment |
| `PassLaws.CorrectionReports` | pkg/controller/chpa/chpa_controller.go:255-263 | conditions, counts and scale time after a correction, written or refused |
| `PassLaws.FailureReports` | pkg/controller/chpa/chpa_controller.go:265-277 | conditions after metrics that could not be computed, with the error's reason; only the current count moves |
| `PassLaws.DecisionReports` | pkg/controller/chpa/chpa_controller.go:278-346 | conditions and counts after the metrics branch: the winning metric, how the proposal was limited, and the update's outcome or the windows in force |
| `PassLaws.StoreFailureReports` | pkg/controller/chpa/chpa_controller.go:268-334 | a failed store is reported, in memory only, exactly on the paths that had failed before |
| `ControlLoop.InBoundsStep` | pkg/controller/chpa/chpa_controller.go:250-349 | one event keeps specified and observed counts within the bounds, whatever writes fail |
| `ControlLoop.InBoundsForever` | pkg/controller/chpa/chpa_controller.go:250-349 | once within the bounds a run never leaves them, and every later write is decided by the metrics |
| `ControlLoop.CorrectionReachesBoundsIff` | pkg/controller/chpa/chpa_controller.go:255-263 | from outside, one corrective rescale and catch-up reach the bounds if and only if the configured minimum does not exceed the maximum |
| `ControlLoop.MinAboveMaxOscillates` | pkg/controller/chpa/chpa_controller.go:255-263 | otherwise, over every run of passes and catch-ups, each pass rescales and from the second on the count alternates between the two bounds |
| `ControlLoop.RecordIsKept` | pkg/controller/chpa/chpa_controller.go:345-371 | after a stored rescale the stored scale time never falls behind its record, over any run |
| `ControlLoop.RescaleWaits` | pkg/controller/chpa/chpa_controller.go:536-566 | a metrics-driven rescale waits for strictly more than its own window after the recorded scale time |
| `ControlLoop.WindowSeparation` | pkg/controller/chpa/chpa_controller.go:536-566 | over every run a metrics-driven upscale (downscale) decides strictly more than its window after any earlier stored rescale, of either direction and any reason |
| `ControlLoop.WindowIsArmedIff` | pkg/controller/chpa/chpa_controller.go:345-346 | a rescale arms later windows if and only if its final status write succeeds; its failure is dropped and the stored status stays as it was |
| `LostRecord.TwoUpscalesInOneWindow` | pkg/controller/chpa/chpa_controller.go:346 | a concrete run with two upscales in one upscale window, after a dropped status write |
| `Growth.BoundClosedForm` | pkg/controller/chpa/chpa_controller.go:532-534 | k applications of the scale-up limit to c0 give max(f^k*c0, f^(k-1)*m) |
| `Growth.GrowthStep` | pkg/controller/chpa/chpa_controller.go:280-324 | one event raises the bound on both counts by one application of the limit, and only if it upscales |
| `Growth.GrowthOverRuns` | pkg/controller/chpa/chpa_controller.go:296-349 | no count of a run exceeds the bound for the upscales so far |
| `Growth.SpacedOverRuns` | pkg/controller/chpa/chpa_controller.go:536-566 | k upscales have pushed the stored scale time at least k-1 windows past the start |
| `Growth.GrowthOverTime` | pkg/controller/chpa/chpa_controller.go:532-566 | a run of length D with window W and stored rescales has at most 1 + floor(D/W) upscales, and its count is at most the maximum and at most max(f^k*c0, f^(k-1)*m) |
| `Demands.WantedIsEither` | pkg/controller/chpa/replica_calculator.go:354-361 | several external metrics with per-pod targets together propose the current count or the largest need ceil(U_i/T_i), never anything between; the former exactly when no metric asks for more and some metric asks for as many |
| `Convergence.DemandComputed` | pkg/controller/chpa/chpa_controller.go:568-726 | the fold over those metrics computes just that proposal, with the timestamp of one of their samples unless it is zero |
| `Convergence.NextCountApproaches` | pkg/controller/chpa/chpa_controller.go:280-296 | under constant per-pod demands one unhindered pass stays in bounds and between the count and the goal clamp(max_i ceil(U_i/T_i)); it stands still exactly at the goal, within tolerance, or when the limit allows no growth |
| `Convergence.SettlesWithinDistance` | pkg/controller/chpa/chpa_controller.go:280-296 | the distance to the goal bounds the number of rounds until a fixed point |
| `Convergence.SettlesLogarithmically` | pkg/controller/chpa/chpa_controller.go:532-534 | with a factor of at least 2 as many rounds suffice as doublings reach the goal, and the fixed point is the goal or within tolerance |
| `Convergence.PassFollowsNextCount` | pkg/controller/chpa/replica_calculator.go:340-362 | an actual pass of the state machine leaves exactly that next count in the deployment |
| `Convergence.RoundsFollowIterates` | pkg/controller/chpa/chpa_controller.go:280-349 | so do runs of passes and catch-ups of any length |
| `Convergence.RoundsConverge` | pkg/controller/chpa/chpa_controller.go:280-349 | such runs approach the goal monotonically, never overshoot it, and settle within the distance or the doublings |
| `Settling.PassOrStay` | pkg/controller/chpa/chpa_controller.go:250-349 | any pass that observes the demand, hindered or failing, leaves the specified count or sets it to the next count, and does the latter when nothing hinders it |
| `Settling.StaysBetween` | pkg/controller/chpa/chpa_controller.go:280-349 | over every run whose passes observe the demand, with forbidden windows, failed writes and partial catch-up, both counts stay between the extremes of the start counts and the goal |
| `Settling.NextCountToward` | pkg/controller/chpa/chpa_controller.go:280-296 | nearer to the goal the next count is no farther from it |
| `Settling.SettlesForGood` | pkg/controller/chpa/chpa_controller.go:280-349 | over every such run from a caught-up start: once as many unhindered passes over a caught-up deployment have happened as the distance to the goal, or as doublings reach it, a caught-up deployment is at a fixed point and neither count ever moves again |
| `Quiescence.SteadyReplay` | pkg/controller/chpa/chpa_controller.go:448-475 | replaying calls that agree on each type's status changes neither texts nor times nor order |
| `Quiescence.BackoffStampsTime` | pkg/controller/chpa/chpa_controller.go:237-315 | a pass held back by a window turns AbleToScale on and off, so the entry's time is that of the refusal in this very pass |
| `Quiescence.BackoffEnds` | pkg/controller/chpa/chpa_controller.go:299-315 | a window in force in a later pass over an unchanged world was in force in the earlier one |
| `Quiescence.SameAssessment` | pkg/controller/chpa/chpa_controller.go:237-321 | outside the windows a pass that did not rescale decides the same the next time, up to clock readings |
| `Quiescence.QuietForeverIff` | pkg/controller/chpa/chpa_controller.go:237-349 | over any number of later passes of an unchanged world none writes and the stored status, transition times included, never changes again, if and only if no forbidden window held the first pass back |
| `Quiescence.QuietIff` | pkg/controller/chpa/chpa_controller.go:237-349 | after a stored pass that did not rescale, the next pass over an unchanged world writes nothing and keeps every transition time if and only if no forbidden window held the earlier one back |
| `WorkQueue.HandledHow` | pkg/controller/chpa/chpa_controller.go:161-222 | a request is dropped exactly for a missing or invalid object or a panicking pass, and repeated otherwise |
| `WorkQueue.ScheduledStep` | pkg/controller/chpa/chpa_controller.go:110-119 | every step keeps a valid cached object scheduled unless its pass panics; every delivered change of the specification, and nothing else, changes validity, and it schedules the key |
| `WorkQueue.NoValidCHPAIsDropped` | pkg/controller/chpa/chpa_controller.go:161-230 | in every reachable state, with a watch that delivers late and in any portions, a CHPA whose cached specification is valid is queued, waiting or in a request that will return, unless a pass panicked since its specification last changed |
| `WorkQueue.OutstandingDeliveriesSchedule` | pkg/controller/chpa/chpa_controller.go:110-119 | when the stored specification differs from the cached one, versions are pending whose delivery brings the cache up to date and schedules the key |
| `WorkQueue.AlwaysInStep` | pkg/controller/chpa/chpa_controller.go:124-137 | over every run the newest version delivered or pending is the stored one |
| `WorkQueue.LeavesQueueIff` | vendor/sigs.k8s.io/controller-runtime/pkg/internal/controller/controller.go:171-229 | a request that nothing else scheduled leaves the queue exactly for an absent or invalid object or a panic on a nil replica count |
| `WorkQueue.RevisionsAlwaysAgree` | pkg/controller/chpa/chpa_controller.go:737-739 | over every run, what is read, delivered, pending and stored under one revision is the same object, so a write that is not refused meets the specification it read |
| `WorkQueue.OwnWrite` | pkg/controller/chpa/chpa_controller.go:477-493 | a write of the controller stores the defaults of exactly the specification that is there |
| `WorkQueue.SelfWakeupsBounded` | pkg/controller/chpa/chpa_controller.go:110-119 | over every run the controller's own writes pass the update predicate at most once per specification a user wrote |
| `WorkQueue.WatchWakeupsBounded` | pkg/controller/chpa/chpa_controller.go:110-119 | over every run the watch wakes the controller at most twice per specification written and once per deletion, however late and in whatever portions versions are delivered and however often a status is stored |

## Left out

- IEEE 754 rounding, and 32-bit and 64-bit wrap-around: ratios are exact reals and counts unbounded integers.
- Truncation of stored times to whole seconds: a stored time reads back as it was written.
- Status.DeepCopyInto: aliasing is modelled for the condition list, the only part written in place; metric statuses, scale time and generation are values.
- GetResourceReplicas and GetPlainReplicas: the fetched map is a value that the loops reassign, so that the deletions also reach the metrics client's copy is not visible.
- Zero and negative metric targets, at which the source divides by zero or reverses signs.
- ProposeForMetric, FoldMetrics and ComputeReplicasForMetrics: ask for a positive current count, which the branch that calls them has established.
- GetObjectMetricReplicas and the delegating GetRawResourceReplicas and GetMetricReplicas: one division or a fetch each; they have no row of their own (the first is covered by ScaledCapacity and ProposeForMetric, the latter two share GetPlainReplicas).
- ShouldScale, ConvertDesiredReplicas, ScaleUpLimitFor and UpdatePredicate: pure functions that transcribe the source; what they mean is stated by DecisionIs, ClampIsProjection, LimitIsTruncated and the WorkQueue lemmas.
- RoundsConverge and SettlesForGood: cover external metrics with per-pod targets, the case in which the goal does not depend on the current count.
- GrowthOverTime: starts at the first state of the run it is given; an interval of a longer run is such a run.
- NoValidCHPAIsDropped: the cache update and the event handler of one delivery are one step, and the queue's rate limiter and shutdown are not modelled.
- ReconcileObject: a panic is modelled at the one place where the modelled state can cause one, the nil replica count; the fetched lists and pointers behind a valid specification are assumed well-formed.
- Kubernetes clients, metric fetching, label selection, event recording and logging: their results are parameters.
- Message texts and `resource.Quantity` formatting: a message is its reason plus the number, metric or error it mentions; the external metric's selector is not part of its name.
- Owner references and garbage collection: a deployment owned by another controller is one of the read outcomes.
- Manager start-up, scheme registration, CRD and RBAC manifests: no algorithm.
- `String()` helpers, deep copies other than that of the status, and `getLastScaleTime`, which none of the modelled code calls.
