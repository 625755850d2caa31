/**
 Status conditions: the list a pass updates in place, what one update does to it,
 and what any sequence of updates leaves behind.
 */
module Conditions {
  import opened PodMetrics
  import opened ReplicaCalculators

  datatype ConditionType = AbleToScale | ScalingActive | ScalingLimited | OtherType(name: string)

  /** `Unset` is the empty status of an entry that was just appended. */
  datatype ConditionStatus = CondTrue | CondFalse | CondUnknown | Unset

  datatype Reason =
    | NoReason
    | SucceededGetScale | ScalingDisabled | FailedUpdateReplicas | FailedUpdateScale | SucceededRescale
    | BackoffDownscale | BackoffUpscale | BackoffBoth | ReadyForNewScale
    | ValidMetricFound | InvalidSelector | FailedGetObjectMetric | FailedGetPodsMetric
    | FailedGetResourceMetric | FailedGetExternalMetric | InvalidMetricSourceType
    | ScaleUpLimit | TooManyReplicas | TooFewReplicas | DesiredWithinRange
    | FailedSpecCheck | FailedProcessCHPA

  datatype SourceKind = ObjectSource | PodsSource | RawResourceSource | ResourceSource | ExternalSource

  /** The name under which a metric's proposal is reported. */
  datatype MetricName = NoMetric | MetricName(source: SourceKind, name: string)

  datatype MetricError =
    | SelectorRequired | SelectorInvalid | NoTarget(source: SourceKind) | UnknownSource
    | CalculationFailed(source: SourceKind, error: CalcError)

  /** The texts of `convertDesiredReplicasWithRules`. */
  datatype LimitText = IncreasingTooFast | AboveMaximum | WithinRange

  /** The variable part of a condition's message; the fixed part goes with the reason. */
  datatype Message =
    | Plain
    | Naming(metric: MetricName)
    | Counting(replicas: int)
    | Failing(error: MetricError)
    | Limiting(text: LimitText)

  datatype Condition = Condition(typ: ConditionType, status: ConditionStatus, reason: Reason, message: Message,
    lastTransition: Time)

  /** One call of `setCondition`, with the clock reading it would use. */
  datatype Update = Update(typ: ConditionType, status: ConditionStatus, reason: Reason, message: Message, at: Time)

  // ---- specification ----

  function Appended(typ: ConditionType): Condition {
    Condition(typ, Unset, NoReason, Plain, ZERO_TIME)
  }

  /** The transition time moves only when the status does. */
  function Touch(c: Condition, u: Update): Condition {
    Condition(c.typ, u.status, u.reason, u.message, if c.status != u.status then u.at else c.lastTransition)
  }

  /** The first position of a type, or the length of the list. */
  function IndexOf(conds: seq<Condition>, typ: ConditionType): (i: nat)
    ensures i <= |conds|
    ensures i < |conds| ==> conds[i].typ == typ
    ensures forall j :: 0 <= j < i ==> conds[j].typ != typ
  {
    if conds == [] then 0
    else if conds[0].typ == typ then 0
    else 1 + IndexOf(conds[1..], typ)
  }

  function ApplyUpdate(conds: seq<Condition>, u: Update): seq<Condition> {
    var i := IndexOf(conds, u.typ);
    if i < |conds| then conds[i := Touch(conds[i], u)] else conds + [Touch(Appended(u.typ), u)]
  }

  function ApplyAll(conds: seq<Condition>, log: seq<Update>): seq<Condition> {
    if log == [] then conds
    else ApplyUpdate(ApplyAll(conds, log[..|log| - 1]), log[|log| - 1])
  }

  lemma {:induction false} ApplyOneMore(conds: seq<Condition>, log: seq<Update>, u: Update)
    ensures ApplyAll(conds, log + [u]) == ApplyUpdate(ApplyAll(conds, log), u)
  {
    assert (log + [u])[..|log|] == log;
  }

  ghost predicate UniqueTypes(conds: seq<Condition>) {
    forall i, j :: 0 <= i < j < |conds| ==> conds[i].typ != conds[j].typ
  }

  /** The entry of a type, or the blank one that an update would append. */
  function Entry(conds: seq<Condition>, typ: ConditionType): Condition {
    var i := IndexOf(conds, typ);
    if i < |conds| then conds[i] else Appended(typ)
  }

  // ---- the list in memory ----

  /** A Go slice: a window on a backing array that other slices may share. */
  datatype Slice = Slice(data: array<Condition>, len: nat) {
    predicate Ok() {
      len <= data.Length
    }

    function Contents(): seq<Condition>
      requires Ok()
      reads data
    {
      data[..len]
    }
  }

  /** `append`: in place while the backing array has room, into a fresh array otherwise. */
  method Append(list: Slice, c: Condition) returns (res: Slice)
    requires list.Ok()
    modifies list.data
    ensures res.Ok() && (res.data == list.data || fresh(res.data))
    ensures res.Contents() == old(list.Contents()) + [c]
  {
    if list.len < list.data.Length {
      list.data[list.len] := c;
      res := Slice(list.data, list.len + 1);
    } else {
      var data := new Condition[2 * list.len + 1](i => c);
      for i := 0 to list.len
        invariant data[..i] == old(list.data[..i])
        invariant data[list.len] == c
        invariant list.data[..] == old(list.data[..])
      {
        data[i] := list.data[i];
      }
      res := Slice(data, list.len + 1);
    }
  }

  /** The write through `&resList[i]`: it lands in the backing array. */
  method WriteEntry(list: Slice, i: nat, u: Update)
    requires list.Ok() && i < list.len
    modifies list.data
    ensures list.Contents() == old(list.Contents())[i := Touch(old(list.Contents())[i], u)]
  {
    var c := list.data[i];
    if c.status != u.status {
      c := c.(lastTransition := u.at);
    }
    list.data[i] := c.(status := u.status, reason := u.reason, message := u.message);
    assert list.Contents() == old(list.Contents())[i := Touch(old(list.Contents())[i], u)];
  }

  /** The loop over the list, and the append when it ran through. */
  method FindOrAppend(inputList: Slice, typ: ConditionType) returns (resList: Slice, existing: nat)
    requires inputList.Ok()
    modifies inputList.data
    ensures resList.Ok() && (resList.data == inputList.data || fresh(resList.data))
    ensures var before := old(inputList.Contents());
      && existing == IndexOf(before, typ)
      && resList.Contents() == if existing < |before| then before else before + [Appended(typ)]
  {
    resList := inputList;
    ghost var before := inputList.Contents();
    existing := 0;
    while existing < resList.len && resList.data[existing].typ != typ
      invariant existing <= resList.len
      invariant forall j :: 0 <= j < existing ==> before[j].typ != typ
    {
      existing := existing + 1;
    }
    if existing == resList.len {
      resList := Append(resList, Appended(typ));
    }
  }

  /** Finds or appends the entry of a type and writes it in place. */
  method SetConditionInList(
    inputList: Slice, typ: ConditionType, status: ConditionStatus, reason: Reason, message: Message, now: Time)
    returns (resList: Slice)
    requires inputList.Ok()
    modifies inputList.data
    ensures resList.Ok() && (resList.data == inputList.data || fresh(resList.data))
    ensures resList.Contents() == ApplyUpdate(old(inputList.Contents()), Update(typ, status, reason, message, now))
  {
    var existing;
    resList, existing := FindOrAppend(inputList, typ);
    WriteEntry(resList, existing, Update(typ, status, reason, message, now));
  }

  // ---- what one update does ----

  lemma {:induction false} OneUpdate(conds: seq<Condition>, u: Update)
    requires UniqueTypes(conds)
    ensures var res := ApplyUpdate(conds, u);
      && UniqueTypes(res)
      && |conds| <= |res|
      && (forall i :: 0 <= i < |conds| ==> res[i].typ == conds[i].typ)
      && (forall i :: 0 <= i < |conds| && conds[i].typ != u.typ ==> res[i] == conds[i])
      && (forall i :: |conds| <= i < |res| ==> res[i].typ == u.typ)
      && (forall typ :: Entry(res, typ) == if typ == u.typ then Touch(Entry(conds, typ), u) else Entry(conds, typ))
      && var (before, after) := (Entry(conds, u.typ), Entry(res, u.typ));
        && after.typ == u.typ && after.status == u.status && after.reason == u.reason && after.message == u.message
        && after.lastTransition == if before.status == u.status then before.lastTransition else u.at
  {
    var res := ApplyUpdate(conds, u);
    forall typ
      ensures Entry(res, typ) == if typ == u.typ then Touch(Entry(conds, typ), u) else Entry(conds, typ)
    {
      var i, j := IndexOf(conds, typ), IndexOf(res, typ);
      if i < |conds| {
        assert res[i].typ == typ;
        assert j == i;
      } else if typ == u.typ {
        assert res[|conds|].typ == typ && j == |conds|;
      } else {
        assert j == |res|;
      }
    }
  }

  // ---- what a sequence of updates leaves behind ----

  /**
   The status a type had before the updates of `log`, or after them when `log` is all of them: read off the
   log alone.
   */
  function StatusAfter(conds: seq<Condition>, log: seq<Update>, typ: ConditionType): ConditionStatus {
    if log == [] then Entry(conds, typ).status
    else if log[|log| - 1].typ == typ then log[|log| - 1].status
    else StatusAfter(conds, log[..|log| - 1], typ)
  }

  /** Call `k` changed the status of its type. */
  predicate Changes(conds: seq<Condition>, log: seq<Update>, k: nat)
    requires k < |log|
  {
    log[k].status != StatusAfter(conds, log[..k], log[k].typ)
  }

  lemma {:induction false} ListKept(conds: seq<Condition>, log: seq<Update>)
    requires UniqueTypes(conds)
    ensures var res := ApplyAll(conds, log);
      && UniqueTypes(res)
      && |conds| <= |res|
      && (forall i :: 0 <= i < |conds| ==> res[i].typ == conds[i].typ)
      && (forall i :: 0 <= i < |conds| && (forall k :: 0 <= k < |log| ==> log[k].typ != conds[i].typ) ==>
          res[i] == conds[i])
      && (forall i :: |conds| <= i < |res| ==> exists k :: 0 <= k < |log| && log[k].typ == res[i].typ)
  {
    if log != [] {
      var n := |log| - 1;
      ListKept(conds, log[..n]);
      OneUpdate(ApplyAll(conds, log[..n]), log[n]);
      var mid, res := ApplyAll(conds, log[..n]), ApplyAll(conds, log);
      forall i | |conds| <= i < |res|
        ensures exists k :: 0 <= k < |log| && log[k].typ == res[i].typ
      {
        if i < |mid| {
          var k :| 0 <= k < n && log[..n][k].typ == mid[i].typ;
          assert log[k].typ == res[i].typ;
        } else {
          assert log[n].typ == res[i].typ;
        }
      }
    }
  }

  lemma {:induction false} EntryStatus(conds: seq<Condition>, log: seq<Update>, typ: ConditionType)
    requires UniqueTypes(conds)
    ensures Entry(ApplyAll(conds, log), typ).status == StatusAfter(conds, log, typ)
  {
    if log != [] {
      var n := |log| - 1;
      ListKept(conds, log[..n]);
      EntryStatus(conds, log[..n], typ);
      OneUpdate(ApplyAll(conds, log[..n]), log[n]);
    }
  }

  /** If call `k` changed a type's status and no later call did, the entry carries the time of call `k`. */
  lemma {:induction false} LatestChangeSetsTime(conds: seq<Condition>, log: seq<Update>, k: nat)
    requires UniqueTypes(conds) && k < |log| && Changes(conds, log, k)
    requires forall j :: k < j < |log| && log[j].typ == log[k].typ ==> !Changes(conds, log, j)
    ensures Entry(ApplyAll(conds, log), log[k].typ).lastTransition == log[k].at
  {
    var n := |log| - 1;
    ListKept(conds, log[..n]);
    EntryStatus(conds, log[..n], log[k].typ);
    OneUpdate(ApplyAll(conds, log[..n]), log[n]);
    if k < n {
      ChangesInPrefix(conds, log);
      LatestChangeSetsTime(conds, log[..n], k);
      assert !(log[n].typ == log[k].typ) || !Changes(conds, log, n);
    }
  }

  lemma {:induction false} ChangesInPrefix(conds: seq<Condition>, log: seq<Update>)
    requires log != []
    ensures forall j: nat :: j < |log| - 1 ==> (Changes(conds, log[..|log| - 1], j) <==> Changes(conds, log, j))
  {
    forall j: nat | j < |log| - 1
      ensures Changes(conds, log[..|log| - 1], j) <==> Changes(conds, log, j)
    {
      assert log[..|log| - 1][..j] == log[..j];
    }
  }

  /** If no call changed a type's status, its stored time is kept. */
  lemma {:induction false} NoChangeKeepsTime(conds: seq<Condition>, log: seq<Update>, typ: ConditionType)
    requires UniqueTypes(conds)
    requires forall j :: 0 <= j < |log| && log[j].typ == typ ==> !Changes(conds, log, j)
    ensures Entry(ApplyAll(conds, log), typ).lastTransition == Entry(conds, typ).lastTransition
  {
    if log != [] {
      var n := |log| - 1;
      ListKept(conds, log[..n]);
      EntryStatus(conds, log[..n], typ);
      OneUpdate(ApplyAll(conds, log[..n]), log[n]);
      ChangesInPrefix(conds, log);
      NoChangeKeepsTime(conds, log[..n], typ);
    }
  }
}
