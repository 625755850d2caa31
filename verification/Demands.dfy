/**
 A constant demand on several external metrics with per-pod targets, and the count that the
 metrics together propose for it: the current count or the largest need, never anything between.
 */
module Demands {
  import opened Arithmetic
  import opened PodMetrics
  import opened ReplicaCalculators

  /** `total` units of load against `target` units per pod. */
  datatype Share = Share(total: nat, target: Target)

  datatype Demand = Demand(shares: seq<Share>, tolerance: real)

  /** The proposal of one metric at `c` replicas. */
  function WantedBy(s: Share, tolerance: real, c: int): int
    requires 0 < c
  {
    PerPodReplicas(s.total, s.target, c, tolerance)
  }

  /** The whole load of one metric, in replicas. */
  function NeededBy(s: Share): int {
    Ceil(Ratio(s.total, s.target))
  }

  /** The metric is content with `c` replicas. */
  predicate Calm(s: Share, tolerance: real, c: int)
    requires 0 < c
  {
    PositiveProduct(s.target, c);
    Abs(1.0 - Ratio(s.total, s.target * c)) <= tolerance
  }

  function Largest(values: seq<int>): int {
    if values == [] then 0 else Max(Largest(values[..|values| - 1]), values[|values| - 1])
  }

  function WantedEach(d: Demand, c: int): seq<int>
    requires 0 < c
  {
    seq(|d.shares|, i requires 0 <= i < |d.shares| => WantedBy(d.shares[i], d.tolerance, c))
  }

  function NeededEach(d: Demand): seq<int> {
    seq(|d.shares|, i requires 0 <= i < |d.shares| => NeededBy(d.shares[i]))
  }

  /** The unclamped proposal of all metrics at `c` replicas. */
  function Wanted(d: Demand, c: int): int
    requires 0 < c
  {
    Largest(WantedEach(d, c))
  }

  /** The largest need. */
  function Needed(d: Demand): int {
    Largest(NeededEach(d))
  }

  /** No metric asks for more than `c` replicas, and some metric asks for as many. */
  predicate WithinTolerance(d: Demand, c: int)
    requires 0 < c
  {
    && (forall i :: 0 <= i < |d.shares| ==> Calm(d.shares[i], d.tolerance, c) || NeededBy(d.shares[i]) <= c)
    && (exists i :: 0 <= i < |d.shares| && (Calm(d.shares[i], d.tolerance, c) || NeededBy(d.shares[i]) == c))
  }

  lemma {:induction false} LargestIs(values: seq<int>) returns (w: nat)
    requires forall i :: 0 <= i < |values| ==> 0 <= values[i]
    ensures 0 <= Largest(values) && (forall i :: 0 <= i < |values| ==> values[i] <= Largest(values))
    ensures values == [] ==> Largest(values) == 0
    ensures values != [] ==> w < |values| && values[w] == Largest(values)
  {
    w := 0;
    if values != [] {
      var n := |values| - 1;
      var v := LargestIs(values[..n]);
      w := if n == 0 || Largest(values[..n]) <= values[n] then n else v;
    }
  }

  lemma {:induction false} ShareWants(s: Share, tolerance: real, c: int)
    requires 0 < c
    ensures 0 <= NeededBy(s) && 0 <= WantedBy(s, tolerance, c)
    ensures WantedBy(s, tolerance, c) == if Calm(s, tolerance, c) then c else NeededBy(s)
  {
    RatioVersusOne(s.total, s.target);
  }

  lemma {:induction false} Cancel(a: real, b: real, t: real)
    requires 0.0 < t && a * t == b * t
    ensures a == b
  {
    MulOrder(a, b, t);
    MulOrder(b, a, t);
  }

  lemma {:induction false} RatioPerPod(total: int, target: Target, c: int)
    requires 0 < c
    ensures 0 < target * c && Ratio(total, target) == Ratio(total, target * c) * c as real
  {
    PositiveProduct(target, c);
    RatioTimes(total, target);
    RatioTimes(total, target * c);
    ProductAsReal(target, c);
    var r, t, x := Ratio(total, target * c), target as real, c as real;
    assert (r * x) * t == r * (t * x);
    Cancel(Ratio(total, target), r * x, t);
  }

  lemma {:induction false} LouderIsLarger(a: real, b: real, ra: real, rb: real, x: real, tolerance: real)
    requires 0.0 < x && a == ra * x && b == rb * x && x < b
    requires Abs(1.0 - ra) <= tolerance < Abs(1.0 - rb)
    ensures a <= b
  {
    MulOrder(1.0, rb, x);
    MulOrder(ra, rb, x);
  }

  /** A metric that asks for more pods needs at least as many as one that is content. */
  lemma {:induction false} LoudNeedsMore(a: Share, b: Share, tolerance: real, c: int)
    requires 0 < c && Calm(a, tolerance, c) && !Calm(b, tolerance, c) && NeededBy(b) > c
    ensures NeededBy(a) <= NeededBy(b)
  {
    RatioPerPod(a.total, a.target, c);
    RatioPerPod(b.total, b.target, c);
    var xa, xb := Ratio(a.total, a.target), Ratio(b.total, b.target);
    assert xb > c as real;
    LouderIsLarger(xa, xb, Ratio(a.total, a.target * c), Ratio(b.total, b.target * c), c as real, tolerance);
    CeilMonotone(xa, xb);
    hide Ratio, Ceil;
  }

  /** The choice among calm and loud metrics, told on numbers alone. */
  lemma {:induction false} CalmOrLoudest(
    calm: seq<bool>, need: seq<int>, want: seq<int>, c: int, w: nat, m: nat)
    requires 0 < c && w < |want| && m < |want| == |need| == |calm|
    requires forall i :: 0 <= i < |want| ==> want[i] == (if calm[i] then c else need[i])
    requires forall i :: 0 <= i < |want| ==> want[i] <= want[w] && need[i] <= need[m]
    requires calm[m] && !calm[w] && need[w] > c ==> need[m] <= need[w]
    ensures want[w] == c || want[w] == need[m]
    ensures want[w] == c <==>
      (forall i :: 0 <= i < |want| ==> calm[i] || need[i] <= c)
        && (exists i :: 0 <= i < |want| && (calm[i] || need[i] == c))
  {
    assert want[m] <= want[w] && need[w] <= need[m];
    if want[w] == c {
      assert calm[w] || need[w] == c;
    }
    if exists i :: 0 <= i < |want| && (calm[i] || need[i] == c) {
      var i :| 0 <= i < |want| && (calm[i] || need[i] == c);
      assert want[i] <= want[w];
    }
  }

  function CalmEach(d: Demand, c: int): seq<bool>
    requires 0 < c
  {
    seq(|d.shares|, i requires 0 <= i < |d.shares| => Calm(d.shares[i], d.tolerance, c))
  }

  lemma {:induction false} EachWants(d: Demand, c: int)
    requires 0 < c
    ensures var (calm, need, want) := (CalmEach(d, c), NeededEach(d), WantedEach(d, c));
      forall i :: 0 <= i < |d.shares| ==>
        0 <= need[i] && 0 <= want[i] && want[i] == if calm[i] then c else need[i]
  {
    forall i | 0 <= i < |d.shares| {
      ShareWants(d.shares[i], d.tolerance, c);
    }
    hide Calm, NeededBy, WantedBy;
  }

  lemma {:induction false} WithinToleranceEach(d: Demand, c: int)
    requires 0 < c
    ensures var (calm, need, n) := (CalmEach(d, c), NeededEach(d), |d.shares|);
      WithinTolerance(d, c) <==>
        (forall i :: 0 <= i < n ==> calm[i] || need[i] <= c) && (exists i :: 0 <= i < n && (calm[i] || need[i] == c))
  {
    hide Calm, NeededBy;
    var calm, need := CalmEach(d, c), NeededEach(d);
    forall i | 0 <= i < |d.shares|
      ensures calm[i] == Calm(d.shares[i], d.tolerance, c) && need[i] == NeededBy(d.shares[i])
    {
    }
    if exists i :: 0 <= i < |d.shares| && (calm[i] || need[i] == c) {
      var i :| 0 <= i < |d.shares| && (calm[i] || need[i] == c);
      assert Calm(d.shares[i], d.tolerance, c) || NeededBy(d.shares[i]) == c;
    }
    if WithinTolerance(d, c) {
      var i :| 0 <= i < |d.shares| && (Calm(d.shares[i], d.tolerance, c) || NeededBy(d.shares[i]) == c);
      assert calm[i] || need[i] == c;
    }
  }

  /**
   Together the metrics ask for the current count or for the largest need; for the former exactly within
   tolerance.
   */
  lemma {:induction false} WantedIsEither(d: Demand, c: int)
    requires 0 < c
    ensures 0 <= Wanted(d, c) && 0 <= Needed(d)
    ensures Wanted(d, c) == c || Wanted(d, c) == Needed(d)
    ensures Wanted(d, c) == c <==> WithinTolerance(d, c)
  {
    var calm, need, want := CalmEach(d, c), NeededEach(d), WantedEach(d, c);
    EachWants(d, c);
    WithinToleranceEach(d, c);
    var w := LargestIs(want);
    var m := LargestIs(need);
    if d.shares != [] {
      if calm[m] && !calm[w] && need[w] > c {
        LoudNeedsMore(d.shares[m], d.shares[w], d.tolerance, c);
      }
      hide Calm, NeededBy, WantedBy, Largest, WithinTolerance, CalmEach, NeededEach, WantedEach;
      CalmOrLoudest(calm, need, want, c, w, m);
    }
    hide Calm, NeededBy, WantedBy;
  }
}
