/**
 Pods, the metric maps the metrics client returns for them, and sums over such
 maps that do not depend on the order in which a map is walked.
 */
module PodMetrics {
  import opened Wrappers

  /** Nanoseconds since Go's zero time. */
  type Time = int

  const ZERO_TIME: Time := 0

  /** A metric target: a positive milli-value or percentage. */
  type Target = t: int | 0 < t witness 1

  type Metrics = map<string, int>

  datatype Phase = Pending | Running | Succeeded | Failed | UnknownPhase

  /** `requests` holds, per container, the requested milli-value of the resource, if any. */
  datatype Pod = Pod(name: string, phase: Phase, conditionReady: bool, requests: seq<Option<nat>>) {
    predicate IsReady() {
      phase == Running && conditionReady
    }

    predicate HasAllRequests() {
      forall c :: 0 <= c < |requests| ==> requests[c].Some?
    }

    /** The pod's request: the sum over its containers. */
    function Request(): nat {
      SumRequests(requests)
    }
  }

  function SumRequests(requests: seq<Option<nat>>): nat {
    if requests == [] then 0
    else SumRequests(requests[..|requests| - 1]) + requests[|requests| - 1].GetOr(0)
  }

  /** Kubernetes object names are unique within a namespace. */
  predicate UniqueNames(pods: seq<Pod>) {
    forall i, j :: 0 <= i < j < |pods| ==> pods[i].name != pods[j].name
  }

  function PodSet(pods: seq<Pod>): set<Pod> {
    set p | p in pods
  }

  ghost predicate Injective(pods: set<Pod>) {
    forall p, q :: p in pods && q in pods && p.name == q.name ==> p == q
  }

  // ---- the four classes of the pod loop, as set comprehensions ----

  ghost function Names(pods: set<Pod>): set<string> {
    set p | p in pods :: p.name
  }

  ghost function ReadyNames(pods: set<Pod>, metrics: Metrics): set<string> {
    set p | p in pods && p.IsReady() && p.name in metrics :: p.name
  }

  ghost function MissingNames(pods: set<Pod>, metrics: Metrics): set<string> {
    set p | p in pods && p.IsReady() && p.name !in metrics :: p.name
  }

  ghost function UnreadyNames(pods: set<Pod>): set<string> {
    set p | p in pods && !p.IsReady() && p.phase != Failed :: p.name
  }

  ghost function FailedNames(pods: set<Pod>): set<string> {
    set p | p in pods && !p.IsReady() && p.phase == Failed :: p.name
  }

  /** Everything the loop deletes from the metric map. */
  ghost function NotReadyNames(pods: set<Pod>): set<string> {
    set p | p in pods && !p.IsReady() :: p.name
  }

  ghost function NonFailedNames(pods: set<Pod>): set<string> {
    set p | p in pods && p.phase != Failed :: p.name
  }

  ghost function RequestsOf(pods: set<Pod>): (requests: Metrics)
    requires Injective(pods)
    ensures requests.Keys == Names(pods)
    ensures forall p :: p in pods ==> requests[p.name] == p.Request()
  {
    map p | p in pods :: p.name := p.Request()
  }

  lemma {:induction false} ClassesDisjoint(pods: set<Pod>, metrics: Metrics)
    requires Injective(pods)
    ensures ReadyNames(pods, metrics) !! MissingNames(pods, metrics)
    ensures ReadyNames(pods, metrics) + MissingNames(pods, metrics) !! NotReadyNames(pods)
    ensures UnreadyNames(pods) !! FailedNames(pods)
  {
  }

  lemma {:induction false} ClassesCover(pods: set<Pod>, metrics: Metrics)
    ensures UnreadyNames(pods) + FailedNames(pods) == NotReadyNames(pods)
    ensures ReadyNames(pods, metrics) + MissingNames(pods, metrics) + UnreadyNames(pods) == NonFailedNames(pods)
    ensures ReadyNames(pods, metrics) + MissingNames(pods, metrics) + NotReadyNames(pods) == Names(pods)
  {
  }

  /** What the loop leaves in the metric map: the ready pods, and keys of no listed pod. */
  lemma {:induction false} KeptKeys(pods: set<Pod>, metrics: Metrics)
    requires Injective(pods)
    ensures (metrics - NotReadyNames(pods)).Keys == ReadyNames(pods, metrics) + (metrics.Keys - Names(pods))
  {
    var kept := (metrics - NotReadyNames(pods)).Keys;
    forall k | k in kept
      ensures k in ReadyNames(pods, metrics) + (metrics.Keys - Names(pods))
    {
      if k in Names(pods) {
        var p :| p in pods && p.name == k;
        assert k !in NotReadyNames(pods);
        assert p.IsReady();
      }
    }
    forall k | k in ReadyNames(pods, metrics) + (metrics.Keys - Names(pods))
      ensures k in kept
    {
      ClassesDisjoint(pods, metrics);
      ClassesCover(pods, metrics);
    }
  }

  /** The four classes of the loop partition the listed pods. */
  lemma {:induction false} ClassesPartition(pods: set<Pod>, metrics: Metrics)
    requires Injective(pods)
    ensures |NonFailedNames(pods)| == |ReadyNames(pods, metrics)| + |MissingNames(pods, metrics)| + |UnreadyNames(pods)|
    ensures |Names(pods)| == |NonFailedNames(pods)| + |FailedNames(pods)|
    ensures |Names(pods)| == |ReadyNames(pods, metrics)| + |MissingNames(pods, metrics)| + |NotReadyNames(pods)|
  {
    ClassesDisjoint(pods, metrics);
    ClassesCover(pods, metrics);
    var r, m, u, f := ReadyNames(pods, metrics), MissingNames(pods, metrics), UnreadyNames(pods), FailedNames(pods);
    SizeOfUnion(r, m);
    SizeOfUnion(r + m, u);
    SizeOfUnion(u, f);
    SizeOfUnion(r + m, u + f);
  }

  lemma {:induction false} SizeOfUnion<T>(a: set<T>, b: set<T>)
    requires a !! b
    ensures |a + b| == |a| + |b|
  {
    assert a + b - a == b;
  }

  // ---- order-free sums ----

  /** The sum of `m` over `keys`; the key picked first is irrelevant, see `SumPick`. */
  ghost function SumOf(m: Metrics, keys: set<string>): int
    requires keys <= m.Keys
    decreases keys
  {
    if keys == {} then 0 else
      var k :| k in keys;
      m[k] + SumOf(m, keys - {k})
  }

  lemma {:induction false} SumPick(m: Metrics, keys: set<string>, k: string)
    requires k in keys && keys <= m.Keys
    ensures SumOf(m, keys) == m[k] + SumOf(m, keys - {k})
    decreases keys
  {
    var j :| j in keys && SumOf(m, keys) == m[j] + SumOf(m, keys - {j});
    if j != k {
      SumPick(m, keys - {j}, k);
      SumPick(m, keys - {k}, j);
      assert keys - {j} - {k} == keys - {k} - {j};
    }
  }

  lemma {:induction false} SumUnion(m: Metrics, a: set<string>, b: set<string>)
    requires a + b <= m.Keys && a !! b
    ensures SumOf(m, a + b) == SumOf(m, a) + SumOf(m, b)
    decreases b
  {
    if b == {} {
      assert a + b == a;
    } else {
      var k :| k in b;
      SumPick(m, b, k);
      SumPick(m, a + b, k);
      assert a + b - {k} == a + (b - {k});
      SumUnion(m, a, b - {k});
    }
  }

  /** Pointwise order lifts to sums; used both ways it gives congruence. */
  lemma {:induction false} SumMonotone(m: Metrics, m': Metrics, keys: set<string>)
    requires keys <= m.Keys && keys <= m'.Keys
    requires forall k :: k in keys ==> m[k] <= m'[k]
    ensures SumOf(m, keys) <= SumOf(m', keys)
    decreases keys
  {
    if keys != {} {
      var k :| k in keys;
      SumPick(m, keys, k);
      SumPick(m', keys, k);
      SumMonotone(m, m', keys - {k});
    }
  }

  lemma {:induction false} SumAgree(m: Metrics, m': Metrics, keys: set<string>)
    requires keys <= m.Keys && keys <= m'.Keys
    requires forall k :: k in keys ==> m[k] == m'[k]
    ensures SumOf(m, keys) == SumOf(m', keys)
  {
    SumMonotone(m, m', keys);
    SumMonotone(m', m, keys);
  }

  lemma {:induction false} SumConstant(m: Metrics, keys: set<string>, v: int)
    requires keys <= m.Keys
    requires forall k :: k in keys ==> m[k] == v
    ensures SumOf(m, keys) == v * |keys|
    decreases keys
  {
    if keys != {} {
      var k :| k in keys;
      SumPick(m, keys, k);
      SumConstant(m, keys - {k}, v);
      assert |keys| == |keys - {k}| + 1;
      assert v * (|keys - {k}| + 1) == v * |keys - {k}| + v;
    }
  }

  lemma {:induction false} SumNonNegative(m: Metrics, keys: set<string>)
    requires keys <= m.Keys
    requires forall k :: k in keys ==> 0 <= m[k]
    ensures 0 <= SumOf(m, keys)
  {
    var zeros := map k | k in keys :: 0;
    SumConstant(zeros, keys, 0);
    SumMonotone(zeros, m, keys);
  }
}
