/**
 Concrete pods and metrics on which the calculator departs from what its comments
 promise: one entry of an unlisted pod reverses the direction, and landing exactly on
 the target lowers the count.
 */
module PodExamples {
  import opened Wrappers
  import opened Arithmetic
  import opened PodMetrics
  import opened ReplicaCalculators
  import opened ReplicaTheorems
  import opened PlainTheorems

  // ---- two listed pods, of which "b" is missing; "s" is not listed ----

  const POD_A := Pod("a", Running, true, [Some(100)])
  const POD_B := Pod("b", Running, true, [Some(100)])
  const TWO_PODS := {POD_A, POD_B}

  lemma {:induction false} TwoPodsNamed()
    ensures Injective(TWO_PODS) && !NoneListed(TWO_PODS) && !SomeRequestMissing(TWO_PODS)
    ensures Names(TWO_PODS) == {"a", "b"} == NonFailedNames(TWO_PODS)
    ensures NotReadyNames(TWO_PODS) == {} == UnreadyNames(TWO_PODS)
    ensures |NonFailedNames(TWO_PODS)| == 2
  {
    assert POD_A in TWO_PODS && POD_B in TWO_PODS;
    assert POD_A.name == "a" && POD_B.name == "b";
    assert |{"a", "b"}| == 2;
  }

  lemma {:induction false} TwoPodsSorted(metrics: Metrics)
    requires "a" in metrics && "b" !in metrics
    ensures ReadyNames(TWO_PODS, metrics) == {"a"} && MissingNames(TWO_PODS, metrics) == {"b"}
  {
    assert POD_A in TWO_PODS && POD_B in TWO_PODS;
    assert POD_A.name == "a" && POD_B.name == "b";
  }

  lemma {:induction false} OneContainer()
    ensures POD_A.Request() == 100 && POD_B.Request() == 100
  {
    assert POD_A.requests[..0] == [] && POD_B.requests[..0] == [];
  }

  lemma {:induction false} TwoPodsRequest()
    ensures Injective(TWO_PODS) && RequestsOf(TWO_PODS) == map["a" := 100, "b" := 100]
  {
    hide Injective, NoneListed, SomeRequestMissing, Names, NonFailedNames, NotReadyNames, UnreadyNames;
    TwoPodsNamed();
    OneContainer();
    var requests := RequestsOf(TWO_PODS);
    assert POD_A in TWO_PODS && POD_B in TWO_PODS && POD_A.name == "a" && POD_B.name == "b";
    assert requests[POD_A.name] == 100 && requests[POD_B.name] == 100;
    hide RequestsOf, TWO_PODS;
  }

  lemma {:induction false} SumOne(m: Metrics, k: string)
    requires k in m
    ensures SumOf(m, {k}) == m[k]
  {
    SumPick(m, {k}, k);
    assert {k} - {k} == {};
  }

  lemma {:induction false} TwoPodsTallied(metrics: Metrics)
    requires "a" in metrics && "b" !in metrics
    ensures Injective(TWO_PODS)
    ensures ResourceTally(TWO_PODS, metrics)
      == Tally(1, 1, 0, |metrics.Keys - {"a", "b"}|, metrics["a"], 100, 100, 0)
  {
    TwoPodsNamed();
    TwoPodsSorted(metrics);
    TwoPodsRequest();
    SumOne(metrics, "a");
    SumOne(RequestsOf(TWO_PODS), "a");
    SumOne(RequestsOf(TWO_PODS), "b");
    hide RequestsOf, ReadyNames, MissingNames, UnreadyNames, Names, Injective, SumOf;
    assert |{"a"}| == 1 && |{"b"}| == 1;
    assert SumOf(RequestsOf(TWO_PODS), {}) == 0 by {
      SumConstant(RequestsOf(TWO_PODS), {}, 0);
    }
  }

  function AStranger(a: int, s: int): Metrics {
    map["a" := a, "s" := s]
  }

  lemma {:induction false} OneStranger(a: int, s: int)
    requires 0 <= a && 0 <= s
    ensures Injective(TWO_PODS) && Accounted(TWO_PODS, AStranger(a, s), 2)
    ensures ResourceTally(TWO_PODS, AStranger(a, s)) == Tally(1, 1, 0, 1, a, 100, 100, 0)
  {
    hide ResourceTally, Injective, NonFailedNames;
    StrangerKeys(a, s);
    TwoPodsNamed();
    TwoPodsTallied(AStranger(a, s));
  }

  lemma {:induction false} StrangerKeys(a: int, s: int)
    ensures |AStranger(a, s).Keys - {"a", "b"}| == 1
    ensures AStranger(a, s)["a"] == a && "b" !in AStranger(a, s)
    ensures 0 <= a && 0 <= s ==> NonNegative(AStranger(a, s))
  {
    assert "b" !in {"a", "s"} && "s" !in {"a", "b"};
    assert AStranger(a, s).Keys - {"a", "b"} == {"s"};
  }

  /**
   One entry of an unlisted pod reverses the direction: at an eighth of the target two pods are
   answered with three replicas, while on the target they are answered with two.
   */
  lemma {:induction false} StrangersReverseDirection()
    ensures var low, high := AStranger(10, 0), AStranger(80, 0);
      && Injective(TWO_PODS) && Accounted(TWO_PODS, low, 2) && Accounted(TWO_PODS, high, 2)
      && LoadGrows(TWO_PODS, low, high)
      && ResourceOutcome(TWO_PODS, low, 0, 2, 80, 0.1) == Ok(ResourceProposal(3, 10, 10, 0))
      && ResourceOutcome(TWO_PODS, high, 0, 2, 80, 0.1) == Ok(ResourceProposal(2, 80, 80, 0))
  {
    hide ResourceTally, TallyOutcome, NoneListed, SomeRequestMissing, Injective, Accounted, ReadyNames;
    TwoPodsNamed();
    OneStranger(10, 0);
    OneStranger(80, 0);
    TwoPodsSorted(AStranger(10, 0));
    StrangerOutcomes();
  }

  lemma {:induction false} StrangerOutcomes()
    ensures TallyOutcome(Tally(1, 1, 0, 1, 10, 100, 100, 0), 2, 80, 0.1, 0) == Ok(ResourceProposal(3, 10, 10, 0))
    ensures TallyOutcome(Tally(1, 1, 0, 1, 80, 100, 100, 0), 2, 80, 0.1, 0) == Ok(ResourceProposal(2, 80, 80, 0))
  {
    assert Ratio(10, 80) == 0.125 && Ratio(55, 80) == 0.6875 && Ratio(80, 80) == 1.0;
    assert RoundUp(0.6875, 3) == 3;
  }

  // ---- the plain path ----

  lemma {:induction false} TwoPodsPlainTallied(metrics: Metrics)
    requires "a" in metrics && "b" !in metrics
    ensures PlainTallyOf(TWO_PODS, metrics)
      == PlainTally(1, 1, 0, |metrics.Keys - {"a", "b"}|, SumOf(metrics, metrics.Keys))
  {
    TwoPodsNamed();
    TwoPodsSorted(metrics);
    hide ReadyNames, MissingNames, NotReadyNames, Names, SumOf;
    assert |{"a"}| == 1 && |{"b"}| == 1;
    assert metrics - NotReadyNames(TWO_PODS) == metrics;
  }

  function Alone(a: int): Metrics {
    map["a" := a]
  }

  lemma {:induction false} PlainStranger(a: int, s: int)
    ensures PlainTallyOf(TWO_PODS, AStranger(a, s)) == PlainTally(1, 1, 0, 1, a + s)
  {
    hide PlainTallyOf, SumOf;
    var m := AStranger(a, s);
    StrangerKeys(a, s);
    TwoPodsPlainTallied(m);
    SumPick(m, m.Keys, "s");
    assert m.Keys - {"s"} == {"a"};
    SumOne(m, "a");
  }

  lemma {:induction false} PlainAlone(a: int)
    ensures PlainTallyOf(TWO_PODS, Alone(a)) == PlainTally(1, 1, 0, 0, a)
  {
    hide PlainTallyOf, SumOf;
    assert "b" !in {"a"} && Alone(a).Keys == {"a"} && {"a"} - {"a", "b"} == {};
    TwoPodsPlainTallied(Alone(a));
    SumOne(Alone(a), "a");
  }

  lemma {:induction false} PlainTallyOutcomes()
    ensures PlainTallyOutcome(PlainTally(1, 1, 0, 0, 9), 2, 10, 0.1, 0) == Ok(Proposal(2, 9, 0))
    ensures PlainTallyOutcome(PlainTally(1, 1, 0, 0, 10), 2, 10, 0.1, 0) == Ok(Proposal(1, 10, 0))
    ensures PlainTallyOutcome(PlainTally(1, 1, 0, 1, 11), 2, 10, 0.1, 0) == Ok(Proposal(3, 5, 0))
    ensures PlainTallyOutcome(PlainTally(1, 1, 0, 1, 22), 2, 10, 0.1, 0) == Ok(Proposal(2, 11, 0))
  {
    assert Ratio(9, 10) == 0.9 && Ratio(10, 10) == 1.0 && Ratio(5, 10) == 0.5 && Ratio(7, 10) == 0.7;
    assert RoundUp(0.5, 2) == 1 && RoundUp(0.7, 3) == 3;
  }

  /**
   The plain path is not monotone at the target: with one pod missing, usage 9 of target 10 keeps two
   replicas and usage 10 proposes one, since at ratio exactly 1 the missing pod is charged nothing.
   */
  lemma {:induction false} PlainDropsAtTarget()
    ensures Injective(TWO_PODS) && Accounted(TWO_PODS, Alone(9), 2) && StrangersFit(TWO_PODS, Alone(9))
    ensures KeptLoadGrows(TWO_PODS, Alone(9), Alone(10))
    ensures PlainOutcome(TWO_PODS, Alone(9), 0, 2, 10, 0.1) == Ok(Proposal(2, 9, 0))
    ensures PlainOutcome(TWO_PODS, Alone(10), 0, 2, 10, 0.1) == Ok(Proposal(1, 10, 0))
  {
    hide PlainTallyOf, PlainTallyOutcome, NoneListed, Injective, NotReadyNames, MissingNames, NonFailedNames;
    TwoPodsNamed();
    PlainAlone(9);
    PlainAlone(10);
    PlainTallyOutcomes();
    assert Alone(9).Keys - Names(TWO_PODS) == {};
  }

  /**
   One entry of an unlisted pod reverses the direction: half way to the target two pods are answered
   with three, and above the target with two.
   */
  lemma {:induction false} StrangersReversePlainDirection()
    ensures Injective(TWO_PODS) && Accounted(TWO_PODS, AStranger(5, 6), 2)
    ensures KeptLoadGrows(TWO_PODS, AStranger(5, 6), AStranger(11, 11))
    ensures PlainOutcome(TWO_PODS, AStranger(5, 6), 0, 2, 10, 0.1) == Ok(Proposal(3, 5, 0))
    ensures PlainOutcome(TWO_PODS, AStranger(11, 11), 0, 2, 10, 0.1) == Ok(Proposal(2, 11, 0))
  {
    hide PlainTallyOf, PlainTallyOutcome, PlainOutcome, NoneListed, Injective, Accounted, KeptLoadGrows, AStranger;
    TwoPodsNamed();
    OneStranger(5, 6);
    StrangersGrow();
    PlainStranger(5, 6);
    PlainStranger(11, 11);
    ListedOutcome(TWO_PODS, AStranger(5, 6), 0, 2, 10, 0.1);
    ListedOutcome(TWO_PODS, AStranger(11, 11), 0, 2, 10, 0.1);
    PlainTallyOutcomes();
  }

  lemma {:induction false} StrangersGrow()
    ensures KeptLoadGrows(TWO_PODS, AStranger(5, 6), AStranger(11, 11))
  {
    hide NotReadyNames;
  }
}
