/**
  The scoring policy: each classified answer adds 2 for "AI", 1 for
  "Human" and 0 for anything else, "Error" included; an applicant's total
  is the running sum over the answers in the order they are visited.
 */
module Scoring {

  /** The increment one label contributes to an applicant's total. */
  function Increment(answerType: string): (n: nat)
    ensures n == 2 <==> answerType == "AI"
    ensures n == 1 <==> answerType == "Human"
    ensures n == 0 <==> answerType != "AI" && answerType != "Human"
  {
    if answerType == "AI" then 2 else if answerType == "Human" then 1 else 0
  }

  /** The total accumulated from 0 by adding each label's increment, first to last. */
  function TotalScore(labels: seq<string>): (s: nat)
    ensures s <= 2 * |labels|
  {
    if labels == [] then 0
    else TotalScore(labels[..|labels| - 1]) + Increment(labels[|labels| - 1])
  }

  /** Closed form: twice the number of "AI" labels plus the number of "Human" labels. */
  lemma {:induction false} TotalScoreCounts(labels: seq<string>)
    ensures TotalScore(labels) == 2 * multiset(labels)["AI"] + multiset(labels)["Human"]
  {
    if labels != [] {
      var init, last := labels[..|labels| - 1], labels[|labels| - 1];
      assert labels == init + [last];
      assert multiset(labels) == multiset(init) + multiset{last};
      TotalScoreCounts(init);
    }
  }

  /** The total does not depend on the order of the labels, only on how often each occurs. */
  lemma TotalScorePermutation(a: seq<string>, b: seq<string>)
    requires multiset(a) == multiset(b)
    ensures TotalScore(a) == TotalScore(b)
  {
    TotalScoreCounts(a);
    TotalScoreCounts(b);
  }

  /** Labels all equal to one answer type score its increment once per label. */
  lemma {:induction false} TotalScoreUniform(labels: seq<string>, answerType: string)
    requires forall i :: 0 <= i < |labels| ==> labels[i] == answerType
    ensures TotalScore(labels) == |labels| * Increment(answerType)
  {
    if labels != [] {
      TotalScoreUniform(labels[..|labels| - 1], answerType);
      assert (|labels| - 1) * Increment(answerType) + Increment(answerType) == |labels| * Increment(answerType);
    }
  }

  /** When no label is a failure or a foreign label, each contributes at least 1. */
  lemma {:induction false} TotalScoreAtLeastCount(labels: seq<string>)
    requires forall i :: 0 <= i < |labels| ==> labels[i] == "AI" || labels[i] == "Human"
    ensures |labels| <= TotalScore(labels)
  {
    if labels != [] {
      TotalScoreAtLeastCount(labels[..|labels| - 1]);
    }
  }

  /** Five labels, as visited for one applicant, total the sum of their five increments. */
  lemma TotalScoreOfFive(labels: seq<string>)
    requires |labels| == 5
    ensures TotalScore(labels) == Increment(labels[0]) + Increment(labels[1]) + Increment(labels[2]) +
                                  Increment(labels[3]) + Increment(labels[4])
  {
    var l4, l3, l2, l1 := labels[..4], labels[..3], labels[..2], labels[..1];
    assert l4[..3] == l3 && l3[..2] == l2 && l2[..1] == l1 && l1[..0] == [];
    assert TotalScore(l1) == Increment(labels[0]);
    assert TotalScore(l2) == TotalScore(l1) + Increment(labels[1]);
    assert TotalScore(l3) == TotalScore(l2) + Increment(labels[2]);
    assert TotalScore(l4) == TotalScore(l3) + Increment(labels[3]);
  }
}
