/** The total score of an offer against a resume: each of the n per-skill scores
    weighs 1/n, so the total is the mean of the per-skill scores. An empty list
    of scores totals 0. Scores are exact reals here. */
module ScoreAggregator {

  /** The sum of the scores, added from first to last. */
  function Sum(scores: seq<real>): real {
    if scores == [] then 0.0 else Sum(scores[..|scores| - 1]) + scores[|scores| - 1]
  }

  /** The mean of the scores; 0 for no scores. */
  function Mean(scores: seq<real>): real {
    if |scores| == 0 then 0.0 else Sum(scores) / |scores| as real
  }

  predicate AllUnit(scores: seq<real>) {
    forall i :: 0 <= i < |scores| ==> 0.0 <= scores[i] <= 1.0
  }

  /** Scores in [0, 1] sum to at least 0 and at most their number. */
  lemma {:induction false} SumBounds(scores: seq<real>)
    requires AllUnit(scores)
    ensures 0.0 <= Sum(scores) <= |scores| as real
  {
    if scores != [] {
      SumBounds(scores[..|scores| - 1]);
    }
  }

  /** The sum of n copies of one score is n times that score. */
  lemma {:induction false} SumOfConstant(scores: seq<real>, c: real)
    requires forall i :: 0 <= i < |scores| ==> scores[i] == c
    ensures Sum(scores) == |scores| as real * c
  {
    if scores != [] {
      SumOfConstant(scores[..|scores| - 1], c);
    }
  }

  /** Scores in [0, 1] have a mean in [0, 1]. */
  lemma MeanBounds(scores: seq<real>)
    requires AllUnit(scores)
    ensures 0.0 <= Mean(scores) <= 1.0
  {
    SumBounds(scores);
  }

  /** Matching every required skill exactly gives a total of exactly 1. */
  lemma MeanOfAllOnes(scores: seq<real>)
    requires |scores| > 0
    requires forall i :: 0 <= i < |scores| ==> scores[i] == 1.0
    ensures Mean(scores) == 1.0
  {
    SumOfConstant(scores, 1.0);
  }

  /** Matching no required skill at all gives a total of 0. */
  lemma MeanOfAllZeros(scores: seq<real>)
    requires forall i :: 0 <= i < |scores| ==> scores[i] == 0.0
    ensures Mean(scores) == 0.0
  {
    SumOfConstant(scores, 0.0);
  }

  /** Accumulates the weighted scores, each weighing 1 over their number. */
  method CalculatedTotalScore(matching: seq<real>) returns (totalScore: real)
    ensures totalScore == Mean(matching)
  {
    var numberOfDesiredSkills := |matching|;
    // With no scores the source's weight is an infinite float that the loop
    // never reads; any value serves here.
    var maxPercentagePerSkill := 0.0;
    if numberOfDesiredSkills > 0 {
      maxPercentagePerSkill := 1.0 / numberOfDesiredSkills as real;
    }
    totalScore := 0.0;
    for k := 0 to numberOfDesiredSkills
      invariant totalScore == maxPercentagePerSkill * Sum(matching[..k])
    {
      assert matching[..k + 1][..k] == matching[..k];
      totalScore := totalScore + matching[k] * maxPercentagePerSkill;
    }
    assert matching[..numberOfDesiredSkills] == matching;
  }
}
