/**
 * Entry scoring: the rounded mean of the three analysis scores, the coin
 * reward tiers, and turning a ready draft into a finalized entry.
 */
module Scoring {
  import opened Wrappers
  import opened Types

  /** Rounding to the nearest integer, halves upwards (the language's `round`). */
  function RoundHalfUp(x: real): int {
    (x + 0.5).Floor
  }

  /** Rounding a third of an integer sum is integer division of the sum plus one. */
  lemma RoundThird(s: int)
    ensures RoundHalfUp(s as real / 3.0) == (s + 1) / 3
  {
    var q := (s + 1) / 3;
    var t := (s + 1) % 3;
    assert s + 1 == 3 * q + t && 0 <= t < 3;
    var x := s as real / 3.0 + 0.5;
    assert x == q as real + (2 * t + 1) as real / 6.0;
    assert q as real <= x < q as real + 1.0;
  }

  /** The average score: the rounded arithmetic mean of the three scores. */
  function AverageScore(understanding: int, improvement: int, growth: int): (r: int)
    ensures r == (understanding + improvement + growth + 1) / 3
  {
    RoundThird(understanding + improvement + growth);
    RoundHalfUp((understanding + improvement + growth) as real / 3.0)
  }

  /** The average lies between the smallest and the largest of the three scores. */
  lemma AverageBetween(u: int, n: int, g: int)
    ensures AverageScore(u, n, g) >= Min3(u, n, g) && AverageScore(u, n, g) <= Max3(u, n, g)
  {
  }

  function Min3(a: int, b: int, c: int): int {
    if a <= b && a <= c then a else if b <= c then b else c
  }

  function Max3(a: int, b: int, c: int): int {
    if a >= b && a >= c then a else if b >= c then b else c
  }

  /** With all three scores in [0, 100], so is the average. */
  lemma AverageInRange(u: int, n: int, g: int)
    requires 0 <= u <= 100 && 0 <= n <= 100 && 0 <= g <= 100
    ensures 0 <= AverageScore(u, n, g) <= 100
  {
    AverageBetween(u, n, g);
  }

  /** The coins earned for an entry, by tiers of emotion understanding. */
  function Reward(understanding: int): (r: int)
    ensures r in {1, 3, 5}
  {
    if understanding >= 80 then 5
    else if understanding >= 60 then 3
    else 1
  }

  /** A better understanding never earns fewer coins. */
  lemma RewardMonotone(u: int, v: int)
    requires u <= v
    ensures Reward(u) <= Reward(v)
  {
  }

  /** The reward table on the boundary values 95, 80, 79, 60, 59 and 0. */
  lemma RewardBoundaries()
    ensures Reward(95) == 5 && Reward(80) == 5 && Reward(79) == 3
    ensures Reward(60) == 3 && Reward(59) == 1 && Reward(0) == 1
  {
  }

  /** The draft a finalized entry came from: the entry without its average score. */
  function Forget(e: GardenEntry): (r: Draft)
    ensures Ready(r)
  {
    Draft(Some(e.id), Some(e.date), Some(e.photoUrl), Some(e.plantState), Some(e.plantEmotion),
          Some(e.userMood), Some(e.moodScore), Some(e.emotionUnderstanding), Some(e.understandingReason),
          Some(e.nutritionRecommendation), Some(e.nutritionImprovementRate), Some(e.growthIndex),
          e.aiReflection, Some(e.aiSummary), Some(e.recipe))
  }

  /** An entry whose average score is the one its scores give. */
  predicate Scored(e: GardenEntry) {
    e.averageScore == AverageScore(e.emotionUnderstanding, e.nutritionImprovementRate, e.growthIndex)
  }

  /**
   * The finalized entry of a ready draft: the draft's fields, unchanged,
   * with only the average score added.
   */
  function Finalize(d: Draft): (r: GardenEntry)
    requires Ready(d)
    ensures Forget(r) == d
    ensures Scored(r)
  {
    var u := d.emotionUnderstanding.value;
    var n := d.nutritionImprovementRate.value;
    var g := d.growthIndex.value;
    GardenEntry(d.id.value, d.date.value, d.photoUrl.value, d.plantState.value, d.plantEmotion.value,
                d.userMood.value, d.moodScore.value, u, d.understandingReason.value,
                d.nutritionRecommendation.value, n, g, AverageScore(u, n, g),
                d.aiReflection, d.aiSummary.value, d.recipe.value)
  }

  /** Finalizing is undone by forgetting, and a scored entry is rebuilt from its draft. */
  lemma FinalizeForget(e: GardenEntry)
    requires Scored(e)
    ensures Finalize(Forget(e)) == e
  {
  }
}
