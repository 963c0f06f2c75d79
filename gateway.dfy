/**
 * The two AI readings as the app sees them: a call either answers with a
 * record or throws, and on a throw the calling screen substitutes a fixed
 * record so that the flow always moves on.
 */
module Gateway {
  import opened Wrappers
  import opened Types
  import opened Scoring

  /** How one AI call ended. */
  datatype AiOutcome<T> = Answered(value: T) | Failed

  /** The plant reading: a state description, an emotion key and a reason. */
  datatype PlantAnalysis = PlantAnalysis(state: string, emotion: string, reason: string)

  /**
   * The mood reading. `reflection` is optional: the merge into the draft
   * reads it under this key and gets nothing when the record lacks it.
   */
  datatype MoodAnalysis = MoodAnalysis(
    emotionUnderstanding: int,
    understandingReason: string,
    nutritionRecommendation: string,
    nutritionImprovementRate: int,
    growthIndex: int,
    reflection: Option<string>,
    summary: string,
    recipe: string)

  /** The record the plant screen shows when the plant reading throws. */
  function PlantFallback(): (r: PlantAnalysis)
    ensures ParseEmotion(r.emotion) == Some(Happy)
  {
    PlantAnalysis("건강함", "happy", "잎이 아주 초록초록하고 생기가 넘쳐요!")
  }

  /** The plant reading the plant screen goes on with. */
  function PlantOrFallback(o: AiOutcome<PlantAnalysis>): (r: PlantAnalysis)
    ensures o.Answered? ==> r == o.value
    ensures o.Failed? ==> r.state == "건강함" && ParseEmotion(r.emotion) == Some(Happy)
  {
    match o
    case Answered(a) => a
    case Failed => PlantFallback()
  }

  const FallbackUnderstandingReason := "당신의 기분은 식물과 80% 일치하지만, 말 속에 약간의 피로함이 숨어있네요."
  const FallbackReflection := "당신의 기분은 식물과 80% 일치하지만, 말 속에 약간의 피로함이 숨어있네요."
  const FallbackSummary := "당신은 정말 잘하고 있어요! 조금만 휴식을 취해보세요."
  const FallbackRecipe := "피로 회복을 위한 요거트 딸기 레모네이드"

  /**
   * The mood screen's substitute record as written: its reflection text is
   * stored under the draft's key `aiReflection`, not under `reflection`,
   * which is the key the merge reads, so the merge finds no reflection.
   */
  function MoodFallbackAsWritten(): (r: MoodAnalysis)
    ensures r.reflection.None?
  {
    MoodAnalysis(80, FallbackUnderstandingReason, "비타민 C", 75, 10, None, FallbackSummary, FallbackRecipe)
  }

  /**
   * The substitute record as evidently intended: the same values, with the
   * reflection text under the key the merge reads.
   */
  function MoodFallback(): (r: MoodAnalysis)
    ensures r.reflection == Some(FallbackReflection)
    ensures r == MoodFallbackAsWritten().(reflection := Some(FallbackReflection))
  {
    MoodAnalysis(80, FallbackUnderstandingReason, "비타민 C", 75, 10, Some(FallbackReflection), FallbackSummary, FallbackRecipe)
  }

  /** The mood reading the mood screen goes on with. */
  function MoodOrFallback(o: AiOutcome<MoodAnalysis>): (r: MoodAnalysis)
    ensures o.Answered? ==> r == o.value
    ensures o.Failed? ==> r.reflection.Some?
  {
    match o
    case Answered(a) => a
    case Failed => MoodFallback()
  }

  /**
   * A failed mood reading scores as understanding 80, improvement 75 and
   * growth 10: an average of 55 and the top reward of 5 coins.
   */
  lemma FallbackScores()
    ensures var f := MoodOrFallback(Failed);
      && f.emotionUnderstanding == 80 && f.nutritionImprovementRate == 75 && f.growthIndex == 10
      && AverageScore(f.emotionUnderstanding, f.nutritionImprovementRate, f.growthIndex) == 55
      && Reward(f.emotionUnderstanding) == 5
  {
  }
}
