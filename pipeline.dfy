/**
 * The draft merges of the reflection pipeline. Each screen's "next"
 * callback spreads the current draft and overwrites the fields it owns;
 * the sample shortcut replaces the draft by a canned one.
 */
module Pipeline {
  import opened Wrappers
  import opened Types
  import opened Constants
  import opened Scoring
  import opened Gateway

  /** The fields the photo screen owns agree. */
  predicate SamePhotoPart(a: Draft, b: Draft) {
    a.id == b.id && a.date == b.date && a.photoUrl == b.photoUrl
  }

  /** The fields the plant screen owns agree. */
  predicate SamePlantPart(a: Draft, b: Draft) {
    a.plantState == b.plantState && a.plantEmotion == b.plantEmotion
  }

  /** The fields the mood screen owns agree. */
  predicate SameMoodPart(a: Draft, b: Draft) {
    && a.userMood == b.userMood && a.moodScore == b.moodScore
    && a.emotionUnderstanding == b.emotionUnderstanding && a.understandingReason == b.understandingReason
    && a.nutritionRecommendation == b.nutritionRecommendation
    && a.nutritionImprovementRate == b.nutritionImprovementRate && a.growthIndex == b.growthIndex
    && a.aiReflection == b.aiReflection && a.aiSummary == b.aiSummary && a.recipe == b.recipe
  }

  /** The photo screen has run: the draft has its id, date and photo. */
  predicate PhotoDone(d: Draft) {
    d.id.Some? && d.date.Some? && d.photoUrl.Some?
  }

  /** The plant screen has run as well: the draft has the plant's state and emotion. */
  predicate PlantDone(d: Draft) {
    PhotoDone(d) && d.plantState.Some? && d.plantEmotion.Some?
  }

  /**
   * The photo screen's merge: photo, id and date are set; whatever else an
   * earlier, abandoned draft held is kept.
   */
  function WithPhoto(d: Draft, photo: string, id: string, date: string): (r: Draft)
    ensures r.photoUrl == Some(photo) && r.id == Some(id) && r.date == Some(date)
    ensures PhotoDone(r)
    ensures SamePlantPart(d, r) && SameMoodPart(d, r)
  {
    d.(photoUrl := Some(photo), id := Some(id), date := Some(date))
  }

  /** The plant screen's merge: the plant's state and emotion are set, nothing else. */
  function WithPlant(d: Draft, a: PlantAnalysis): (r: Draft)
    ensures r.plantState == Some(a.state) && r.plantEmotion == Some(a.emotion)
    ensures PlantDone(r) <==> PhotoDone(d)
    ensures SamePhotoPart(d, r) && SameMoodPart(d, r)
  {
    d.(plantState := Some(a.state), plantEmotion := Some(a.emotion))
  }

  /**
   * The mood screen's merge: the user's mood and score and eight fields of
   * the reading are set. The reflection is copied from the reading's
   * `reflection` key, possibly absent.
   */
  function WithMood(d: Draft, mood: string, score: int, a: MoodAnalysis): (r: Draft)
    ensures SamePhotoPart(d, r) && SamePlantPart(d, r)
    ensures r.userMood == Some(mood) && r.moodScore == Some(score)
    ensures r.emotionUnderstanding == Some(a.emotionUnderstanding)
    ensures r.understandingReason == Some(a.understandingReason)
    ensures r.nutritionRecommendation == Some(a.nutritionRecommendation)
    ensures r.nutritionImprovementRate == Some(a.nutritionImprovementRate)
    ensures r.growthIndex == Some(a.growthIndex)
    ensures r.aiReflection == a.reflection
    ensures r.aiSummary == Some(a.summary) && r.recipe == Some(a.recipe)
    ensures Ready(r) <==> PlantDone(d)
    ensures DraftWellFormed(r) <==> MoodInputValid(mood, score)
  {
    d.(userMood := Some(mood), moodScore := Some(score),
       emotionUnderstanding := Some(a.emotionUnderstanding),
       understandingReason := Some(a.understandingReason),
       nutritionRecommendation := Some(a.nutritionRecommendation),
       nutritionImprovementRate := Some(a.nutritionImprovementRate),
       growthIndex := Some(a.growthIndex),
       aiReflection := a.reflection,
       aiSummary := Some(a.summary),
       recipe := Some(a.recipe))
  }

  /** The canned draft of the sample shortcut; only id and date come from the clock. */
  function SampleDraft(id: string, date: string): (r: Draft)
    ensures Ready(r) && DraftWellFormed(r)
    ensures ParseEmotion(r.plantEmotion.value) == Some(Happy)
    ensures r.aiReflection.Some?
  {
    Draft(Some(id), Some(date), Some(SamplePhotoUrl), Some("싱싱함"), Some("happy"),
          Some(SampleMood), Some(SampleScore), Some(85),
          Some("자신의 감정을 매우 구체적이고 솔직하게 표현하셨네요!"),
          Some("비타민 C"), Some(90), Some(15),
          Some("새로운 시작에 대한 설렘이 가득하시네요. 딸기가 자라듯 당신의 마음도 자라날 거예요."),
          Some("생명을 돌보는 마음은 곧 나를 사랑하는 마음입니다."),
          Some("설렘 가득 딸기 요거트 스무디"))
  }

  /**
   * Should the sample scores 85, 90 and 15 reach completion unchanged,
   * the entry averages 63 and earns 5 coins.
   */
  lemma SampleScores(id: string, date: string)
    ensures var e := Finalize(SampleDraft(id, date));
      e.averageScore == 63 && Reward(e.emotionUnderstanding) == 5
  {
  }

  /** Photo, plant and mood merges in order complete any draft, stale or empty. */
  lemma ForwardRunIsReady(d: Draft, photo: string, id: string, date: string,
                          p: PlantAnalysis, mood: string, score: int, m: MoodAnalysis)
    ensures Ready(WithMood(WithPlant(WithPhoto(d, photo, id, date), p), mood, score, m))
  {
  }

  /**
   * When both AI calls fail, the run still yields a finalizable entry: its
   * plant is happy, its scores are 80, 75 and 10 with an average of 55, and
   * it carries the fallback reflection.
   */
  lemma FailedRunFinalizes(d: Draft, photo: string, id: string, date: string, mood: string, score: int)
    requires MoodInputValid(mood, score)
    ensures var r := WithMood(WithPlant(WithPhoto(d, photo, id, date), PlantOrFallback(Failed)),
                              mood, score, MoodOrFallback(Failed));
      && Ready(r) && DraftWellFormed(r)
      && var e := Finalize(r);
      && ParseEmotion(e.plantEmotion) == Some(Happy)
      && e.emotionUnderstanding == 80 && e.nutritionImprovementRate == 75 && e.growthIndex == 10
      && e.averageScore == 55 && Reward(e.emotionUnderstanding) == 5
      && e.aiReflection == Some(FallbackReflection)
  {
    FallbackScores();
  }

  /**
   * As written, the mood fallback leaves the entry without a reflection:
   * the merge reads a key the substitute record does not carry.
   */
  lemma FallbackLosesReflection(d: Draft, mood: string, score: int)
    ensures WithMood(d, mood, score, MoodFallbackAsWritten()).aiReflection.None?
  {
  }
}
