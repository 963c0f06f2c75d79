/**
 * The records of the emotion garden: the plant emotions, the screens of the
 * app, a journal entry (draft and finalized) and the user's profile.
 */
module Types {
  import opened Wrappers

  /** The seven emotions the plant analysis is asked to choose from. */
  datatype PlantEmotion = Happy | Vibrant | Tired | Droopy | Growing | Healthy | Wilting

  /** The key under which an emotion travels as a string. */
  function EmotionName(e: PlantEmotion): string {
    match e
    case Happy => "happy"
    case Vibrant => "vibrant"
    case Tired => "tired"
    case Droopy => "droopy"
    case Growing => "growing"
    case Healthy => "healthy"
    case Wilting => "wilting"
  }

  /**
   * Reads an emotion key back. The plant analysis may answer with any
   * string (it is only cast to PlantEmotion), so a key outside the
   * enumeration is `None`.
   */
  function ParseEmotion(s: string): (r: Option<PlantEmotion>)
    ensures r.Some? ==> EmotionName(r.value) == s
    ensures r.None? ==> forall e: PlantEmotion :: EmotionName(e) != s
  {
    if s == "happy" then Some(Happy)
    else if s == "vibrant" then Some(Vibrant)
    else if s == "tired" then Some(Tired)
    else if s == "droopy" then Some(Droopy)
    else if s == "growing" then Some(Growing)
    else if s == "healthy" then Some(Healthy)
    else if s == "wilting" then Some(Wilting)
    else None
  }

  /** Every emotion survives the trip to its key and back. */
  lemma ParseEmotionName(e: PlantEmotion)
    ensures ParseEmotion(EmotionName(e)) == Some(e)
  {
  }

  /** The screens of the app, in the order the app names them. */
  datatype Step = Login | Home | Step1 | Step2 | Step3 | Step4 | Portfolio | Share | Shop

  /**
   * The entry being assembled by the reflection pipeline: every field may
   * still be missing. `plantEmotion` holds whatever string the plant
   * analysis answered.
   */
  datatype Draft = Draft(
    id: Option<string>,
    date: Option<string>,
    photoUrl: Option<string>,
    plantState: Option<string>,
    plantEmotion: Option<string>,
    userMood: Option<string>,
    moodScore: Option<int>,
    emotionUnderstanding: Option<int>,
    understandingReason: Option<string>,
    nutritionRecommendation: Option<string>,
    nutritionImprovementRate: Option<int>,
    growthIndex: Option<int>,
    aiReflection: Option<string>,
    aiSummary: Option<string>,
    recipe: Option<string>)

  const EmptyDraft := Draft(None, None, None, None, None, None, None, None, None, None, None, None, None, None, None)

  /**
   * A draft the completion step can turn into an entry: everything is
   * present except possibly the reflection text, which the mood merge
   * copies from a field the analysis may not carry.
   */
  predicate Ready(d: Draft) {
    && d.id.Some? && d.date.Some? && d.photoUrl.Some?
    && d.plantState.Some? && d.plantEmotion.Some?
    && d.userMood.Some? && d.moodScore.Some?
    && d.emotionUnderstanding.Some? && d.understandingReason.Some?
    && d.nutritionRecommendation.Some? && d.nutritionImprovementRate.Some?
    && d.growthIndex.Some? && d.aiSummary.Some? && d.recipe.Some?
  }

  /** What the mood screen guarantees about the user's own input. */
  predicate MoodInputValid(mood: string, score: int) {
    mood != "" && 1 <= score <= 100
  }

  /** The user-supplied fields of a draft, where present, are valid. */
  predicate DraftWellFormed(d: Draft) {
    && (d.userMood.Some? ==> d.userMood.value != "")
    && (d.moodScore.Some? ==> 1 <= d.moodScore.value <= 100)
  }

  /** A finalized entry of the journal. */
  datatype GardenEntry = GardenEntry(
    id: string,
    date: string,
    photoUrl: string,
    plantState: string,
    plantEmotion: string,
    userMood: string,
    moodScore: int,
    emotionUnderstanding: int,
    understandingReason: string,
    nutritionRecommendation: string,
    nutritionImprovementRate: int,
    growthIndex: int,
    averageScore: int,
    aiReflection: Option<string>,
    aiSummary: string,
    recipe: string)

  /** The theme identifiers the profile's theme fields are typed with. */
  const AppThemes: seq<string> :=
    ["default", "clouds", "starry", "pink-forest", "pastel", "sunset", "ocean", "mountain", "city", "space"]

  predicate IsAppTheme(s: string) {
    s in AppThemes
  }

  /**
   * The user's profile. Themes are kept as strings: the shop casts any item
   * id into the theme list, including one that is not an AppTheme.
   */
  datatype UserProfile = UserProfile(
    name: string,
    coins: int,
    purchasedThemes: seq<string>,
    currentTheme: string,
    purchasedAccessories: seq<string>,
    currentAccessory: Option<string>)

  /** The profile a first start of the app begins with. */
  const InitialUser := UserProfile("사용자1", 10, [], "default", [], None)
}
