/**
 * The application state and the actions that change it: the screen shown,
 * the journal (newest entry first), the draft entry of the reflection
 * pipeline and the user's profile.
 */
module Garden {
  import opened Wrappers
  import opened Types
  import opened Constants
  import opened Scoring
  import opened Gateway
  import opened Pipeline
  import opened Shop

  /** The screens the header, the bottom bar, the home screen and the back buttons lead to. */
  predicate NavigationTarget(s: Step) {
    s == Home || s == Step1 || s == Shop || s == Portfolio
  }

  /** A journal entry as the pipeline leaves it: the user's input valid, its average its own. */
  predicate EntryWellFormed(e: GardenEntry) {
    MoodInputValid(e.userMood, e.moodScore) && Scored(e)
  }

  class App {
    var step: Step
    var history: seq<GardenEntry>
    var draft: Draft
    var user: UserProfile

    /**
     * The state invariant. Each pipeline screen finds in the draft what it
     * reads: the plant screen the photo, the mood screen the plant emotion,
     * the reflection screen a ready draft.
     */
    ghost predicate Valid()
      reads this
    {
      && user.coins >= 0
      && DraftWellFormed(draft)
      && (step == Step2 ==> PhotoDone(draft))
      && (step == Step3 ==> PlantDone(draft))
      && (step == Step4 ==> Ready(draft))
      && forall i :: 0 <= i < |history| ==> EntryWellFormed(history[i])
    }

    /** A first start: the login screen, an empty journal and draft, the initial profile. */
    constructor ()
      ensures Valid()
      ensures step == Login && history == [] && draft == EmptyDraft && user == InitialUser
    {
      step := Login;
      history := [];
      draft := EmptyDraft;
      user := InitialUser;
    }

    /** Entering the garden under a name. */
    method LogIn(name: string)
      requires Valid() && step == Login
      modifies this`user, this`step
      ensures Valid() && step == Home
      ensures user == old(user).(name := name)
      ensures history == old(history) && draft == old(draft)
    {
      user := user.(name := name);
      step := Home;
    }

    /** Moving to another screen; the journal, the draft and the profile stay as they are. */
    method Navigate(target: Step)
      requires Valid() && step != Login && NavigationTarget(target)
      modifies this`step
      ensures Valid() && step == target
      ensures history == old(history) && draft == old(draft) && user == old(user)
    {
      step := target;
    }

    /** The sample shortcut: the canned draft replaces the current one, and the plant screen opens. */
    method Sample(id: string, date: string)
      requires Valid() && step == Home
      modifies this`draft, this`step
      ensures Valid() && step == Step2
      ensures draft == SampleDraft(id, date)
      ensures history == old(history) && user == old(user)
    {
      draft := SampleDraft(id, date);
      step := Step2;
    }

    /** The photo screen's "next", offered once a photo was read. */
    method PhotoNext(photo: string, id: string, date: string)
      requires Valid() && step == Step1 && photo != ""
      modifies this`draft, this`step
      ensures Valid() && step == Step2
      ensures draft == WithPhoto(old(draft), photo, id, date)
      ensures history == old(history) && user == old(user)
    {
      draft := WithPhoto(draft, photo, id, date);
      step := Step2;
    }

    /** The plant screen's "next", with the plant reading or, when it threw, the fallback. */
    method PlantNext(outcome: AiOutcome<PlantAnalysis>)
      requires Valid() && step == Step2
      modifies this`draft, this`step
      ensures Valid() && step == Step3
      ensures draft == WithPlant(old(draft), PlantOrFallback(outcome))
      ensures history == old(history) && user == old(user)
    {
      draft := WithPlant(draft, PlantOrFallback(outcome));
      step := Step3;
    }

    /** The mood screen's "next", with the mood reading or, when it threw, the fallback. */
    method MoodNext(mood: string, score: int, outcome: AiOutcome<MoodAnalysis>)
      requires Valid() && step == Step3 && MoodInputValid(mood, score)
      modifies this`draft, this`step
      ensures Valid() && step == Step4
      ensures draft == WithMood(old(draft), mood, score, MoodOrFallback(outcome))
      ensures history == old(history) && user == old(user)
    {
      draft := WithMood(draft, mood, score, MoodOrFallback(outcome));
      step := Step4;
    }

    /**
     * A mood reading that settles after its screen was left, as written:
     * the mood screen's callback still runs with the draft it captured when
     * it was shown, replacing whatever the draft has become, and opens the
     * reflection screen from wherever the user is.
     */
    method MoodSettledAsWritten(captured: Draft, mood: string, score: int, outcome: AiOutcome<MoodAnalysis>)
      requires Valid() && step != Login && PlantDone(captured) && DraftWellFormed(captured)
      requires MoodInputValid(mood, score)
      modifies this`draft, this`step
      ensures Valid() && step == Step4
      ensures draft == WithMood(captured, mood, score, MoodOrFallback(outcome))
      ensures history == old(history) && user == old(user)
    {
      draft := WithMood(captured, mood, score, MoodOrFallback(outcome));
      step := Step4;
    }

    /**
     * A mood reading settling, as evidently intended: while its screen is
     * still shown it is the mood screen's "next"; once the screen was left
     * it is dropped.
     */
    method MoodSettled(shown: bool, captured: Draft, mood: string, score: int, outcome: AiOutcome<MoodAnalysis>)
      requires Valid() && MoodInputValid(mood, score)
      requires shown ==> step == Step3 && captured == draft
      modifies this`draft, this`step
      ensures Valid()
      ensures shown ==> step == Step4 && draft == WithMood(old(draft), mood, score, MoodOrFallback(outcome))
      ensures !shown ==> step == old(step) && draft == old(draft)
      ensures history == old(history) && user == old(user)
    {
      if shown {
        MoodNext(mood, score, outcome);
      }
    }

    /**
     * Saving an entry: the finalized entry goes to the front of the
     * journal, the reward is added to the coins, and the home screen opens.
     * The reward is returned for the message that announces it.
     */
    method SaveEntry(entry: Draft) returns (earned: int)
      requires Valid() && Ready(entry) && DraftWellFormed(entry)
      modifies this`history, this`user, this`step
      ensures Valid() && step == Home
      ensures earned == Reward(entry.emotionUnderstanding.value)
      ensures history == [Finalize(entry)] + old(history)
      ensures user == old(user).(coins := old(user).coins + earned)
      ensures draft == old(draft)
    {
      var finalEntry := Finalize(entry);
      earned := Reward(finalEntry.emotionUnderstanding);
      user := user.(coins := user.coins + earned);
      history := [finalEntry] + history;
      step := Home;
    }

    /** The reflection screen's "complete": the draft is saved and then cleared. */
    method Complete() returns (earned: int)
      requires Valid() && step == Step4
      modifies this
      ensures Valid() && step == Home && draft == EmptyDraft
      ensures earned == Reward(old(draft).emotionUnderstanding.value)
      ensures history == [Finalize(old(draft))] + old(history)
      ensures user == old(user).(coins := old(user).coins + earned)
    {
      earned := SaveEntry(draft);
      draft := EmptyDraft;
    }

    /** A purchase, offered only when the coins cover the price; see `Buy`. */
    method Purchase(id: string, price: int)
      requires Valid() && step == Shop && price <= user.coins
      modifies this`user
      ensures Valid()
      ensures user == Buy(old(user), id, price)
      ensures history == old(history) && draft == old(draft) && step == old(step)
    {
      user := Buy(user, id, price);
    }

    /** Applying a theme or an accessory; the empty accessory id takes the accessory off. */
    method Apply(id: string, kind: ItemKind)
      requires Valid() && step == Shop
      modifies this`user
      ensures Valid()
      ensures kind == ThemeItem ==> user == old(user).(currentTheme := id)
      ensures kind == AccessoryItem ==> user == old(user).(currentAccessory := if id == "" then None else Some(id))
      ensures history == old(history) && draft == old(draft) && step == old(step)
    {
      if kind == ThemeItem {
        user := user.(currentTheme := id);
      } else {
        user := user.(currentAccessory := if id == "" then None else Some(id));
      }
    }
  }

  /**
   * The sample shortcut run to completion with both AI readings failing,
   * from the home screen of a fresh start: the journal gets one entry with
   * the happy-plant fallback and the fallback scores, and the initial ten
   * coins become fifteen.
   */
  method SampleRunWithFailures(name: string, id: string, date: string)
    returns (entry: GardenEntry, coins: int, journal: nat)
    ensures journal == 1
    ensures ParseEmotion(entry.plantEmotion) == Some(Happy)
    ensures entry.userMood == SampleMood && entry.moodScore == SampleScore
    ensures entry.averageScore == 55 && entry.aiReflection == Some(FallbackReflection)
    ensures coins == 15
  {
    var app := new App();
    app.LogIn(name);
    app.Sample(id, date);
    app.PlantNext(Failed);
    app.MoodNext(SampleMood, SampleScore, Failed);
    FallbackScores();
    var earned := app.Complete();
    entry, coins, journal := app.history[0], app.user.coins, |app.history|;
  }

  /**
   * A photo run from a fresh start whose readings both answer: the entry
   * keeps the answered values, and a purchase of the cheapest accessory
   * with the coins earned leaves the hairpin owned.
   */
  method PhotoRunThenPurchase(photo: string, id: string, date: string, mood: string, score: int,
                              plant: PlantAnalysis, reading: MoodAnalysis)
    returns (entry: GardenEntry, coins: int, owned: seq<string>)
    requires photo != "" && MoodInputValid(mood, score)
    ensures entry.photoUrl == photo && entry.plantEmotion == plant.emotion
    ensures entry.emotionUnderstanding == reading.emotionUnderstanding
    ensures entry.averageScore == AverageScore(reading.emotionUnderstanding, reading.nutritionImprovementRate, reading.growthIndex)
    ensures coins == 10 + Reward(reading.emotionUnderstanding) - 5
    ensures owned == ["hairpin"]
  {
    var app := new App();
    app.LogIn("");
    app.Navigate(Step1);
    app.PhotoNext(photo, id, date);
    app.PlantNext(Answered(plant));
    app.MoodNext(mood, score, Answered(reading));
    var earned := app.Complete();
    entry := app.history[0];
    app.Navigate(Shop);
    var u := app.user;
    assert u.coins == 10 + earned && u.purchasedAccessories == [];
    var hairpin := ShopItems[11];
    assert hairpin.id == "hairpin" && hairpin.price == 5 && hairpin.kind == AccessoryItem;
    app.Purchase(hairpin.id, hairpin.price);
    BuyListed(u, 11);
    coins, owned := app.user.coins, app.user.purchasedAccessories;
  }

  /**
   * As written, a mood reading that settles after the user went home and
   * took the sample shortcut discards the sample: the draft is the earlier
   * run's, with its photo, and the reflection screen opens.
   */
  method LateSettleOverwritesSample(photo: string, id: string, date: string, plant: PlantAnalysis,
                                    mood: string, score: int, outcome: AiOutcome<MoodAnalysis>,
                                    sampleId: string, sampleDate: string)
    returns (screen: Step, shownPhoto: Option<string>, sampleKept: bool)
    requires photo != "" && photo != SamplePhotoUrl && MoodInputValid(mood, score)
    ensures screen == Step4
    ensures shownPhoto == Some(photo)
    ensures !sampleKept
  {
    var app := new App();
    app.LogIn("");
    app.Navigate(Step1);
    app.PhotoNext(photo, id, date);
    app.PlantNext(Answered(plant));
    var captured := app.draft;
    app.Navigate(Home);
    app.Sample(sampleId, sampleDate);
    app.MoodSettledAsWritten(captured, mood, score, outcome);
    screen, shownPhoto, sampleKept := app.step, app.draft.photoUrl, app.draft == SampleDraft(sampleId, sampleDate);
  }

  /**
   * With the late reading dropped, the same interleaving keeps the sample
   * draft on the plant screen.
   */
  method LateSettleDropped(photo: string, id: string, date: string, plant: PlantAnalysis,
                           mood: string, score: int, outcome: AiOutcome<MoodAnalysis>,
                           sampleId: string, sampleDate: string)
    returns (screen: Step, sampleKept: bool)
    requires photo != "" && MoodInputValid(mood, score)
    ensures screen == Step2
    ensures sampleKept
  {
    var app := new App();
    app.LogIn("");
    app.Navigate(Step1);
    app.PhotoNext(photo, id, date);
    app.PlantNext(Answered(plant));
    var captured := app.draft;
    app.Navigate(Home);
    app.Sample(sampleId, sampleDate);
    app.MoodSettled(false, captured, mood, score, outcome);
    screen, sampleKept := app.step, app.draft == SampleDraft(sampleId, sampleDate);
  }
}
