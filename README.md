# My Emotion Garden: the application state machine

This project models the core of "나의 감정 정원" (My Emotion Garden). It is a journaling app. The user photographs a strawberry plant and gets an AI reading of the plant's emotion. The user then records a mood and a score, and gets a second AI reading that compares the two. The result is saved as a scored journal entry, which earns coins to spend in a cosmetic shop.

The app's state has four parts: the screen shown (`step`), the journal (`history`, newest first), the draft entry of the reflection pipeline (`currentEntry`) and the user's profile (`user`). The state lives in a class, `Garden.App`. Each user action is a method of that class: log in, navigate, use the sample shortcut, the three pipeline "next" callbacks, complete, purchase and apply. A ghost invariant `Valid()` states what each screen may rely on: the plant screen has a photo, the mood screen a plant emotion, and the reflection screen a draft that can be finalized. The invariant also requires the coins to be non-negative and every journal entry to carry its own average score.

The pure parts are functions with lemmas:
- the rounded average and the reward tiers (`Scoring`);
- the substitute records used when an AI call throws (`Gateway`);
- the draft merges of the pipeline callbacks (`Pipeline`);
- the home score, the chart series, the calendar events and the emoji lookups (`Views`);
- the shop's table lookup (`Shop`).

The mood screen's own state (text, slider and loading flag) is a small class, `MoodEntry.MoodForm`. Its loading flag guards against a double submit.

Each AI call comes in as a parameter of type `AiOutcome`: either a record was answered, or the call failed. Ids, dates and photos are parameters too.

Where the documented design of the app and its code disagree, the model follows the code:
- The sample shortcut replaces the draft and opens the plant screen (step 2), not the reflection screen. Its scores survive only if the later mood reading returns them.
- Leaving the pipeline does not discard the draft. The draft is cleared only on completion, so fields from an abandoned run survive into the next one (`Pipeline.WithPhoto`).
- The fallback records are substituted by the calling screens, not inside the gateway. The plant emotion is cast, not coerced: any string is stored.
- The AI's numeric fields are not clamped.

Two defects of the code are recorded under "## Findings", each with a member for the code as written and one for the evident intent. The `App` class runs the corrected program in both. When the mood reading throws, its draft gets the corrected fallback, which carries the reflection text; the code as written saves no reflection. A mood reading that settles after its screen was left is dropped by `App.MoodSettled`; the code as written applies it (`App.MoodSettledAsWritten`).

Scores are modelled as integers. The response schema allows any number, so this is an assumption.

## Model

| member | source | states |
|---|---|---|
| `Types.ParseEmotion` | src/types.ts:1 | a string reads as an emotion only if it is that emotion's key; `None` means no emotion has that key |
| `Types.ParseEmotionName` | src/types.ts:1 | every one of the seven emotions survives the trip to its key and back |
| `Scoring.RoundThird` | src/App.tsx:78 | rounding a third of an integer sum (halves up) equals `(sum + 1) div 3` |
| `Scoring.AverageScore` | src/App.tsx:78 | the rounded mean of the three scores equals `(u + n + g + 1) div 3` |
| `Scoring.AverageBetween` | src/App.tsx:78 | the average lies between the smallest and the largest of the three scores |
| `Scoring.AverageInRange` | src/App.tsx:78 | with all three scores in [0,100], the average is in [0,100] |
| `Scoring.Reward` | src/App.tsx:82-84 | the reward is always 1, 3 or 5 coins |
| `Scoring.RewardMonotone` | src/App.tsx:82-84 | a higher emotion understanding never earns fewer coins |
| `Scoring.RewardBoundaries` | src/App.tsx:82-84 | understanding 95, 80, 79, 60, 59 and 0 earn 5, 5, 3, 3, 1 and 1 coins |
| `Scoring.Forget` | src/App.tsx:79 | dropping the average from any entry gives a draft that can be finalized |
| `Scoring.Finalize` | src/App.tsx:79 | the finalized entry is the draft with only the average added (forgetting it gives the draft back), and that average is the one its scores give |
| `Scoring.FinalizeForget` | src/App.tsx:79 | an entry whose average is its own is rebuilt exactly from its draft |
| `Gateway.PlantFallback` | src/App.tsx:546 | the plant screen's substitute record has the emotion happy |
| `Gateway.PlantOrFallback` | src/App.tsx:541-549 | an answered reading is used as is; a thrown call gives state "건강함" and emotion happy |
| `Gateway.MoodFallbackAsWritten` | src/App.tsx:618-627 | the mood screen's substitute record, as written, has no `reflection` value |
| `Gateway.MoodFallback` | src/App.tsx:618-627 | the corrected substitute record has the same values, with the reflection text under the key the merge reads |
| `Gateway.MoodOrFallback` | src/App.tsx:613-627 | an answered reading is used as is; a thrown call gives a record that carries a reflection |
| `Gateway.FallbackScores` | src/App.tsx:618-627 | the mood fallback scores 80/75/10, which averages 55 and earns 5 coins |
| `Pipeline.WithPhoto` | src/App.tsx:192-195 | step 1 sets photo, id and date; the plant and mood fields of an earlier, abandoned draft survive |
| `Pipeline.WithPlant` | src/App.tsx:202-205 | step 2 sets the plant's state and emotion and touches no other field |
| `Pipeline.WithMood` | src/App.tsx:214-229 | step 3 sets mood, score and each of the reading's eight fields (the reflection from its `reflection` key, the summary into `aiSummary`) and keeps photo and plant; the draft is then ready exactly when steps 1 and 2 ran, and well formed exactly when mood and score are valid |
| `Pipeline.SampleDraft` | src/App.tsx:97-116 | the sample draft is complete and valid, with a happy plant and a reflection |
| `Pipeline.SampleScores` | src/App.tsx:106-110 | if the sample scores 85/90/15 reach completion unchanged, the entry averages 63 and earns 5 coins |
| `Pipeline.ForwardRunIsReady` | src/App.tsx:192-229 | photo, plant and mood merges in that order complete any draft, stale or empty |
| `Pipeline.FailedRunFinalizes` | src/App.tsx:541-549 | when both AI calls fail, the run still gives a finalizable entry: happy plant, scores 80/75/10, average 55, reward 5, and the fallback reflection |
| `Pipeline.FallbackLosesReflection` | src/App.tsx:224 | with the fallback as written, the merged draft has no reflection |
| `Views.LatestScore` | src/App.tsx:356 | when the newest entry's average is its own, the home score is the rounded mean of that entry's three scores; on a journal of in-range, self-scored entries the score, including the empty journal's 85, is in [0,100] |
| `Views.LatestScoreAfterSave` | src/App.tsx:356 | right after a save, the home screen shows the new entry's average |
| `Views.LatestScoreInRange` | src/App.tsx:356 | on a journal of in-range, self-scored entries, the home score is in [0,100] |
| `Views.ChartScore` | src/App.tsx:769 | the charted score is the average or the understanding, and differs from the average only when the average is 0 |
| `Views.PointOf` | src/App.tsx:767-770 | a point is at its entry's timestamp, with the average, or the understanding when the average is 0 |
| `Views.ChartScoreOfScoredEntry` | src/App.tsx:769 | the chart shows the average, except for a zero average, where it shows the understanding; that happens only when the understanding is 1 |
| `Views.ChartData` | src/App.tsx:767-770 | the chart series has one point per entry |
| `Views.ChartDataAt` | src/App.tsx:767-770 | the i-th point charts the i-th oldest entry |
| `Views.ChartAfterSave` | src/App.tsx:767-770 | a newly saved entry is charted after every older point |
| `Views.TierOf` | src/App.tsx:773 | top tier from 80, middle tier from 60 below 80, bottom tier below 60 |
| `Views.TierIcon` | src/App.tsx:773 | the three tiers have three distinct icons: strawberry, sprout, grey dot |
| `Views.TierColor` | src/App.tsx:778 | the three tiers have three distinct text colours: #ef4444, #22c55e, #71717a |
| `Views.TierMatchesReward` | src/App.tsx:773-778 | the calendar's tiers and the reward tiers use the same 80/60 thresholds |
| `Views.DatePart` | src/App.tsx:774 | the day part is a prefix of the timestamp with no 'T', ending just before the first 'T' |
| `Views.DatePartOfIsoTimestamp` | src/App.tsx:774 | for an ISO-8601 timestamp the day part is its first ten characters |
| `Views.EventOf` | src/App.tsx:773-778 | an entry's event carries the entry and its day part as date; it is strawberry and red exactly for a 5-coin entry, sprout and green exactly for a 3-coin entry, grey dot and grey exactly for a 1-coin entry |
| `Views.Events` | src/App.tsx:772-779 | one calendar event per entry, in journal order, carrying that entry and dated by its day part |
| `Views.EventIconIsRewardTier` | src/App.tsx:772-779 | an event is strawberry and red exactly for a 5-coin entry, sprout and green exactly for a 3-coin entry, grey dot and grey exactly for a 1-coin entry |
| `Views.AccessoryEmoji` | src/App.tsx:290-302 | an id has an emoji exactly when it is one of the eight accessory ids |
| `Views.AccessoryEmojiCoversShop` | src/App.tsx:290-302 | an id has an accessory emoji exactly when the shop sells it as an accessory |
| `Views.EmotionIcon` | src/App.tsx:583 | an emotion's key shows that emotion's emoji; a string that is no emotion's key and no inherited object property shows the strawberry |
| `Views.EmotionIconDefault` | src/App.tsx:583 | among string keys that are not inherited object properties, the strawberry shows exactly for those outside the enumeration |
| `Shop.FindItem` | src/App.tsx:249-250 | the lookup returns the first item with the id, or `None` exactly when no item has it |
| `Shop.ShopIdsDistinct` | src/constants.ts:34-56 | the shop's ids are pairwise distinct |
| `Shop.FindShopItem` | src/App.tsx:1021 | looking up a listed item's id finds that very item |
| `Shop.BuyListed` | src/App.tsx:248-257 | buying a listed item at its own price pays it and appends its id to the owned list of its kind |
| `Shop.ShopThemesAreAppThemesButGarden` | src/constants.ts:45 | every theme the shop sells is a typed theme id except "garden" |
| `MoodEntry.MoodForm.constructor` | src/App.tsx:606-609 | the form opens on the draft's earlier mood and score, or on '' and 50, not loading |
| `MoodEntry.MoodForm.Edit` | src/App.tsx:650 | typing replaces the mood text |
| `MoodEntry.MoodForm.Slide` | src/App.tsx:661-666 | the slider sets a score in [1,100] |
| `MoodEntry.MoodForm.Submit` | src/App.tsx:611-612 | a click requests a reading exactly when there is mood text and nothing is loading; the form is then loading, and the input is valid |
| `MoodEntry.MoodForm.Settle` | src/App.tsx:628-630 | after the reading settles the form is no longer loading |
| `MoodEntry.SubmitTwice` | src/App.tsx:679 | two clicks in a row send at most one request: the first exactly when there is text, the second never |
| `Garden.App.constructor` | src/App.tsx:41-52 | a first start is the login screen with an empty journal and draft and the initial profile (10 coins) |
| `Garden.App.LogIn` | src/App.tsx:174-177 | logging in sets the name and opens home; nothing else changes |
| `Garden.App.Navigate` | src/App.tsx:92-95 | navigating changes only the screen; journal, draft and profile are untouched |
| `Garden.App.Sample` | src/App.tsx:97-116 | the sample draft replaces the draft and the plant screen opens; journal and profile are untouched |
| `Garden.App.PhotoNext` | src/App.tsx:192-195 | step 1 merges the photo into the draft and moves exactly one step forward |
| `Garden.App.PlantNext` | src/App.tsx:202-205 | step 2 merges the plant reading, or the fallback on failure, and moves one step forward |
| `Garden.App.MoodNext` | src/App.tsx:214-229 | step 3 merges mood, score and reading, or on failure the corrected fallback (see Findings), and moves one step forward |
| `Garden.App.MoodSettledAsWritten` | src/App.tsx:214-229 | (with the corrected mood fallback) a reading that settles from any screen replaces the draft by the draft captured at step 3 plus the reading, and opens step 4 |
| `Garden.App.MoodSettled` | src/App.tsx:611-631 | a reading settling while its screen is shown is the step-3 "next"; once the screen was left it changes nothing |
| `Garden.App.SaveEntry` | src/App.tsx:76-90 | the finalized entry is prepended to the journal, the coins grow by exactly the reward, the home screen opens, and the invariant is kept |
| `Garden.App.Complete` | src/App.tsx:236-239 | completion saves the finalized draft and the reward together, then clears the draft |
| `Shop.Buy` | src/App.tsx:248-257 | an unknown id leaves the profile unchanged; otherwise coins drop by the price, the id is appended to exactly one owned list, chosen by the item's kind, and name, theme and accessory stay as they were |
| `Garden.App.Purchase` | src/App.tsx:248-257 | the profile becomes `Buy` of the old profile, and the coins stay non-negative because the price is at most the balance; nothing else changes |
| `Garden.App.Apply` | src/App.tsx:258-264 | applying sets the current theme or accessory; the empty accessory id clears it |
| `Garden.SampleRunWithFailures` | src/App.tsx:97-116 | the sample run with both readings failing saves one entry averaging 55 with a happy plant, and 10 coins become 15; the entry's reflection is the corrected fallback's, which the code as written does not save |
| `Garden.PhotoRunThenPurchase` | src/App.tsx:192-257 | a photo run saves the answered values with their average, and buying the hairpin with the coins earned leaves it owned |
| `Garden.LateSettleOverwritesSample` | src/App.tsx:214-229 | as written, a mood reading settling after the user went home and took the sample opens step 4 with the earlier run's photo, and the sample draft is gone |
| `Garden.LateSettleDropped` | src/App.tsx:611-631 | with late readings dropped, the same interleaving stays on step 2 with the sample draft |

## Findings

| source | as written | input that shows it | evidently intended | confidence | as-written member | corrected member |
|---|---|---|---|---|---|---|
| src/App.tsx:618-627 | the mood fallback stores its reflection text under `aiReflection`, but the merge at line 224 reads `analysis.reflection`, so the saved entry has no reflection | any mood reading that throws | the entry carries the fallback reflection text | high; not executed | `Pipeline.FallbackLosesReflection` (on `Gateway.MoodFallbackAsWritten`) | `Gateway.MoodFallback` (used by `Gateway.MoodOrFallback`; proved in `Pipeline.FailedRunFinalizes`) |
| src/App.tsx:611-631 | the mood screen calls its `onNext` after the reading settles even when the user has left the screen; App's callback (lines 214-229) then writes the draft captured at step 3 plus the reading, and opens step 4 | submit a mood, press home and take the sample before the reading settles | a reading whose screen was left is dropped | medium; not executed | `Garden.LateSettleOverwritesSample` (on `Garden.App.MoodSettledAsWritten`) | `Garden.App.MoodSettled` (proved in `Garden.LateSettleDropped`) |

## Left out

- The Gemini calls and the parsing of their replies are not modelled. Each call's result is an `AiOutcome` parameter. On empty reply text the parser returns an empty object instead of throwing; that record, whose scores would be missing, is not modelled.
- Loading and saving the journal and profile in local storage are not modelled. That includes skipping the login screen when a saved profile exists.
- The clock, id generation, file reading, random names, alerts and scrolling are not modelled. Ids, dates and photos are parameters. The date is never formatted for display.
- Views.ChartData: each point carries the raw timestamp, not the locale-formatted date label.
- All rendering is left out: layout, animation, theme CSS classes, the charts, the calendar widget, the QR code and Markdown. So are the emotion colours, the friends' carousel, the character picture, and item names and descriptions.
- The share screen is left out. No button navigates to it.
- Garden.App.Navigate: the target is limited to the screens a button offers (home, step 1, shop, portfolio). The home buttons for steps 2 to 4 are disabled.
- Garden.App.Apply: applying is offered only for owned items. The method does not require ownership, because the callback itself does not check it.
- React's asynchronous updates and stale closures are modelled only for the mood reading. A late plant reading updates only its screen's local state and is not modelled. A late mood reading runs App's callback with the draft captured at step 3; `App.MoodSettledAsWritten` models that write, with the captured draft as a parameter. Other interleavings are not modelled. `PhotoNext` and `PlantNext` each stand for the settle followed by the user's click.
- Views.EmotionIconDefault and Views.EmotionIcon: keys inherited from the object prototype ("constructor", "toString", "__proto__") are not modelled. For them the source's lookup finds a property that is not an emoji, where the model shows the strawberry.
- Scores are integers. Fractional AI scores, and the NaN average a missing score would give, are not modelled.
