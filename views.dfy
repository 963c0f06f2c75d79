/**
 * Read-outs of the journal and profile: the home screen's latest score,
 * the portfolio's chart series and calendar events, the accessory emoji
 * and the plant emotion's emoji.
 */
module Views {
  import opened Wrappers
  import opened Types
  import opened Constants
  import opened Scoring

  /** The score the home screen shows: the newest entry's average, or 85 on an empty journal. */
  function LatestScore(history: seq<GardenEntry>): (r: int)
    ensures history != [] && Scored(history[0]) ==>
      r == AverageScore(history[0].emotionUnderstanding, history[0].nutritionImprovementRate, history[0].growthIndex)
    ensures (forall i :: 0 <= i < |history| ==> InRangeEntry(history[i])) ==> 0 <= r <= 100
  {
    if |history| > 0 then
      var e := history[0];
      if InRangeEntry(e) then
        AverageInRange(e.emotionUnderstanding, e.nutritionImprovementRate, e.growthIndex);
        e.averageScore
      else e.averageScore
    else 85
  }

  /** Right after an entry is saved, the home screen shows that entry's average. */
  lemma LatestScoreAfterSave(d: Draft, history: seq<GardenEntry>)
    requires Ready(d)
    ensures LatestScore([Finalize(d)] + history)
         == AverageScore(d.emotionUnderstanding.value, d.nutritionImprovementRate.value, d.growthIndex.value)
  {
  }

  /** Entries whose three scores are in [0, 100] and whose average is their own. */
  predicate InRangeEntry(e: GardenEntry) {
    && 0 <= e.emotionUnderstanding <= 100 && 0 <= e.nutritionImprovementRate <= 100
    && 0 <= e.growthIndex <= 100 && Scored(e)
  }

  /** On such a journal the home screen's score is a percentage. */
  lemma LatestScoreInRange(history: seq<GardenEntry>)
    requires forall i :: 0 <= i < |history| ==> InRangeEntry(history[i])
    ensures 0 <= LatestScore(history) <= 100
  {
    if |history| > 0 {
      var e := history[0];
      AverageInRange(e.emotionUnderstanding, e.nutritionImprovementRate, e.growthIndex);
    }
  }

  /** A point of the portfolio chart; the date is left unformatted. */
  datatype ChartPoint = ChartPoint(date: string, score: int)

  /**
   * The charted score: the average, or, when the average is zero (falsy),
   * the emotion understanding.
   */
  function ChartScore(e: GardenEntry): (r: int)
    ensures r == e.averageScore || r == e.emotionUnderstanding
    ensures r != e.averageScore ==> e.averageScore == 0
  {
    if e.averageScore != 0 then e.averageScore else e.emotionUnderstanding
  }

  /** The point an entry is charted as: at its own timestamp, with its charted score. */
  function PointOf(e: GardenEntry): (r: ChartPoint)
    ensures r.date == e.date
    ensures r.score == e.averageScore || (e.averageScore == 0 && r.score == e.emotionUnderstanding)
  {
    ChartPoint(e.date, ChartScore(e))
  }

  /**
   * On an entry with non-negative scores whose average is its own, the
   * chart shows the average, except for a zero average, which occurs only
   * when the understanding is 0 or 1 and is then shown instead.
   */
  lemma ChartScoreOfScoredEntry(e: GardenEntry)
    requires Scored(e) && e.emotionUnderstanding >= 0 && e.nutritionImprovementRate >= 0 && e.growthIndex >= 0
    ensures ChartScore(e) != e.averageScore ==> e.averageScore == 0 && ChartScore(e) == 1
    ensures 0 <= ChartScore(e) - e.averageScore <= 1
  {
  }

  /** The chart series: the journal reversed into oldest-first order, one point per entry. */
  function ChartData(history: seq<GardenEntry>): (r: seq<ChartPoint>)
    ensures |r| == |history|
  {
    if history == [] then [] else ChartData(history[1..]) + [PointOf(history[0])]
  }

  /** The i-th point charts the i-th oldest entry. */
  lemma {:induction false} ChartDataAt(history: seq<GardenEntry>, i: int)
    requires 0 <= i < |history|
    ensures ChartData(history)[i] == PointOf(history[|history| - 1 - i])
  {
    if i < |history| - 1 {
      ChartDataAt(history[1..], i);
    }
  }

  /** A newly saved entry is charted last, after every older point. */
  lemma ChartAfterSave(e: GardenEntry, history: seq<GardenEntry>)
    ensures ChartData([e] + history) == ChartData(history) + [PointOf(e)]
  {
    assert ([e] + history)[1..] == history;
  }

  /** The calendar's three tiers, on the same thresholds as the reward. */
  datatype Tier = Ripe | Sprout | Seed

  function TierOf(understanding: int): (r: Tier)
    ensures r == Ripe <==> 80 <= understanding
    ensures r == Sprout <==> 60 <= understanding < 80
    ensures r == Seed <==> understanding < 60
  {
    if understanding >= 80 then Ripe else if understanding >= 60 then Sprout else Seed
  }

  /** Each tier has its own icon: strawberry, sprout or grey dot. */
  function TierIcon(t: Tier): (r: string)
    ensures r == "🍓" <==> t == Ripe
    ensures r == "🌱" <==> t == Sprout
    ensures r == "🔘" <==> t == Seed
  {
    match t
    case Ripe => "🍓"
    case Sprout => "🌱"
    case Seed => "🔘"
  }

  /** Each tier has its own text colour: red, green or grey. */
  function TierColor(t: Tier): (r: string)
    ensures r == "#ef4444" <==> t == Ripe
    ensures r == "#22c55e" <==> t == Sprout
    ensures r == "#71717a" <==> t == Seed
  {
    match t
    case Ripe => "#ef4444"
    case Sprout => "#22c55e"
    case Seed => "#71717a"
  }

  /** The calendar tier and the coin reward tell the same tiers apart. */
  lemma TierMatchesReward(u: int)
    ensures TierOf(u) == Ripe <==> Reward(u) == 5
    ensures TierOf(u) == Sprout <==> Reward(u) == 3
    ensures TierOf(u) == Seed <==> Reward(u) == 1
  {
  }

  /** The day part of a timestamp: everything before the first 'T'. */
  function DatePart(s: string): (r: string)
    ensures r <= s
    ensures 'T' !in r
    ensures |r| < |s| ==> s[|r|] == 'T'
  {
    if s == [] || s[0] == 'T' then [] else [s[0]] + DatePart(s[1..])
  }

  /** A timestamp whose first 'T' is at index 10 has the ten characters before it as its day. */
  lemma DatePartOfIsoTimestamp(s: string)
    requires |s| > 10 && s[10] == 'T' && 'T' !in s[..10]
    ensures DatePart(s) == s[..10]
  {
  }

  /** A calendar event for one entry. */
  datatype CalendarEvent = CalendarEvent(title: string, date: string, entry: GardenEntry, textColor: string)

  /**
   * The event of one entry: on the entry's day, with the icon and colour of
   * its tier, which are those of the reward the entry earned.
   */
  function EventOf(e: GardenEntry): (r: CalendarEvent)
    ensures r.entry == e && r.date == DatePart(e.date)
    ensures r.title == "🍓" && r.textColor == "#ef4444" <==> Reward(e.emotionUnderstanding) == 5
    ensures r.title == "🌱" && r.textColor == "#22c55e" <==> Reward(e.emotionUnderstanding) == 3
    ensures r.title == "🔘" && r.textColor == "#71717a" <==> Reward(e.emotionUnderstanding) == 1
  {
    TierMatchesReward(e.emotionUnderstanding);
    var t := TierOf(e.emotionUnderstanding);
    CalendarEvent(TierIcon(t), DatePart(e.date), e, TierColor(t))
  }

  /** The calendar's events, one per entry, newest first like the journal. */
  function Events(history: seq<GardenEntry>): (r: seq<CalendarEvent>)
    ensures |r| == |history|
    ensures forall i :: 0 <= i < |history| ==> r[i].entry == history[i]
    ensures forall i :: 0 <= i < |history| ==> r[i].date == DatePart(history[i].date)
  {
    seq(|history|, i requires 0 <= i < |history| => EventOf(history[i]))
  }

  /**
   * An event's icon and colour name its entry's reward: strawberry and red
   * for 5 coins, sprout and green for 3, grey dot and grey for 1.
   */
  lemma EventIconIsRewardTier(history: seq<GardenEntry>, i: int)
    requires 0 <= i < |history|
    ensures var ev := Events(history)[i];
      && (ev.title == "🍓" && ev.textColor == "#ef4444" <==> Reward(history[i].emotionUnderstanding) == 5)
      && (ev.title == "🌱" && ev.textColor == "#22c55e" <==> Reward(history[i].emotionUnderstanding) == 3)
      && (ev.title == "🔘" && ev.textColor == "#71717a" <==> Reward(history[i].emotionUnderstanding) == 1)
  {
    assert Events(history)[i] == EventOf(history[i]);
    TierMatchesReward(history[i].emotionUnderstanding);
  }

  /** The emoji drawn over the character for an accessory id, none for an unknown id. */
  function AccessoryEmoji(id: string): (r: Option<string>)
    ensures r.Some? <==> id in {"overalls", "hairpin", "cowboy-hat", "ribbon", "sunglasses", "bag", "sneakers", "crown"}
  {
    if id == "overalls" then Some("👖")
    else if id == "hairpin" then Some("🌸")
    else if id == "cowboy-hat" then Some("🤠")
    else if id == "ribbon" then Some("🎀")
    else if id == "sunglasses" then Some("🕶️")
    else if id == "bag" then Some("👜")
    else if id == "sneakers" then Some("👟")
    else if id == "crown" then Some("👑")
    else None
  }

  /** An id has an emoji exactly when the shop sells it as an accessory. */
  lemma AccessoryEmojiCoversShop(id: string)
    ensures AccessoryEmoji(id).Some? <==>
            exists k :: 0 <= k < |ShopItems| && ShopItems[k].kind == AccessoryItem && ShopItems[k].id == id
  {
    if AccessoryEmoji(id).Some? {
      var k := if id == "overalls" then 10 else if id == "hairpin" then 11
        else if id == "cowboy-hat" then 12 else if id == "ribbon" then 13
        else if id == "sunglasses" then 14 else if id == "bag" then 15
        else if id == "sneakers" then 16 else 17;
      assert ShopItems[k].kind == AccessoryItem && ShopItems[k].id == id;
    } else {
      forall k | 0 <= k < |ShopItems| && ShopItems[k].kind == AccessoryItem
        ensures ShopItems[k].id != id
      {
        assert 10 <= k;
      }
    }
  }

  /** The emoji for the plant's emotion key, a strawberry when the key is not an emotion. */
  function EmotionIcon(key: string): (r: string)
    ensures forall e :: EmotionName(e) == key ==> r == EmotionEmoji(e)
    ensures (forall e :: EmotionName(e) != key) ==> r == "🍓"
  {
    match ParseEmotion(key)
    case Some(e) => EmotionEmoji(e)
    case None => "🍓"
  }

  /** The strawberry stands exactly for keys outside the enumeration. */
  lemma EmotionIconDefault(key: string)
    ensures EmotionIcon(key) == "🍓" <==> ParseEmotion(key).None?
  {
  }
}
