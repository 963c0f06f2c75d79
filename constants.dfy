/** The fixed tables of the app: emotion emojis, the shop's items and the sample data. */
module Constants {
  import opened Types

  /** The emoji shown for each plant emotion. */
  function EmotionEmoji(e: PlantEmotion): string {
    match e
    case Happy => "😊"
    case Vibrant => "✨"
    case Tired => "😴"
    case Droopy => "😔"
    case Growing => "🌱"
    case Healthy => "💪"
    case Wilting => "🥀"
  }

  datatype ItemKind = ThemeItem | AccessoryItem

  /** A shop item; display name and description are left out. */
  datatype ShopItem = ShopItem(id: string, price: int, kind: ItemKind)

  /** The shop's catalogue, ten themes then eight accessories, in table order. */
  const ShopItems: seq<ShopItem> := [
    ShopItem("clouds", 10, ThemeItem),
    ShopItem("starry", 15, ThemeItem),
    ShopItem("pink-forest", 12, ThemeItem),
    ShopItem("pastel", 8, ThemeItem),
    ShopItem("sunset", 13, ThemeItem),
    ShopItem("ocean", 11, ThemeItem),
    ShopItem("mountain", 9, ThemeItem),
    ShopItem("city", 14, ThemeItem),
    ShopItem("space", 15, ThemeItem),
    ShopItem("garden", 12, ThemeItem),
    ShopItem("overalls", 10, AccessoryItem),
    ShopItem("hairpin", 5, AccessoryItem),
    ShopItem("cowboy-hat", 12, AccessoryItem),
    ShopItem("ribbon", 6, AccessoryItem),
    ShopItem("sunglasses", 8, AccessoryItem),
    ShopItem("bag", 7, AccessoryItem),
    ShopItem("sneakers", 9, AccessoryItem),
    ShopItem("crown", 12, AccessoryItem)
  ]

  const SamplePhotoUrl := "https://images.unsplash.com/photo-1543528176-61b2395143a4?auto=format&fit=crop&w=500&h=500"
  const SampleMood := "오늘은 학교에서 친구들과 딸기 키우기 프로젝트를 시작해서 정말 설레고 기분이 좋아요!"
  const SampleScore := 90
}
