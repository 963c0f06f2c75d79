/** The shop's table lookup. */
module Shop {
  import opened Wrappers
  import opened Types
  import opened Constants

  /** The first item of the table with the given id, if any. */
  function FindItem(items: seq<ShopItem>, id: string): (r: Option<ShopItem>)
    ensures r.Some? ==> r.value in items && r.value.id == id
    ensures r.None? <==> forall k :: 0 <= k < |items| ==> items[k].id != id
    ensures r.Some? ==> exists k :: 0 <= k < |items| && items[k] == r.value
                                    && forall j :: 0 <= j < k ==> items[j].id != id
  {
    if items == [] then None
    else if items[0].id == id then Some(items[0])
    else
      var r := FindItem(items[1..], id);
      assert r.Some? ==> exists k :: 1 <= k < |items| && items[k] == r.value
                                     && forall j :: 0 <= j < k ==> items[j].id != id by {
        if r.Some? {
          var k' :| 0 <= k' < |items[1..]| && items[1..][k'] == r.value
                    && forall j :: 0 <= j < k' ==> items[1..][j].id != id;
          assert items[k' + 1] == r.value;
          forall j | 0 <= j < k' + 1 ensures items[j].id != id {
            if j > 0 { assert items[j] == items[1..][j - 1]; }
          }
        }
      }
      r
  }

  /**
   * The profile after a purchase: an id the table does not hold changes
   * nothing; otherwise the price is paid and the id is appended to the
   * owned list of the item's kind, the other list and fields kept.
   */
  function Buy(u: UserProfile, id: string, price: int): (r: UserProfile)
    ensures FindItem(ShopItems, id).None? ==> r == u
    ensures FindItem(ShopItems, id).Some? ==>
      && r.coins == u.coins - price
      && r.name == u.name && r.currentTheme == u.currentTheme && r.currentAccessory == u.currentAccessory
      && var kind := FindItem(ShopItems, id).value.kind;
      && r.purchasedThemes == (if kind == ThemeItem then u.purchasedThemes + [id] else u.purchasedThemes)
      && r.purchasedAccessories == (if kind == AccessoryItem then u.purchasedAccessories + [id] else u.purchasedAccessories)
  {
    var item := FindItem(ShopItems, id);
    if item.None? then u
    else
      var kind := item.value.kind;
      u.(coins := u.coins - price,
         purchasedThemes := if kind == ThemeItem then u.purchasedThemes + [id] else u.purchasedThemes,
         purchasedAccessories := if kind == AccessoryItem then u.purchasedAccessories + [id] else u.purchasedAccessories)
  }

  /**
   * The table's ids are distinct: any two differ in length or in one of
   * their first two characters.
   */
  lemma ShopIdsDistinct(i: int, j: int)
    requires 0 <= i < j < |ShopItems|
    ensures ShopItems[i].id != ShopItems[j].id
  {
    var a, b := ShopItems[i].id, ShopItems[j].id;
    assert |a| != |b| || a[0] != b[0] || a[1] != b[1];
  }

  /** So the lookup finds the very item that was clicked. */
  lemma FindShopItem(k: int)
    requires 0 <= k < |ShopItems|
    ensures FindItem(ShopItems, ShopItems[k].id) == Some(ShopItems[k])
  {
    var r := FindItem(ShopItems, ShopItems[k].id);
    var k' :| 0 <= k' < |ShopItems| && ShopItems[k'] == r.value
              && forall j :: 0 <= j < k' ==> ShopItems[j].id != ShopItems[k].id;
    if k' < k {
      ShopIdsDistinct(k', k);
    }
  }

  /** Buying a listed item at its price pays it and adds the id to the owned list of its kind. */
  lemma BuyListed(u: UserProfile, k: int)
    requires 0 <= k < |ShopItems|
    ensures var item := ShopItems[k];
      Buy(u, item.id, item.price) == u.(
        coins := u.coins - item.price,
        purchasedThemes := if item.kind == ThemeItem then u.purchasedThemes + [item.id] else u.purchasedThemes,
        purchasedAccessories := if item.kind == AccessoryItem then u.purchasedAccessories + [item.id] else u.purchasedAccessories)
  {
    FindShopItem(k);
  }

  /**
   * Every theme the shop sells is a typed theme identifier except
   * "garden", which the purchase nevertheless records as a theme.
   */
  lemma ShopThemesAreAppThemesButGarden(k: int)
    requires 0 <= k < |ShopItems| && ShopItems[k].kind == ThemeItem
    ensures IsAppTheme(ShopItems[k].id) <==> ShopItems[k].id != "garden"
  {
  }
}
