/** Participating restaurants (Restaurant.java, MenuItem.java): a menu and a location, both read lazily. */
module Restaurants {
  import opened Wrappers
  import opened Positions

  /** A line of a menu. */
  datatype MenuItem = MenuItem(name: string, priceInPence: int)

  /**
   * The name-to-price map `getMenuItemPrices` fills: each item, in menu order, is put
   * under its name, so a later item with the same name replaces an earlier one.
   */
  function MenuPrices(items: seq<MenuItem>): map<string, int>
  {
    if |items| == 0 then map[]
    else MenuPrices(items[..|items| - 1])[items[|items| - 1].name := items[|items| - 1].priceInPence]
  }

  /** The names appearing on a menu. */
  ghost function Names(items: seq<MenuItem>): set<string>
  {
    set i | 0 <= i < |items| :: items[i].name
  }

  /** The map's keys are exactly the names on the menu. */
  lemma {:induction false} MenuPricesKeys(items: seq<MenuItem>)
    ensures MenuPrices(items).Keys == Names(items)
    decreases |items|
  {
    if |items| > 0 {
      var prefix := items[..|items| - 1];
      MenuPricesKeys(prefix);
      assert Names(items) == Names(prefix) + {items[|items| - 1].name} by {
        forall n | n in Names(items) ensures n in Names(prefix) + {items[|items| - 1].name} {
          var i :| 0 <= i < |items| && items[i].name == n;
          if i < |items| - 1 { assert prefix[i] == items[i]; }
        }
        forall n | n in Names(prefix) ensures n in Names(items) {
          var i :| 0 <= i < |prefix| && prefix[i].name == n;
          assert items[i] == prefix[i];
        }
      }
    }
  }

  /** The price under a name is that of the last menu item carrying the name. */
  lemma {:induction false} LastPriceWins(items: seq<MenuItem>, i: int)
    requires 0 <= i < |items|
    requires forall j :: i < j < |items| ==> items[j].name != items[i].name
    ensures items[i].name in MenuPrices(items)
    ensures MenuPrices(items)[items[i].name] == items[i].priceInPence
    decreases |items|
  {
    if i < |items| - 1 {
      var prefix := items[..|items| - 1];
      assert prefix[i] == items[i];
      LastPriceWins(prefix, i);
    }
  }

  /** A restaurant as received: its fields never change, but two derived values are cached. */
  class Restaurant {
    const name: string
    const lng: real
    const lat: real
    const menuItems: seq<MenuItem>
    /** The memoised name-to-price map; null until first asked for. */
    var menuItemPrices: Option<map<string, int>>
    /** The memoised location; null until first asked for. */
    var restLngLat: Option<LngLat>

    /** Each cache, once filled, holds what it is a cache of. */
    ghost predicate Valid()
      reads this
    {
      && (menuItemPrices.Some? ==> menuItemPrices.value == MenuPrices(menuItems))
      && (restLngLat.Some? ==> restLngLat.value == LngLat(lng, lat))
    }

    constructor (name: string, lng: real, lat: real, menuItems: seq<MenuItem>)
      ensures this.name == name && this.lng == lng && this.lat == lat && this.menuItems == menuItems
      ensures menuItemPrices == None && restLngLat == None && Valid()
    {
      this.name := name;
      this.lng := lng;
      this.lat := lat;
      this.menuItems := menuItems;
      menuItemPrices := None;
      restLngLat := None;
    }

    /** `getMenuItemPrices`: built by one pass over the menu at the first call, then returned from the cache. */
    method GetMenuItemPrices() returns (prices: map<string, int>)
      requires Valid()
      modifies this`menuItemPrices
      ensures Valid() && menuItemPrices == Some(prices)
      ensures prices == MenuPrices(menuItems)
      ensures old(menuItemPrices).Some? ==> prices == old(menuItemPrices).value
    {
      if menuItemPrices.None? {
        var built: map<string, int> := map[];
        for i := 0 to |menuItems|
          invariant built == MenuPrices(menuItems[..i])
        {
          assert menuItems[..i + 1][..i] == menuItems[..i];
          built := built[menuItems[i].name := menuItems[i].priceInPence];
        }
        assert menuItems[..|menuItems|] == menuItems;
        menuItemPrices := Some(built);
      }
      prices := menuItemPrices.value;
    }

    /** `getLngLat`: the location, made at the first call and returned from the cache afterwards. */
    method GetLngLat() returns (p: LngLat)
      requires Valid()
      modifies this`restLngLat
      ensures Valid() && restLngLat == Some(p)
      ensures p == LngLat(lng, lat)
      ensures old(restLngLat).Some? ==> p == old(restLngLat).value
    {
      if restLngLat.None? {
        restLngLat := Some(LngLat(lng, lat));
      }
      p := restLngLat.value;
    }
  }
}
