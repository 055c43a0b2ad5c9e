/** Inline Variable: a local that only names an expression, and the same
    code with the expression written where the local was used. */
module InlineVariable {
  import opened Js

  // ---------------------------------------------------------------------------
  // Example 1: base price threshold

  datatype PricedOrder = PricedOrder(basePrice: int, customerType: string)

  function CheckPriceBefore(anOrder: PricedOrder): (r: bool)
    ensures r <==> anOrder.basePrice >= 1001
  {
    var basePrice := anOrder.basePrice;
    basePrice > 1000
  }

  /** The threshold is strict: 1000 itself is not a premium price. */
  function CheckPriceAfter(anOrder: PricedOrder): (r: bool)
    ensures r == CheckPriceBefore(anOrder)
    ensures r <==> anOrder.basePrice >= 1001
  {
    anOrder.basePrice > 1000
  }

  lemma Example1Fixture()
    ensures CheckPriceBefore(PricedOrder(1200, "premium")) && CheckPriceAfter(PricedOrder(1200, "premium"))
  {
  }

  // ---------------------------------------------------------------------------
  // Example 2: full name from a nested profile

  datatype Profile = Profile(firstName: string, lastName: string)

  datatype ProfileUser = ProfileUser(profile: Profile, isActive: bool)

  function GetUserFullNameBefore(user: ProfileUser): (r: string)
    ensures |r| == |user.profile.firstName| + 1 + |user.profile.lastName|
    ensures r[..|user.profile.firstName|] == user.profile.firstName
    ensures r[|user.profile.firstName|] == ' '
    ensures r[|user.profile.firstName| + 1..] == user.profile.lastName
  {
    var firstName := user.profile.firstName;
    var lastName := user.profile.lastName;
    firstName + " " + lastName
  }

  /** The first name, one space, the last name. */
  function GetUserFullNameAfter(user: ProfileUser): (r: string)
    ensures r == GetUserFullNameBefore(user)
    ensures |r| == |user.profile.firstName| + 1 + |user.profile.lastName|
    ensures r[..|user.profile.firstName|] == user.profile.firstName
    ensures r[|user.profile.firstName|] == ' '
    ensures r[|user.profile.firstName| + 1..] == user.profile.lastName
  {
    user.profile.firstName + " " + user.profile.lastName
  }

  lemma Example2Fixture()
    ensures GetUserFullNameAfter(ProfileUser(Profile("John", "Doe"), true)) == "John Doe"
  {
    assert "John" + " " + "Doe" == "John Doe";
  }

  // ---------------------------------------------------------------------------
  // Example 3: names of the items in stock

  datatype StockItem = StockItem(name: string, inStock: bool, price: real)

  function InStock(item: StockItem): bool {
    item.inStock
  }

  function ItemName(item: StockItem): string {
    item.name
  }

  function ProcessItemsBefore(items: seq<StockItem>): (r: seq<string>)
    ensures |r| <= |items|
    ensures forall name :: name in r ==> exists item :: item in items && item.inStock && item.name == name
  {
    var availableItems := Filter(items, InStock);
    var r := Map(availableItems, ItemName);
    forall name | name in r
      ensures exists item :: item in items && item.inStock && item.name == name
    {
      MapIn(availableItems, ItemName, name);
    }
    r
  }

  /** Never longer than the input; every name is that of an in-stock item. */
  function ProcessItemsAfter(items: seq<StockItem>): (r: seq<string>)
    ensures r == ProcessItemsBefore(items)
    ensures |r| <= |items|
    ensures forall name :: name in r ==> exists item :: item in items && item.inStock && item.name == name
  {
    var r := Map(Filter(items, InStock), ItemName);
    forall name | name in r
      ensures exists item :: item in items && item.inStock && item.name == name
    {
      MapIn(Filter(items, InStock), ItemName, name);
    }
    r
  }

  /** Conversely, every in-stock item's name is listed. */
  lemma {:induction false} InStockItemsListed(items: seq<StockItem>, item: StockItem)
    requires item in items && item.inStock
    ensures item.name in ProcessItemsAfter(items)
  {
    FilterKeeps(items, InStock, item);
    var available := Filter(items, InStock);
    var k :| 0 <= k < |available| && available[k] == item;
    assert Map(available, ItemName)[k] == item.name;
  }

  const Example3Items := [StockItem("Apple", true, 1.5), StockItem("Banana", false, 0.8), StockItem("Orange", true, 2.0)]

  lemma Example3Fixture()
    ensures ProcessItemsAfter(Example3Items) == ["Apple", "Orange"]
  {
    assert Filter(Example3Items, InStock) == [Example3Items[0], Example3Items[2]] by {
      assert Example3Items[1..][1..] == [Example3Items[2]];
    }
  }
}
