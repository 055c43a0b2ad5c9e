/** Rename Variable: the same three functions with short and with
    descriptive local names. The loops push into a local array or
    accumulate a running total. */
module RenameVariable {
  import opened Js

  // ---------------------------------------------------------------------------
  // Example 1: area

  function CalculateAreaBefore(height: int, width: int): int {
    var a := height * width;
    a
  }

  function CalculateAreaAfter(height: int, width: int): (area: int)
    ensures area == CalculateAreaBefore(height, width)
  {
    var area := height * width;
    area
  }

  /** The area grows with each side when the other is positive. */
  lemma {:induction false} AreaMonotone(height: int, width: int, wider: int)
    requires height > 0 && width <= wider
    ensures CalculateAreaAfter(height, width) <= CalculateAreaAfter(height, wider)
  {
    assert height * (wider - width) >= 0 by {
      NonNegativeProduct(height, wider - width);
    }
  }

  lemma NonNegativeProduct(a: int, b: int)
    requires a >= 0 && b >= 0
    ensures a * b >= 0
  {
  }

  lemma Example1Fixture()
    ensures CalculateAreaBefore(5, 10) == 50 && CalculateAreaAfter(5, 10) == 50
  {
  }

  // ---------------------------------------------------------------------------
  // Example 2: names of the active users

  datatype User = User(name: string, age: int, active: bool)

  function IsActive(u: User): bool {
    u.active
  }

  function Name(u: User): string {
    u.name
  }

  /** The names of the active users, in input order. */
  function ActiveUserNames(users: seq<User>): (r: seq<string>)
    ensures |r| <= |users|
    ensures forall name :: name in r ==> exists u :: u in users && u.active && u.name == name
  {
    var names := Map(Filter(users, IsActive), Name);
    forall name | name in names
      ensures exists u :: u in users && u.active && u.name == name
    {
      MapIn(Filter(users, IsActive), Name, name);
    }
    names
  }

  /** Taking one more user extends the names by that user's name when the
      user is active. */
  lemma ActiveUserNamesSnoc(users: seq<User>, u: User)
    ensures ActiveUserNames(users + [u]) == ActiveUserNames(users) + (if u.active then [u.name] else [])
  {
    FilterSnoc(users, u, IsActive);
    MapAppend(Filter(users, IsActive), if u.active then [u] else [], Name);
  }

  /** The loop over `u` pushing into `r`. */
  method GetActiveUserNamesBefore(users: seq<User>) returns (r: seq<string>)
    ensures r == ActiveUserNames(users)
  {
    r := [];
    for k := 0 to |users|
      invariant r == ActiveUserNames(users[..k])
    {
      var u := users[k];
      if u.active {
        r := r + [u.name];
      }
      assert users[..k + 1] == users[..k] + [u];
      ActiveUserNamesSnoc(users[..k], u);
    }
    assert users[..|users|] == users;
  }

  /** The loop over `user` pushing into `activeUserNames`. */
  method GetActiveUserNamesAfter(users: seq<User>) returns (activeUserNames: seq<string>)
    ensures activeUserNames == ActiveUserNames(users)
  {
    activeUserNames := [];
    for k := 0 to |users|
      invariant activeUserNames == ActiveUserNames(users[..k])
    {
      var user := users[k];
      if user.active {
        activeUserNames := activeUserNames + [user.name];
      }
      assert users[..k + 1] == users[..k] + [user];
      ActiveUserNamesSnoc(users[..k], user);
    }
    assert users[..|users|] == users;
  }

  const Example2Users := [User("Alice", 25, true), User("Bob", 30, false), User("Carol", 35, true)]

  method Example2Fixture() returns (before: seq<string>, after: seq<string>)
    ensures before == after == ["Alice", "Carol"]
  {
    before := GetActiveUserNamesBefore(Example2Users);
    after := GetActiveUserNamesAfter(Example2Users);
    assert Filter(Example2Users, IsActive) == [User("Alice", 25, true), User("Carol", 35, true)] by {
      assert Example2Users[1..][1..] == [User("Carol", 35, true)];
    }
  }

  // ---------------------------------------------------------------------------
  // Example 3: inventory value

  datatype Product = Product(name: string, price: int, quantity: int)

  function ProductValue(p: Product): int {
    p.price * p.quantity
  }

  /** The sum of price * quantity over the products. */
  function InventoryValue(products: seq<Product>): int {
    Sum(Map(products, ProductValue))
  }

  lemma InventoryValueSnoc(products: seq<Product>, p: Product)
    ensures InventoryValue(products + [p]) == InventoryValue(products) + ProductValue(p)
  {
    MapAppend(products, [p], ProductValue);
    SumAppend(Map(products, ProductValue), [ProductValue(p)]);
    assert [ProductValue(p)][..0] == [];
  }

  /** The loop accumulating `t`; the partial sum is its invariant. */
  method CalculateInventoryValueBefore(products: seq<Product>) returns (t: int)
    ensures t == InventoryValue(products)
  {
    t := 0;
    for k := 0 to |products|
      invariant t == InventoryValue(products[..k])
    {
      var p := products[k];
      var v := p.price * p.quantity;
      t := t + v;
      assert products[..k + 1] == products[..k] + [p];
      InventoryValueSnoc(products[..k], p);
    }
    assert products[..|products|] == products;
  }

  /** The loop accumulating `totalValue`. */
  method CalculateInventoryValueAfter(products: seq<Product>) returns (totalValue: int)
    ensures totalValue == InventoryValue(products)
  {
    totalValue := 0;
    for k := 0 to |products|
      invariant totalValue == InventoryValue(products[..k])
    {
      var product := products[k];
      var productValue := product.price * product.quantity;
      totalValue := totalValue + productValue;
      assert products[..k + 1] == products[..k] + [product];
      InventoryValueSnoc(products[..k], product);
    }
    assert products[..|products|] == products;
  }

  /** Stock of non-negative price and quantity has a non-negative value. */
  lemma InventoryValueNonNegative(products: seq<Product>)
    requires forall k :: 0 <= k < |products| ==> products[k].price >= 0 && products[k].quantity >= 0
    ensures InventoryValue(products) >= 0
  {
    var values := Map(products, ProductValue);
    forall k | 0 <= k < |values|
      ensures values[k] >= 0
    {
      NonNegativeProduct(products[k].price, products[k].quantity);
    }
    SumNonNegative(values);
  }

  const Example3Products := [Product("Widget", 10, 5), Product("Gadget", 20, 3), Product("Doohickey", 15, 7)]

  /** 50 + 60 + 105 = 215. */
  method Example3Fixture() returns (before: int, after: int)
    ensures before == after == 215
  {
    before := CalculateInventoryValueBefore(Example3Products);
    after := CalculateInventoryValueAfter(Example3Products);
    assert Map(Example3Products, ProductValue) == [50, 60, 105];
    assert Sum([50, 60, 105]) == 215 by {
      assert [50, 60, 105][..2] == [50, 60];
      assert [50, 60][..1] == [50];
    }
  }
}
