/** Remove dead code: an unused helper, statements after a `return`, and
    unused variables, each removed without changing the result. */
module RemoveDeadCode {
  import opened Js

  // ---------------------------------------------------------------------------
  // Example 1: an unused helper

  datatype LineItem = LineItem(price: int)

  datatype Order = Order(id: int, items: seq<LineItem>)

  datatype OrderSummary = OrderSummary(orderId: int, total: int)

  const Example1Order := Order(123, [LineItem(50), LineItem(50)])

  function PriceOf(item: LineItem): int {
    item.price
  }

  /** `items.reduce((sum, item) => sum + item.price, 0)`: equal to the sum of
      the item prices. */
  function CalculateTotal1(items: seq<LineItem>): (r: int)
    ensures r == Sum(Map(items, PriceOf))
  {
    if items == [] then 0
    else
      var init := items[..|items| - 1];
      assert Map(items, PriceOf)[..|items| - 1] == Map(init, PriceOf);
      CalculateTotal1(init) + items[|items| - 1].price
  }

  function Example1Before(order: Order): (r: OrderSummary)
    ensures r == Example1After(order)
    ensures r.orderId == order.id && r.total == Sum(Map(order.items, PriceOf))
  {
    var total := CalculateTotal1(order.items);
    OrderSummary(order.id, total)
  }

  function Example1After(order: Order): OrderSummary {
    var total := CalculateTotal1(order.items);
    OrderSummary(order.id, total)
  }

  lemma Example1Fixture()
    ensures Example1Before(Example1Order) == OrderSummary(123, 100)
  {
    assert [LineItem(50), LineItem(50)][..1] == [LineItem(50)];
  }

  // ---------------------------------------------------------------------------
  // Example 2: unreachable code after `return`

  datatype Account = Account(status: string)

  const Example2User := Account("active")

  /** Returns the status; the log line and the upper-cased copy after the
      `return` never run. */
  method Example2Before(user: Account) returns (r: string)
    ensures r == Example2After(user)
  {
    r := user.status;
    return;
    var output := ["This will never execute"];
    var temp := ToUpper(user.status);
    r := temp;
  }

  function Example2After(user: Account): (r: string)
    ensures r == user.status
  {
    user.status
  }

  // ---------------------------------------------------------------------------
  // Example 3: unused variables

  datatype User = User(name: string, age: int, email: string)

  datatype NameAge = NameAge(name: string, age: int)

  const Example3User := User("John", 30, "john@example.com")

  /** The lower-cased email and the 'test' string are computed and dropped. */
  function Example3Before(user: User): (r: NameAge)
    ensures r == Example3After(user)
  {
    var unusedVariable := ToLower(user.email);
    var anotherUnused := "test";
    NameAge(user.name, user.age)
  }

  /** The result carries the name and the age, and nothing of the email. */
  function Example3After(user: User): (r: NameAge)
    ensures r.name == user.name && r.age == user.age
  {
    NameAge(user.name, user.age)
  }

  /** The email, read only by the unused variable, has no effect on the result. */
  lemma EmailHasNoEffect(user: User, email: string)
    ensures Example3Before(user) == Example3Before(user.(email := email))
  {
  }

  lemma Example3Fixture()
    ensures Example3Before(Example3User) == NameAge("John", 30)
  {
  }
}
