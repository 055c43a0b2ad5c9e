/** Extract Function: inline statements moved into named functions. The
    captured `console.log` becomes an output list that a small class appends
    to; the loops stay loops. */
module ExtractFunction {
  import opened Js

  // ---------------------------------------------------------------------------
  // Example 1: printing what a customer owes

  const Banner: seq<string> := ["***********************", "**** Customer Owes ****", "***********************"]

  method PrintBanner(console: Console)
    modifies console
    ensures console.output == old(console.output) + Banner
  {
    console.Log("***********************");
    console.Log("**** Customer Owes ****");
    console.Log("***********************");
  }

  datatype Order = Order(amount: int)

  datatype Invoice = Invoice(customer: string, orders: seq<Order>)

  function AmountOf(order: Order): int {
    order.amount
  }

  /** `orders.reduce((sum, order) => sum + order.amount, 0)` */
  function CalculateOutstanding(invoice: Invoice): int {
    Sum(Map(invoice.orders, AmountOf))
  }

  /** One more order raises the outstanding amount by exactly its amount. */
  lemma {:induction false} OutstandingAddOrder(invoice: Invoice, order: Order)
    ensures CalculateOutstanding(Invoice(invoice.customer, invoice.orders + [order]))
            == CalculateOutstanding(invoice) + order.amount
  {
    MapAppend(invoice.orders, [order], AmountOf);
    MapSingleton(order, AmountOf);
    SumAppend(Map(invoice.orders, AmountOf), [order.amount]);
    assert [order.amount][..0] == [];
  }

  /** The lines the example prints after the banner. */
  function DetailLines(invoice: Invoice, outstanding: int): seq<string> {
    ["name: " + invoice.customer, "amount: " + IntToString(outstanding)]
  }

  method Example1Before(invoice: Invoice) returns (output: seq<string>)
    ensures output == Banner + DetailLines(invoice, CalculateOutstanding(invoice))
  {
    var console := new Console();
    PrintBanner(console);
    var outstanding := CalculateOutstanding(invoice);
    console.Log("name: " + invoice.customer);
    console.Log("amount: " + IntToString(outstanding));
    output := console.output;
  }

  method PrintDetails(console: Console, invoice: Invoice, outstanding: int)
    modifies console
    ensures console.output == old(console.output) + DetailLines(invoice, outstanding)
  {
    console.Log("name: " + invoice.customer);
    console.Log("amount: " + IntToString(outstanding));
  }

  method Example1After(invoice: Invoice) returns (output: seq<string>)
    ensures output == Banner + DetailLines(invoice, CalculateOutstanding(invoice))
  {
    var console := new Console();
    PrintBanner(console);
    var outstanding := CalculateOutstanding(invoice);
    PrintDetails(console, invoice, outstanding);
    output := console.output;
  }

  const Example1Invoice := Invoice("BigCo", [Order(100), Order(200)])

  lemma Example1Fixture()
    ensures CalculateOutstanding(Example1Invoice) == 300
    ensures DetailLines(Example1Invoice, 300) == ["name: BigCo", "amount: 300"]
  {
    assert Map([Order(100), Order(200)], AmountOf) == [100, 200];
    assert [100, 200][..1] == [100];
    assert [100][..0] == [];
    assert IntToString(300) == "300" by {
      assert NatToString(30) == NatToString(3) + "0";
      assert NatToString(300) == NatToString(30) + "0";
    }
    assert "name: " + "BigCo" == "name: BigCo";
    assert "amount: " + "300" == "amount: 300";
  }

  // ---------------------------------------------------------------------------
  // Example 2: filtering users in a loop

  datatype User = User(name: string, age: int, email: string)

  /** At least 18, and an e-mail holding both '@' and '.'. */
  predicate IsValidUser(user: User) {
    user.age >= 18 && '@' in user.email && '.' in user.email
  }

  method Example2Before(users: seq<User>) returns (validUsers: seq<User>)
    ensures validUsers == Filter(users, IsValidUser)
    ensures forall k :: 0 <= k < |validUsers| ==> validUsers[k].age >= 18 && '@' in validUsers[k].email
  {
    validUsers := [];
    for k := 0 to |users|
      invariant validUsers == Filter(users[..k], IsValidUser)
    {
      FilterSnoc(users[..k], users[k], IsValidUser);
      assert users[..k + 1] == users[..k] + [users[k]];
      var user := users[k];
      if user.age >= 18 && '@' in user.email && '.' in user.email {
        validUsers := validUsers + [user];
      }
    }
    assert users[..|users|] == users;
  }

  method Example2After(users: seq<User>) returns (validUsers: seq<User>)
    ensures validUsers == Filter(users, IsValidUser)
  {
    validUsers := [];
    for k := 0 to |users|
      invariant validUsers == Filter(users[..k], IsValidUser)
    {
      FilterSnoc(users[..k], users[k], IsValidUser);
      assert users[..k + 1] == users[..k] + [users[k]];
      if IsValidUser(users[k]) {
        validUsers := validUsers + [users[k]];
      }
    }
    assert users[..|users|] == users;
  }

  /** Alice and Carol pass; Bob is 17 and his e-mail has no '@'. */
  lemma Example2Fixture(alice: User, bob: User, carol: User)
    requires alice == User("Alice", 25, "alice@example.com")
    requires bob == User("Bob", 17, "invalid-email")
    requires carol == User("Carol", 30, "carol@example.com")
    ensures Filter([alice, bob, carol], IsValidUser) == [alice, carol]
  {
    assert alice.email[5] == '@' && alice.email[13] == '.';
    assert carol.email[5] == '@' && carol.email[13] == '.';
    assert !IsValidUser(bob);
    assert [alice, bob, carol][1..] == [bob, carol];
    assert [bob, carol][1..] == [carol];
    assert [carol][1..] == [];
    assert IsValidUser(alice) && IsValidUser(carol);
    assert Filter([carol], IsValidUser) == [carol];
    assert Filter([bob, carol], IsValidUser) == [carol];
  }

  // ---------------------------------------------------------------------------
  // Example 3: validating and transforming an API response

  datatype ApiItem = ApiItem(id: int, name: string, price: real)

  /** `data` and `data.items` are None when missing. */
  datatype ResponseData = ResponseData(items: Option<seq<ApiItem>>)

  datatype ApiResponse = ApiResponse(status: int, data: Option<ResponseData>)

  /** Success with the transformed items, or the error message. */
  datatype Outcome = Success(items: seq<ApiItem>) | Failure(error: string)

  /** Upper-cased name and a 10% price increase. */
  function TransformItem(item: ApiItem): (r: ApiItem)
    ensures r.id == item.id && |r.name| == |item.name|
    ensures r.name == ToUpper(item.name)
    ensures r.price == item.price + item.price / 10.0
  {
    ApiItem(item.id, ToUpper(item.name), item.price * 1.1)
  }

  predicate HasItems(response: ApiResponse) {
    response.data.Some? && response.data.value.items.Some?
  }

  function Example3Before(apiResponse: ApiResponse): (r: Outcome)
    ensures r.Success? <==> apiResponse.status == 200 && HasItems(apiResponse)
    ensures r.Success? ==> |r.items| == |apiResponse.data.value.items.value|
    ensures r.Success? ==> forall k :: 0 <= k < |r.items| ==>
              r.items[k] == TransformItem(apiResponse.data.value.items.value[k])
    ensures apiResponse.status != 200 ==> r == Failure("API request failed")
    ensures apiResponse.status == 200 && !HasItems(apiResponse) ==> r == Failure("Invalid response format")
  {
    if apiResponse.status != 200 then Failure("API request failed")
    else if apiResponse.data.None? || apiResponse.data.value.items.None? then Failure("Invalid response format")
    else Success(Map(apiResponse.data.value.items.value, (item: ApiItem) => ApiItem(item.id, ToUpper(item.name), item.price * 1.1)))
  }

  /** The status check comes before the shape check. */
  function ValidateResponse(response: ApiResponse): (r: Option<string>)
    ensures response.status != 200 ==> r == Some("API request failed")
    ensures response.status == 200 && !HasItems(response) ==> r == Some("Invalid response format")
    ensures r.None? <==> response.status == 200 && HasItems(response)
  {
    if response.status != 200 then Some("API request failed")
    else if response.data.None? || response.data.value.items.None? then Some("Invalid response format")
    else None
  }

  function TransformItems(items: seq<ApiItem>): (r: seq<ApiItem>)
    ensures |r| == |items| && forall k :: 0 <= k < |items| ==> r[k] == TransformItem(items[k])
  {
    Map(items, TransformItem)
  }

  function Example3After(apiResponse: ApiResponse): (r: Outcome)
    ensures r == Example3Before(apiResponse)
  {
    var validation := ValidateResponse(apiResponse);
    if validation.Some? then Failure(validation.value)
    else
      var items := apiResponse.data.value.items.value;
      assert Map(items, (item: ApiItem) => ApiItem(item.id, ToUpper(item.name), item.price * 1.1)) == TransformItems(items);
      Success(TransformItems(items))
  }

  /** An error response fails with the status message whatever its body. */
  lemma StatusCheckedFirst(status: int, data: Option<ResponseData>)
    requires status != 200
    ensures Example3After(ApiResponse(status, data)) == Failure("API request failed")
  {
  }
}
