/** Replace Temp with Query: local variables holding a computed value, and
    the same computations moved into helper functions called where the
    value is needed. JS numbers are exact reals here. */
module ReplaceTempWithQuery {
  import opened Js

  // ---------------------------------------------------------------------------
  // Example 1: price with a discount factor

  datatype Order = Order(quantity: int, itemPrice: int)

  /** `basePrice(order)` */
  function BasePrice(order: Order): int {
    order.quantity * order.itemPrice
  }

  /** `discountFactor(order)`: a function of the base price alone. */
  function DiscountFactor(order: Order): (r: real)
    ensures r == 0.95 <==> BasePrice(order) > 1000
    ensures r == 0.98 <==> BasePrice(order) <= 1000
  {
    if BasePrice(order) > 1000 then 0.95 else 0.98
  }

  /** The temp-variable version. */
  function Example1Before(order: Order): (r: real)
    ensures BasePrice(order) >= 0 ==> 0.95 * BasePrice(order) as real <= r <= 0.98 * BasePrice(order) as real
  {
    var basePrice := order.quantity * order.itemPrice;
    var discountFactor := if basePrice > 1000 then 0.95 else 0.98;
    basePrice as real * discountFactor
  }

  function Example1After(order: Order): (r: real)
    ensures r == Example1Before(order)
  {
    BasePrice(order) as real * DiscountFactor(order)
  }

  /** Two orders with the same base price get the same discounted price. */
  lemma {:induction false} PriceDependsOnBasePrice(a: Order, b: Order)
    requires BasePrice(a) == BasePrice(b)
    ensures Example1After(a) == Example1After(b)
  {
    assert DiscountFactor(a) == DiscountFactor(b);
  }

  /** The fixture (100 at 10) has base price exactly 1000, which is not above
      the threshold: the factor is 0.98 and the price 980. */
  lemma Example1Fixture()
    ensures DiscountFactor(Order(100, 10)) == 0.98
    ensures Example1Before(Order(100, 10)) == 980.0
  {
  }

  // ---------------------------------------------------------------------------
  // Example 2: total, tax and grand total

  datatype Item = Item(price: int, quantity: int)

  function LineAmount(item: Item): int {
    item.price * item.quantity
  }

  /** `items.reduce((sum, item) => sum + item.price * item.quantity, 0)`,
      folding from the left as `reduce` does. */
  function ReduceTotal(sum: int, items: seq<Item>): int
    decreases |items|
  {
    if items == [] then sum else ReduceTotal(sum + LineAmount(items[0]), items[1..])
  }

  /** `calculateTotal(items)`: the sum of the line amounts, which is what
      the source's `reduce` from 0 computes. */
  function CalculateTotal(items: seq<Item>): (r: int)
    ensures r == ReduceTotal(0, items)
  {
    ReduceTotalIsSum(0, items);
    Sum(Map(items, LineAmount))
  }

  /** The left fold starting at `acc` adds the sum of the line amounts. */
  lemma {:induction false} ReduceTotalIsSum(acc: int, items: seq<Item>)
    ensures ReduceTotal(acc, items) == acc + Sum(Map(items, LineAmount))
    decreases |items|
  {
    if items != [] {
      var x := LineAmount(items[0]);
      assert ReduceTotal(acc, items) == ReduceTotal(acc + x, items[1..]);
      ReduceTotalIsSum(acc + x, items[1..]);
      SumMapCons(items, LineAmount);
    }
  }

  /** `calculateTax(items)` */
  function CalculateTax(items: seq<Item>): real {
    CalculateTotal(items) as real * 0.2
  }

  /** `calculateGrandTotal(items)` */
  function CalculateGrandTotal(items: seq<Item>): (r: real)
    ensures r == 1.2 * CalculateTotal(items) as real
  {
    CalculateTotal(items) as real + CalculateTax(items)
  }

  datatype Totals = Totals(total: int, tax: real, grandTotal: real)

  function Example2Before(items: seq<Item>): (r: Totals)
    ensures r.total == CalculateTotal(items)
    ensures r.grandTotal == r.total as real + r.tax
  {
    var total := ReduceTotal(0, items);
    var taxRate := 0.2;
    var tax := total as real * taxRate;
    var grandTotal := total as real + tax;
    ReduceTotalIsSum(0, items);
    Totals(total, tax, grandTotal)
  }

  function Example2After(items: seq<Item>): (r: Totals)
    ensures r == Example2Before(items)
  {
    Totals(CalculateTotal(items), CalculateTax(items), CalculateGrandTotal(items))
  }

  /** 50*1 + 35*2 = 120, so tax 24 and grand total 144. */
  lemma Example2Fixture()
    ensures Example2After([Item(50, 1), Item(35, 2)]) == Totals(120, 24.0, 144.0)
  {
    assert Map([Item(50, 1), Item(35, 2)], LineAmount) == [50, 70];
    assert Sum([50, 70]) == 120;
  }

  // ---------------------------------------------------------------------------
  // Example 3: priority customer message

  datatype CustomerOrder = CustomerOrder(amount: int)

  datatype Customer = Customer(orders: seq<CustomerOrder>)

  function Amount(order: CustomerOrder): int {
    order.amount
  }

  /** `customer.orders.reduce((sum, order) => sum + order.amount, 0)` */
  function ReduceAmounts(sum: int, orders: seq<CustomerOrder>): int
    decreases |orders|
  {
    if orders == [] then sum else ReduceAmounts(sum + Amount(orders[0]), orders[1..])
  }

  /** `totalSpent(customer)`: the sum of the order amounts, which is what
      the source's `reduce` from 0 computes. */
  function TotalSpent(customer: Customer): (r: int)
    ensures r == ReduceAmounts(0, customer.orders)
  {
    ReduceAmountsIsSum(0, customer.orders);
    Sum(Map(customer.orders, Amount))
  }

  lemma {:induction false} ReduceAmountsIsSum(acc: int, orders: seq<CustomerOrder>)
    ensures ReduceAmounts(acc, orders) == acc + Sum(Map(orders, Amount))
    decreases |orders|
  {
    if orders != [] {
      var x := Amount(orders[0]);
      assert ReduceAmounts(acc, orders) == ReduceAmounts(acc + x, orders[1..]);
      ReduceAmountsIsSum(acc + x, orders[1..]);
      SumMapCons(orders, Amount);
    }
  }

  /** `isPriorityCustomer(customer)` */
  function IsPriorityCustomer(customer: Customer): (r: bool)
    ensures r <==> Sum(Map(customer.orders, Amount)) > 1000
  {
    TotalSpent(customer) > 1000
  }

  function Example3Before(customer: Customer): (r: string)
  {
    ReduceAmountsIsSum(0, customer.orders);
    var totalSpent := ReduceAmounts(0, customer.orders);
    var isPriority := totalSpent > 1000;
    if isPriority then "High priority customer with balance: " + IntToString(totalSpent)
    else "Regular customer with balance: " + IntToString(totalSpent)
  }

  function Example3After(customer: Customer): string {
    var priority := if IsPriorityCustomer(customer) then "High priority" else "Regular";
    priority + " customer with balance: " + IntToString(TotalSpent(customer))
  }

  /** The After version's two-part heads spell the Before version's texts. */
  lemma HighHead()
    ensures "High priority" + " customer with balance: " == "High priority customer with balance: "
  {
  }

  lemma RegularHead()
    ensures "Regular" + " customer with balance: " == "Regular customer with balance: "
  {
  }

  lemma {:induction false} Example3Agree(customer: Customer)
    ensures Example3After(customer) == Example3Before(customer)
  {
    ReduceAmountsIsSum(0, customer.orders);
    HighHead();
    RegularHead();
  }

  /** The message names the customer's class by its first letter and ends
      with the total spent. */
  lemma {:induction false} Example3Message(customer: Customer)
    ensures var r := Example3After(customer);
            |r| > 0 && (r[0] == 'H' <==> IsPriorityCustomer(customer))
    ensures var r := Example3After(customer);
            var balance := IntToString(TotalSpent(customer));
            |balance| <= |r| && r[|r| - |balance|..] == balance
  {
    var priority := if IsPriorityCustomer(customer) then "High priority" else "Regular";
    var head := priority + " customer with balance: ";
    var balance := IntToString(TotalSpent(customer));
    assert Example3After(customer) == head + balance;
    assert (head + balance)[|head + balance| - |balance|..] == balance;
  }

  lemma Example3FixtureTotal(customer: Customer)
    requires customer == Customer([CustomerOrder(500), CustomerOrder(300), CustomerOrder(700)])
    ensures TotalSpent(customer) == 1500
  {
    assert Map(customer.orders, Amount) == [500, 300, 700];
    assert Sum([500, 300, 700]) == 1500 by {
      assert [500, 300, 700][..2] == [500, 300];
      assert [500, 300][..1] == [500];
    }
  }

  lemma Balance1500()
    ensures IntToString(1500) == "1500"
  {
    assert NatToString(15) == NatToString(1) + "5";
    assert NatToString(150) == NatToString(15) + "0";
    assert NatToString(1500) == NatToString(150) + "0";
  }

  lemma FixtureText()
    ensures "High priority customer with balance: " + "1500" == "High priority customer with balance: 1500"
  {
  }

  /** 500 + 300 + 700 = 1500, above 1000. */
  lemma Example3Fixture(customer: Customer)
    requires customer == Customer([CustomerOrder(500), CustomerOrder(300), CustomerOrder(700)])
    ensures Example3After(customer) == "High priority customer with balance: 1500"
  {
    Example3FixtureTotal(customer);
    Balance1500();
    HighHead();
    FixtureText();
  }
}
