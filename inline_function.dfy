/** Inline Function: a helper whose body is as clear as its name, and the
    same code with the body written at the call site. */
module InlineFunction {
  // ---------------------------------------------------------------------------
  // Example 1: driver rating

  datatype Driver = Driver(name: string, numberOfLateDeliveries: int)

  function MoreThanFiveLateDeliveries(driver: Driver): bool {
    driver.numberOfLateDeliveries > 5
  }

  function GetRatingBefore(driver: Driver): (rating: int)
    ensures rating in {1, 2}
    ensures rating == 2 <==> driver.numberOfLateDeliveries >= 6
  {
    if MoreThanFiveLateDeliveries(driver) then 2 else 1
  }

  /** 2 exactly for more than five late deliveries, otherwise 1. */
  function GetRatingAfter(driver: Driver): (rating: int)
    ensures rating == GetRatingBefore(driver)
    ensures rating in {1, 2}
    ensures rating == 2 <==> driver.numberOfLateDeliveries >= 6
  {
    if driver.numberOfLateDeliveries > 5 then 2 else 1
  }

  /** More late deliveries never lower the rating. */
  lemma {:induction false} RatingMonotone(a: Driver, b: Driver)
    requires a.numberOfLateDeliveries <= b.numberOfLateDeliveries
    ensures GetRatingAfter(a) <= GetRatingAfter(b)
  {
    if GetRatingAfter(a) == 2 {
      assert b.numberOfLateDeliveries > 5;
    }
  }

  lemma Example1Fixture()
    ensures GetRatingBefore(Driver("John", 7)) == GetRatingAfter(Driver("John", 7)) == 2
  {
  }

  // ---------------------------------------------------------------------------
  // Example 2: eligibility

  datatype AccountUser = AccountUser(name: string, age: int, hasAccount: bool)

  function IsAdult(age: int): bool {
    age >= 18
  }

  function IsEligibleBefore(user: AccountUser): (r: bool)
    ensures r <==> user.hasAccount && user.age > 17
  {
    IsAdult(user.age) && user.hasAccount
  }

  function IsEligibleAfter(user: AccountUser): (r: bool)
    ensures r == IsEligibleBefore(user)
    ensures r ==> user.hasAccount && user.age > 17
  {
    user.age >= 18 && user.hasAccount
  }

  lemma Example2Fixture()
    ensures IsEligibleAfter(AccountUser("Alice", 25, true))
    ensures !IsEligibleAfter(AccountUser("Alice", 17, true))
  {
  }

  // ---------------------------------------------------------------------------
  // Example 3: order tax through a delegating helper

  datatype TaxedOrder = TaxedOrder(amount: real, taxRate: real)

  datatype ProcessedOrder = ProcessedOrder(subtotal: real, tax: real, total: real)

  function CalculateTax(amount: real, rate: real): real {
    amount * rate
  }

  function CalculateOrderTax(order: TaxedOrder): real {
    CalculateTax(order.amount, order.taxRate)
  }

  function ProcessOrderBefore(order: TaxedOrder): (r: ProcessedOrder)
    ensures r.subtotal == order.amount
    ensures r.total == r.subtotal + r.tax
  {
    var tax := CalculateOrderTax(order);
    var total := order.amount + tax;
    ProcessedOrder(order.amount, tax, total)
  }

  function ProcessOrderAfter(order: TaxedOrder): (r: ProcessedOrder)
    ensures r == ProcessOrderBefore(order)
  {
    var tax := CalculateTax(order.amount, order.taxRate);
    var total := order.amount + tax;
    ProcessedOrder(order.amount, tax, total)
  }

  /** The total is the amount scaled by one plus the rate. */
  lemma {:induction false} TotalScales(order: TaxedOrder)
    ensures ProcessOrderAfter(order).total == order.amount * (1.0 + order.taxRate)
  {
    assert order.amount * (1.0 + order.taxRate) == order.amount + order.amount * order.taxRate;
  }

  lemma Example3Fixture()
    ensures ProcessOrderAfter(TaxedOrder(100.0, 0.08)) == ProcessedOrder(100.0, 8.0, 108.0)
  {
  }
}
