/** Preserve Whole Object: methods that took fields pulled out of a record,
    and the same methods taking the record itself. */
module PreserveWholeObject {
  import opened Js

  // ---------------------------------------------------------------------------
  // Example 1: heating plan range check

  datatype TempRange = TempRange(low: int, high: int)

  predicate InRange(range: TempRange, t: int) {
    range.low <= t <= range.high
  }

  datatype HeatingPlanBefore = HeatingPlanBefore(temperatureRange: TempRange)
  {
    predicate WithinRange(bottom: int, top: int) {
      bottom >= temperatureRange.low && top <= temperatureRange.high
    }
  }

  datatype HeatingPlan = HeatingPlan(temperatureRange: TempRange)
  {
    /** A non-empty range is within the plan exactly when both its ends are. */
    function WithinRange(tempRange: TempRange): (r: bool)
      ensures tempRange.low <= tempRange.high ==>
                (r <==> InRange(temperatureRange, tempRange.low) && InRange(temperatureRange, tempRange.high))
    {
      tempRange.low >= temperatureRange.low && tempRange.high <= temperatureRange.high
    }
  }

  /** Passing the range gives the answer passing its two ends gave. */
  lemma WithinRangeAgrees(planRange: TempRange, tempRange: TempRange)
    ensures HeatingPlan(planRange).WithinRange(tempRange)
            == HeatingPlanBefore(planRange).WithinRange(tempRange.low, tempRange.high)
  {
  }

  /** For a non-empty range, the check holds exactly when every temperature
      in the range is inside the plan's range. */
  lemma WithinRangeIsContainment(planRange: TempRange, tempRange: TempRange)
    requires tempRange.low <= tempRange.high
    ensures HeatingPlan(planRange).WithinRange(tempRange)
            <==> forall t :: InRange(tempRange, t) ==> InRange(planRange, t)
  {
    if forall t :: InRange(tempRange, t) ==> InRange(planRange, t) {
      assert InRange(tempRange, tempRange.low) && InRange(tempRange, tempRange.high);
    }
  }

  datatype Room = Room(daysTempRange: TempRange)

  function Example1Before(room: Room, plan: HeatingPlanBefore): bool {
    var low := room.daysTempRange.low;
    var high := room.daysTempRange.high;
    plan.WithinRange(low, high)
  }

  function Example1After(room: Room, plan: HeatingPlan): (isWithinRange: bool)
    ensures isWithinRange == Example1Before(room, HeatingPlanBefore(plan.temperatureRange))
  {
    plan.WithinRange(room.daysTempRange)
  }

  lemma Example1Fixture()
    ensures Example1After(Room(TempRange(18, 24)), HeatingPlan(TempRange(15, 28)))
  {
  }

  // ---------------------------------------------------------------------------
  // Example 2: order creation

  datatype Customer = Customer(name: string, email: string, address: string)

  datatype Item = Item(name: string, price: int)

  datatype Order = Order(customer: Customer, items: seq<Item>, total: int)

  function PriceOf(item: Item): int {
    item.price
  }

  function CreateOrderBefore(customerName: string, customerEmail: string, customerAddress: string,
                             items: seq<Item>): (r: Order)
    ensures r.customer == Customer(customerName, customerEmail, customerAddress)
    ensures r.items == items && r.total == Sum(Map(items, PriceOf))
  {
    Order(Customer(customerName, customerEmail, customerAddress), items, Sum(Map(items, PriceOf)))
  }

  function CreateOrder(customer: Customer, items: seq<Item>): (r: Order)
    ensures r == CreateOrderBefore(customer.name, customer.email, customer.address, items)
  {
    Order(Customer(customer.name, customer.email, customer.address), items, Sum(Map(items, PriceOf)))
  }

  /** An item's price adds to the total. */
  lemma {:induction false} OrderTotalSnoc(customer: Customer, items: seq<Item>, item: Item)
    ensures CreateOrder(customer, items + [item]).total == CreateOrder(customer, items).total + item.price
  {
    MapAppend(items, [item], PriceOf);
    MapSingleton(item, PriceOf);
    SumAppend(Map(items, PriceOf), [item.price]);
    assert [item.price][..0] == [];
  }

  const Example2Customer := Customer("Alice Johnson", "alice@example.com", "123 Main St")
  const Example2Items := [Item("Widget", 10), Item("Gadget", 20)]

  lemma Example2Fixture()
    ensures CreateOrder(Example2Customer, Example2Items).total == 30
    ensures CreateOrder(Example2Customer, Example2Items)
            == CreateOrderBefore(Example2Customer.name, Example2Customer.email, Example2Customer.address, Example2Items)
  {
    assert Map(Example2Items, PriceOf) == [10, 20];
    assert [10, 20][..1] == [10];
    assert [10][..0] == [];
  }

  // ---------------------------------------------------------------------------
  // Example 3: point within bounds

  datatype Point = Point(x: int, y: int)

  datatype RectangleBefore = RectangleBefore(left: int, top: int, right: int, bottom: int)
  {
    predicate Contains(x: int, y: int) {
      x >= left && x <= right && y >= top && y <= bottom
    }
  }

  datatype Rectangle = Rectangle(left: int, top: int, right: int, bottom: int)
  {
    /** Inside both spans, bounds included; only a non-empty rectangle
        contains a point. */
    function Contains(point: Point): (r: bool)
      ensures r <==> left <= point.x <= right && top <= point.y <= bottom
      ensures r ==> left <= right && top <= bottom
    {
      point.x >= left && point.x <= right && point.y >= top && point.y <= bottom
    }
  }

  /** The bounds are inclusive on all four sides: the corners are inside. */
  lemma CornersInside(left: int, top: int, right: int, bottom: int)
    requires left <= right && top <= bottom
    ensures Rectangle(left, top, right, bottom).Contains(Point(left, top))
    ensures Rectangle(left, top, right, bottom).Contains(Point(right, bottom))
    ensures !Rectangle(left, top, right, bottom).Contains(Point(right + 1, bottom))
  {
  }

  function Example3Before(point: Point, rect: RectangleBefore): bool {
    rect.Contains(point.x, point.y)
  }

  function Example3After(point: Point, rect: Rectangle): (isInside: bool)
    ensures isInside == Example3Before(point, RectangleBefore(rect.left, rect.top, rect.right, rect.bottom))
  {
    rect.Contains(point)
  }

  lemma Example3Fixture()
    ensures Example3After(Point(5, 10), Rectangle(0, 0, 10, 20))
  {
  }
}
