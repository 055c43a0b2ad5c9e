/** Replace loop with pipeline: for-of loops that push into a result array,
    and the same computations as filter/map pipelines. */
module ReplaceLoopWithPipeline {
  import opened Js

  // ---------------------------------------------------------------------------
  // Example 1: names of the engineers

  datatype Person = Person(name: string, job: string)

  function IsEngineer(i: Person): bool {
    i.job == "engineer"
  }

  function NameOf(i: Person): string {
    i.name
  }

  /** `input.filter(i => i.job === 'engineer').map(i => i.name)` */
  function Example1After(input: seq<Person>): (names: seq<string>)
    ensures |names| <= |input|
    ensures forall k :: 0 <= k < |names| ==> exists i :: i in input && IsEngineer(i) && i.name == names[k]
  {
    var engineers := Filter(input, IsEngineer);
    assert forall k :: 0 <= k < |engineers| ==> engineers[k] in input && IsEngineer(engineers[k]);
    Map(engineers, NameOf)
  }

  /** One more input adds its name at the end exactly when it is an engineer. */
  lemma Example1AfterSnoc(input: seq<Person>, i: Person)
    ensures Example1After(input + [i]) == Example1After(input) + if IsEngineer(i) then [i.name] else []
  {
    FilterSnoc(input, i, IsEngineer);
    MapAppend(Filter(input, IsEngineer), if IsEngineer(i) then [i] else [], NameOf);
    MapSingleton(i, NameOf);
  }

  method Example1Before(input: seq<Person>) returns (names: seq<string>)
    ensures names == Example1After(input)
  {
    names := [];
    for k := 0 to |input|
      invariant names == Example1After(input[..k])
    {
      assert input[..k + 1] == input[..k] + [input[k]];
      Example1AfterSnoc(input[..k], input[k]);
      if input[k].job == "engineer" {
        names := names + [input[k].name];
      }
    }
    assert input[..|input|] == input;
  }

  // ---------------------------------------------------------------------------
  // Example 2: squares greater than 10

  function Square(num: int): int {
    num * num
  }

  function Above10(squared: int): bool {
    squared > 10
  }

  predicate IsSquareOfSome(y: int, numbers: seq<int>) {
    exists num :: num in numbers && y == num * num
  }

  /** `numbers.map(num => num * num).filter(squared => squared > 10)` */
  function Example2After(numbers: seq<int>): (result: seq<int>)
    ensures |result| <= |numbers|
    ensures forall k :: 0 <= k < |result| ==> result[k] > 10
    ensures forall k :: 0 <= k < |result| ==> IsSquareOfSome(result[k], numbers)
  {
    var squares := Map(numbers, Square);
    var kept := Filter(squares, Above10);
    forall k | 0 <= k < |kept|
      ensures IsSquareOfSome(kept[k], numbers)
    {
      MapIn(numbers, Square, kept[k]);
      var num :| num in numbers && kept[k] == Square(num);
      assert kept[k] == num * num;
    }
    kept
  }

  lemma Example2AfterSnoc(numbers: seq<int>, num: int)
    ensures Example2After(numbers + [num]) == Example2After(numbers) + if num * num > 10 then [num * num] else []
  {
    MapAppend(numbers, [num], Square);
    MapSingleton(num, Square);
    FilterSnoc(Map(numbers, Square), Square(num), Above10);
  }

  method Example2Before(numbers: seq<int>) returns (result: seq<int>)
    ensures result == Example2After(numbers)
  {
    result := [];
    for k := 0 to |numbers|
      invariant result == Example2After(numbers[..k])
    {
      assert numbers[..k + 1] == numbers[..k] + [numbers[k]];
      Example2AfterSnoc(numbers[..k], numbers[k]);
      var squared := numbers[k] * numbers[k];
      if squared > 10 {
        result := result + [squared];
      }
    }
    assert numbers[..|numbers|] == numbers;
  }

  // ---------------------------------------------------------------------------
  // Example 3: amounts of completed orders above 100

  datatype Order = Order(status: string, price: int, quantity: int)

  function IsCompleted(order: Order): bool {
    order.status == "completed"
  }

  function AmountOf(order: Order): int {
    order.price * order.quantity
  }

  function Above100(amount: int): bool {
    amount > 100
  }

  /** `orders.filter(completed).map(price * quantity).filter(amount > 100)` */
  function Example3After(orders: seq<Order>): (total: seq<int>)
    ensures |total| <= |orders|
    ensures forall k :: 0 <= k < |total| ==> total[k] > 100
    ensures forall k :: 0 <= k < |total| ==>
              exists o :: o in orders && IsCompleted(o) && total[k] == o.price * o.quantity
  {
    var completed := Filter(orders, IsCompleted);
    var amounts := Map(completed, AmountOf);
    var total := Filter(amounts, Above100);
    forall k | 0 <= k < |total|
      ensures exists o :: o in orders && IsCompleted(o) && total[k] == o.price * o.quantity
    {
      MapIn(completed, AmountOf, total[k]);
    }
    total
  }

  lemma Example3AfterSnoc(orders: seq<Order>, o: Order)
    ensures Example3After(orders + [o]) ==
              Example3After(orders) + if IsCompleted(o) && o.price * o.quantity > 100 then [o.price * o.quantity] else []
  {
    var done := Filter(orders, IsCompleted);
    FilterSnoc(orders, o, IsCompleted);
    if IsCompleted(o) {
      MapAppend(done, [o], AmountOf);
      MapSingleton(o, AmountOf);
      FilterSnoc(Map(done, AmountOf), AmountOf(o), Above100);
    } else {
      assert done + [] == done;
    }
  }

  method Example3Before(orders: seq<Order>) returns (total: seq<int>)
    ensures total == Example3After(orders)
  {
    total := [];
    for k := 0 to |orders|
      invariant total == Example3After(orders[..k])
    {
      var order := orders[k];
      assert orders[..k + 1] == orders[..k] + [order];
      Example3AfterSnoc(orders[..k], order);
      if order.status == "completed" {
        var amount := order.price * order.quantity;
        if amount > 100 {
          total := total + [amount];
        }
      }
    }
    assert orders[..|orders|] == orders;
  }
}
