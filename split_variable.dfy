/** Split variable: one temporary reassigned for unrelated purposes, and one
    constant per purpose. `console.log` appends to an output list. */
module SplitVariable {
  import opened Js

  // ---------------------------------------------------------------------------
  // Example 1: area and perimeter

  /** The two lines both versions log, in order. */
  function AreaPerimeterLog(height: int, width: int): seq<string> {
    ["Area: " + IntToString(height * width), "Perimeter: " + IntToString(2 * (height + width))]
  }

  /** `temp` holds the area, is logged, then is overwritten by the perimeter. */
  method Example1Before(height: int, width: int) returns (output: seq<string>, result: int)
    ensures output == AreaPerimeterLog(height, width)
    ensures result == 2 * (height + width)
  {
    output := [];
    var temp := height * width;
    output := output + ["Area: " + IntToString(temp)];
    temp := 2 * (height + width);
    output := output + ["Perimeter: " + IntToString(temp)];
    result := temp;
  }

  method Example1After(height: int, width: int) returns (output: seq<string>, result: int)
    ensures output == AreaPerimeterLog(height, width)
    ensures result == 2 * (height + width)
  {
    output := [];
    var area := height * width;
    output := output + ["Area: " + IntToString(area)];
    var perimeter := 2 * (height + width);
    output := output + ["Perimeter: " + IntToString(perimeter)];
    result := perimeter;
  }

  /** Height 10 and width 20 log 'Area: 200' and 'Perimeter: 60'. */
  lemma Example1Fixture()
    ensures AreaPerimeterLog(10, 20) == ["Area: 200", "Perimeter: 60"]
  {
    assert IntToString(200) == "200" by {
      assert NatToString(2) == "2";
      assert NatToString(20) == NatToString(2) + "0";
      assert NatToString(200) == NatToString(20) + "0";
    }
    assert IntToString(60) == "60" by {
      assert NatToString(60) == NatToString(6) + "0";
    }
    assert "Area: " + "200" == "Area: 200";
    assert "Perimeter: " + "60" == "Perimeter: 60";
  }

  // ---------------------------------------------------------------------------
  // Example 2: the horizontal distance

  function Abs(x: int): int {
    if x < 0 then -x else x
  }

  /** `result` first holds `|40 - 10|`, which is copied to `horizontal`. */
  method Example2Before() returns (horizontal: int)
    ensures horizontal == Example2After() == 30
  {
    var result := Abs(40 - 10);
    horizontal := result;
  }

  function Example2After(): (horizontal: int)
    ensures horizontal == 30
  {
    Abs(40 - 10)
  }

  // ---------------------------------------------------------------------------
  // Example 3: doubled and summed

  datatype Processed = Processed(doubled: seq<int>, summed: int)

  function Double(n: int): int {
    n * 2
  }

  /** The sum of the doubled numbers is twice the sum of the numbers. */
  lemma {:induction false} SumOfDoubled(numbers: seq<int>)
    ensures Sum(Map(numbers, Double)) == 2 * Sum(numbers)
  {
    if numbers != [] {
      var init := numbers[..|numbers| - 1];
      assert Map(numbers, Double)[..|numbers| - 1] == Map(init, Double);
      SumOfDoubled(init);
    }
  }

  /** `value` first holds the doubled array, then its sum. */
  method Example3Before(numbers: seq<int>) returns (r: Processed)
    ensures r == Example3After(numbers)
  {
    var value := Map(numbers, Double);
    var doubled := value;
    var summedValue := Sum(value);
    var summed := summedValue;
    r := Processed(doubled, summed);
  }

  function Example3After(numbers: seq<int>): (r: Processed)
    ensures |r.doubled| == |numbers| && forall k :: 0 <= k < |numbers| ==> r.doubled[k] == 2 * numbers[k]
    ensures r.summed == 2 * Sum(numbers)
  {
    var doubled := Map(numbers, Double);
    SumOfDoubled(numbers);
    Processed(doubled, Sum(doubled))
  }

  lemma Example3Fixture()
    ensures Example3After([1, 2, 3]) == Processed([2, 4, 6], 12)
  {
    var r := Example3After([1, 2, 3]);
    assert r.doubled == [2, 4, 6];
    assert [1, 2, 3][..2] == [1, 2] && [1, 2][..1] == [1] && [1][..0] == [];
  }
}
