/** Substitute Algorithm: index loops that build a result step by step, and
    the same results from `filter`, `Math.max` and `includes`. */
module SubstituteAlgorithm {
  import opened Js

  // ---------------------------------------------------------------------------
  // Example 1: people with one of the wanted names

  datatype Person = Person(name: string, age: int)

  /** The three names the loop tests. */
  function IsDonJohnOrKent(p: Person): bool {
    p.name == "Don" || p.name == "John" || p.name == "Kent"
  }

  function IsNotKent(p: Person): bool {
    p.name != "Kent"
  }

  /** `['Don', 'John'].includes(p.name)` */
  function IsDonOrJohn(p: Person): bool {
    p.name in ["Don", "John"]
  }

  /** Keeping the three names and then dropping Kent keeps Don and John. */
  lemma {:induction false} DropKent(people: seq<Person>)
    ensures Filter(Filter(people, IsDonJohnOrKent), IsNotKent) == Filter(people, IsDonOrJohn)
  {
    if people != [] {
      DropKent(people[1..]);
      FilterAppend(if IsDonJohnOrKent(people[0]) then [people[0]] else [],
                   Filter(people[1..], IsDonJohnOrKent), IsNotKent);
    }
  }

  /** The loop with three separate tests: as the names differ, at most one
      of them pushes a person, so each person is pushed at most once. */
  method Example1Before(people: seq<Person>) returns (r: seq<Person>)
    ensures r == Example1After(people)
  {
    var result: seq<Person> := [];
    for i := 0 to |people|
      invariant result == Filter(people[..i], IsDonJohnOrKent)
    {
      if people[i].name == "Don" {
        result := result + [people[i]];
      }
      if people[i].name == "John" {
        result := result + [people[i]];
      }
      if people[i].name == "Kent" {
        result := result + [people[i]];
      }
      assert people[..i + 1] == people[..i] + [people[i]];
      FilterSnoc(people[..i], people[i], IsDonJohnOrKent);
    }
    assert people[..|people|] == people;
    r := Filter(result, IsNotKent);
    DropKent(people);
  }

  /** The people named Don or John, in input order. */
  function Example1After(people: seq<Person>): (r: seq<Person>)
    ensures |r| <= |people|
    ensures forall k :: 0 <= k < |r| ==> r[k].name in ["Don", "John"] && r[k] in people
  {
    Filter(people, IsDonOrJohn)
  }

  const Example1People := [Person("Don", 30), Person("John", 25), Person("Sam", 35), Person("Kent", 28)]

  lemma Example1Fixture()
    ensures Example1After(Example1People) == [Person("Don", 30), Person("John", 25)]
  {
    var rest := Example1People[1..][1..];
    assert rest == [Person("Sam", 35), Person("Kent", 28)];
    assert !IsDonOrJohn(Person("Sam", 35)) && !IsDonOrJohn(Person("Kent", 28));
    assert Filter(rest, IsDonOrJohn) == [] by {
      assert rest[1..][1..] == [];
    }
  }

  // ---------------------------------------------------------------------------
  // Example 2: maximum score

  /** The loop starting from `scores[0]`: on an empty array `scores[0]` is
      undefined and the loop does not run, so the result is None. */
  method Example2Before(scores: seq<int>) returns (max: Option<int>)
    ensures scores == [] <==> max.None?
    ensures max.Some? ==> max.value in scores && forall k :: 0 <= k < |scores| ==> scores[k] <= max.value
    ensures max.Some? ==> Example2After(scores) == Finite(max.value)
  {
    if |scores| == 0 {
      return None;
    }
    var m := scores[0];
    for i := 1 to |scores|
      invariant m in scores[..i]
      invariant forall k :: 0 <= k < i ==> scores[k] <= m
    {
      if scores[i] > m {
        m := scores[i];
      }
    }
    assert scores[..|scores|] == scores;
    MaxIsUnique(scores, m);
    max := Some(m);
  }

  /** An element of s at least every element of s is `Math.max(...s)`. */
  lemma MaxIsUnique(s: seq<int>, m: int)
    requires m in s && forall k :: 0 <= k < |s| ==> s[k] <= m
    ensures MathMax(s) == Finite(m)
  {
    var r := MathMax(s);
    var j :| 0 <= j < |s| && s[j] == m;
    assert r.Finite? && r.n in s;
  }

  /** `Math.max(...scores)`: minus infinity for an empty array. */
  function Example2After(scores: seq<int>): (r: Extended)
    ensures scores == [] <==> r == NegInfinity
  {
    MathMax(scores)
  }

  const Example2Scores := [42, 15, 95, 23, 67]

  method Example2Fixture() returns (before: Option<int>, after: Extended)
    ensures before == Some(95) && after == Finite(95)
  {
    before := Example2Before(Example2Scores);
    after := Example2After(Example2Scores);
    assert Example2Scores[2] == 95;
    MaxIsUnique(Example2Scores, 95);
  }

  // ---------------------------------------------------------------------------
  // Example 3: membership

  /** The loop that stops at the first match. */
  method Example3Before(items: seq<string>, target: string) returns (found: bool)
    ensures found == Example3After(items, target)
  {
    found := false;
    var i := 0;
    while i < |items|
      invariant 0 <= i <= |items|
      invariant !found
      invariant target !in items[..i]
    {
      if items[i] == target {
        found := true;
        break;
      }
      assert items[..i + 1] == items[..i] + [items[i]];
      i := i + 1;
    }
    assert found ==> items[i] == target;
    assert !found ==> items[..i] == items;
  }

  /** `items.includes(target)` */
  function Example3After(items: seq<string>, target: string): (r: bool)
    ensures r <==> exists k :: 0 <= k < |items| && items[k] == target
  {
    target in items
  }

  method Example3Fixture() returns (before: bool, after: bool)
    ensures before && after
  {
    var items := ["apple", "banana", "orange"];
    assert items[1] == "banana";
    before := Example3Before(items, "banana");
    after := Example3After(items, "banana");
  }
}
