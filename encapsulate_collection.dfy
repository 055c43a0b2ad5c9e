/** Encapsulate collection: classes whose collection field is public, and the
    same classes keeping the collection private behind a copying getter and
    add/remove methods. */
module EncapsulateCollection {
  import opened Js

  // ---------------------------------------------------------------------------
  // Example 1: course enrollment

  datatype Course = Course(name: string, level: int)

  function CourseName(c: Course): string {
    c.name
  }

  /** The test `c.name !== courseName` that removeCourse filters by. */
  function NotCourseNamed(courseName: string): Course -> bool {
    (c: Course) => c.name != courseName
  }

  /** The courses left by `removeCourse(courseName)`: every course with that
      name is gone, every other one is kept, and an absent name changes
      nothing. */
  lemma RemoveCourseKeepsOthers(courses: seq<Course>, courseName: string)
    ensures forall k :: 0 <= k < |Filter(courses, NotCourseNamed(courseName))| ==>
              Filter(courses, NotCourseNamed(courseName))[k].name != courseName
    ensures forall c :: c in courses && c.name != courseName ==> c in Filter(courses, NotCourseNamed(courseName))
    ensures (forall k :: 0 <= k < |courses| ==> courses[k].name != courseName) ==>
              Filter(courses, NotCourseNamed(courseName)) == courses
  {
    var p := NotCourseNamed(courseName);
    forall c | c in courses && c.name != courseName
      ensures c in Filter(courses, p)
    {
      FilterKeeps(courses, p, c);
    }
    if forall k :: 0 <= k < |courses| ==> courses[k].name != courseName {
      FilterAllPass(courses, p);
    }
  }

  /** Removal from a longer list: the last course stays exactly when its name
      differs, so the kept courses keep their order. */
  lemma RemoveCourseSnoc(courses: seq<Course>, last: Course, courseName: string)
    ensures Filter(courses + [last], NotCourseNamed(courseName)) ==
              Filter(courses, NotCourseNamed(courseName)) + if last.name != courseName then [last] else []
  {
    FilterSnoc(courses, last, NotCourseNamed(courseName));
  }

  /** The Before class: `courses` is a public array that callers push into. */
  class PersonBefore {
    const name: string
    var courses: seq<Course>

    constructor (name: string)
      ensures this.name == name && courses == []
    {
      this.name := name;
      this.courses := [];
    }
  }

  class Person {
    const name: string
    var ownCourses: seq<Course>

    constructor (name: string)
      ensures this.name == name && ownCourses == []
    {
      this.name := name;
      this.ownCourses := [];
    }

    /** `get courses()` returns a new array holding the courses. */
    method Courses() returns (a: array<Course>)
      ensures fresh(a) && a[..] == ownCourses
    {
      var s := ownCourses;
      a := new Course[|s|](i requires 0 <= i < |s| => s[i]);
    }

    method AddCourse(course: Course)
      modifies this
      ensures ownCourses == old(ownCourses) + [course]
      ensures |ownCourses| == |old(ownCourses)| + 1 && ownCourses[..|old(ownCourses)|] == old(ownCourses)
    {
      ownCourses := ownCourses + [course];
    }

    method RemoveCourse(courseName: string)
      modifies this
      ensures ownCourses == Filter(old(ownCourses), NotCourseNamed(courseName))
    {
      ownCourses := Filter(ownCourses, NotCourseNamed(courseName));
    }
  }

  /** Writing into the array the getter returned leaves the person's courses
      as they were. */
  method ChangeCopy(person: Person, course: Course)
    ensures person.ownCourses == old(person.ownCourses)
  {
    var copy := person.Courses();
    if copy.Length > 0 {
      copy[0] := course;
    }
  }

  method Example1Before() returns (r: seq<string>)
    ensures r == ["Math", "Physics"]
  {
    var person := new PersonBefore("Alice");
    person.courses := person.courses + [Course("Math", 101)];
    person.courses := person.courses + [Course("Physics", 201)];
    r := Map(person.courses, CourseName);
  }

  method Example1After() returns (r: seq<string>)
    ensures r == ["Math", "Physics"]
  {
    var person := new Person("Alice");
    person.AddCourse(Course("Math", 101));
    person.AddCourse(Course("Physics", 201));
    var courses := person.Courses();
    r := Map(courses[..], CourseName);
  }

  // ---------------------------------------------------------------------------
  // Example 2: task list management

  datatype Task = Task(id: int, title: string)

  function NotTaskId(id: int): Task -> bool {
    (t: Task) => t.id != id
  }

  class TaskListBefore {
    var tasks: seq<Task>

    constructor ()
      ensures tasks == []
    {
      tasks := [];
    }
  }

  class TaskList {
    var ownTasks: seq<Task>

    constructor ()
      ensures ownTasks == []
    {
      ownTasks := [];
    }

    method Tasks() returns (a: array<Task>)
      ensures fresh(a) && a[..] == ownTasks
    {
      var s := ownTasks;
      a := new Task[|s|](i requires 0 <= i < |s| => s[i]);
    }

    method AddTask(task: Task)
      modifies this
      ensures ownTasks == old(ownTasks) + [task]
    {
      ownTasks := ownTasks + [task];
    }

    method RemoveTask(id: int)
      modifies this
      ensures ownTasks == Filter(old(ownTasks), NotTaskId(id))
    {
      ownTasks := Filter(ownTasks, NotTaskId(id));
    }
  }

  method Example2Before() returns (afterAdd: int, afterRemove: int)
    ensures afterAdd == 2 && afterRemove == 1
  {
    var list := new TaskListBefore();
    list.tasks := list.tasks + [Task(1, "Buy groceries")];
    list.tasks := list.tasks + [Task(2, "Walk dog")];
    afterAdd := |list.tasks|;
    assert list.tasks == [Task(1, "Buy groceries"), Task(2, "Walk dog")];
    var t1, t2 := Task(1, "Buy groceries"), Task(2, "Walk dog");
    assert Filter([t1, t2], NotTaskId(1)) == Filter([t2], NotTaskId(1)) == [t2] by {
      assert [t1, t2][1..] == [t2] && [t2][1..] == [];
    }
    list.tasks := Filter(list.tasks, NotTaskId(1));
    afterRemove := |list.tasks|;
  }

  method Example2After() returns (afterAdd: int, afterRemove: int)
    ensures afterAdd == 2 && afterRemove == 1
  {
    var list := new TaskList();
    list.AddTask(Task(1, "Buy groceries"));
    list.AddTask(Task(2, "Walk dog"));
    var tasks := list.Tasks();
    afterAdd := tasks.Length;
    list.RemoveTask(1);
    tasks := list.Tasks();
    afterRemove := tasks.Length;
  }

  // ---------------------------------------------------------------------------
  // Example 3: shopping cart items

  datatype Item = Item(name: string, price: int)

  function NotItemNamed(itemName: string): Item -> bool {
    (i: Item) => i.name != itemName
  }

  function ItemNamed(itemName: string): Item -> bool {
    (i: Item) => i.name == itemName
  }

  /** `items.reduce((sum, item) => sum + item.price, 0)`, folding from the left. */
  function Total(items: seq<Item>): int {
    if items == [] then 0 else Total(items[..|items| - 1]) + items[|items| - 1].price
  }

  /** The total splits into the prices of the items named n and of the rest,
      so removing n lowers the total by exactly the prices of its items. */
  lemma {:induction false} TotalAfterRemove(items: seq<Item>, n: string)
    ensures Total(Filter(items, NotItemNamed(n))) == Total(items) - Total(Filter(items, ItemNamed(n)))
  {
    if items != [] {
      var init, last := items[..|items| - 1], items[|items| - 1];
      assert items == init + [last];
      TotalAfterRemove(init, n);
      FilterSnoc(init, last, NotItemNamed(n));
      FilterSnoc(init, last, ItemNamed(n));
      var kept := Filter(init, NotItemNamed(n));
      var dropped := Filter(init, ItemNamed(n));
      if last.name == n {
        assert (dropped + [last])[..|dropped + [last]| - 1] == dropped;
        assert kept + [] == kept;
      } else {
        assert (kept + [last])[..|kept + [last]| - 1] == kept;
        assert dropped + [] == dropped;
      }
    }
  }

  /** With no negative price the total is never negative. */
  lemma {:induction false} TotalNonNegative(items: seq<Item>)
    ensures (forall i :: 0 <= i < |items| ==> items[i].price >= 0) ==> Total(items) >= 0
  {
    if items != [] {
      TotalNonNegative(items[..|items| - 1]);
    }
  }

  lemma TotalSnoc(items: seq<Item>, item: Item)
    ensures Total(items + [item]) == Total(items) + item.price
  {
    assert (items + [item])[..|items|] == items;
  }

  class ShoppingCartBefore {
    var items: seq<Item>

    constructor ()
      ensures items == []
    {
      items := [];
    }

    function GetTotal(): (r: int)
      reads this
      ensures r == Total(items)
      ensures items == [] ==> r == 0
      ensures (forall i :: 0 <= i < |items| ==> items[i].price >= 0) ==> r >= 0
    {
      TotalNonNegative(items);
      Total(items)
    }
  }

  class ShoppingCart {
    var ownItems: seq<Item>

    constructor ()
      ensures ownItems == []
    {
      ownItems := [];
    }

    method Items() returns (a: array<Item>)
      ensures fresh(a) && a[..] == ownItems
    {
      var s := ownItems;
      a := new Item[|s|](i requires 0 <= i < |s| => s[i]);
    }

    method AddItem(item: Item)
      modifies this
      ensures ownItems == old(ownItems) + [item]
      ensures GetTotal() == old(GetTotal()) + item.price
    {
      ownItems := ownItems + [item];
      assert ownItems[..|ownItems| - 1] == old(ownItems);
    }

    method RemoveItem(itemName: string)
      modifies this
      ensures ownItems == Filter(old(ownItems), NotItemNamed(itemName))
      ensures GetTotal() == old(GetTotal()) - Total(Filter(old(ownItems), ItemNamed(itemName)))
    {
      TotalAfterRemove(ownItems, itemName);
      ownItems := Filter(ownItems, NotItemNamed(itemName));
    }

    function GetTotal(): int
      reads this
    {
      Total(ownItems)
    }
  }

  method Example3Before() returns (total: int)
    ensures total == 150
  {
    var cart := new ShoppingCartBefore();
    cart.items := cart.items + [Item("Book", 50)];
    cart.items := cart.items + [Item("Pen", 10)];
    cart.items := cart.items + [Item("Notebook", 90)];
    total := cart.GetTotal();
    TotalSnoc([], Item("Book", 50));
    TotalSnoc([Item("Book", 50)], Item("Pen", 10));
    TotalSnoc([Item("Book", 50), Item("Pen", 10)], Item("Notebook", 90));
  }

  method Example3After() returns (total: int)
    ensures total == 150
  {
    var cart := new ShoppingCart();
    assert cart.GetTotal() == 0;
    cart.AddItem(Item("Book", 50));
    cart.AddItem(Item("Pen", 10));
    cart.AddItem(Item("Notebook", 90));
    total := cart.GetTotal();
  }
}
