/** Extract Class: a class whose group of fields moves into a class of its
    own, with the original getters delegating to it. Fields are set once in
    the constructors, so every class here is a datatype; dates are ordinal
    day numbers counted from 2024-01-01. */
module ExtractClass {

  // ---------------------------------------------------------------------------
  // Example 1: Person and TelephoneNumber

  datatype PersonBefore = PersonBefore(name: string, officeAreaCode: string, officeNumber: string)
  {
    /** `(${areaCode}) ${number}` */
    function TelephoneNumber(): (r: string)
      ensures |r| == |officeAreaCode| + |officeNumber| + 3
      ensures r[0] == '(' && r[1..|officeAreaCode| + 1] == officeAreaCode
      ensures r[|officeAreaCode| + 1..|officeAreaCode| + 3] == ") " && r[|officeAreaCode| + 3..] == officeNumber
    {
      "(" + officeAreaCode + ") " + officeNumber
    }
  }

  datatype TelephoneNumber = TelephoneNumber(areaCode: string, number: string)
  {
    function ToString(): (r: string)
      ensures |r| == |areaCode| + |number| + 3
      ensures r[0] == '(' && r[1..|areaCode| + 1] == areaCode
      ensures r[|areaCode| + 1..|areaCode| + 3] == ") " && r[|areaCode| + 3..] == number
    {
      "(" + areaCode + ") " + number
    }
  }

  datatype Person = Person(name: string, telephone: TelephoneNumber)
  {
    function TelephoneNumber(): string { telephone.ToString() }
    function OfficeAreaCode(): string { telephone.areaCode }
    function OfficeNumber(): string { telephone.number }
  }

  /** `new Person(name, officeAreaCode, officeNumber)` of the extracted version. */
  function NewPerson(name: string, officeAreaCode: string, officeNumber: string): (p: Person)
    ensures p.name == name && p.OfficeAreaCode() == officeAreaCode && p.OfficeNumber() == officeNumber
  {
    Person(name, TelephoneNumber(officeAreaCode, officeNumber))
  }

  datatype PersonView = PersonView(name: string, telephoneNumber: string, officeAreaCode: string, officeNumber: string)

  function Example1Before(name: string, officeAreaCode: string, officeNumber: string): (r: PersonView)
    ensures r.name == name && r.officeAreaCode == officeAreaCode && r.officeNumber == officeNumber
  {
    var person := PersonBefore(name, officeAreaCode, officeNumber);
    PersonView(person.name, person.TelephoneNumber(), person.officeAreaCode, person.officeNumber)
  }

  function Example1After(name: string, officeAreaCode: string, officeNumber: string): (r: PersonView)
    ensures r == Example1Before(name, officeAreaCode, officeNumber)
  {
    var person := NewPerson(name, officeAreaCode, officeNumber);
    PersonView(person.name, person.TelephoneNumber(), person.OfficeAreaCode(), person.OfficeNumber())
  }

  /** When the area code holds no ')', the formatted number gives back both
      of its parts. */
  lemma TelephoneNumberDetermines(a: TelephoneNumber, b: TelephoneNumber)
    requires ')' !in a.areaCode && ')' !in b.areaCode
    requires a.ToString() == b.ToString()
    ensures a == b
  {
    var s := a.ToString();
    FirstCloseParen(a);
    FirstCloseParen(b);
  }

  lemma FirstCloseParen(t: TelephoneNumber)
    requires ')' !in t.areaCode
    ensures IndexOf(t.ToString(), ')') == |t.areaCode| + 1
  {
    var s := t.ToString();
    var k := |t.areaCode| + 1;
    assert s[k] == s[k..k + 2][0] == ')';
    forall j | 0 <= j < k
      ensures s[j] != ')'
    {
      if j > 0 {
        assert s[j] == s[1..k][j - 1] == t.areaCode[j - 1];
      }
    }

  }

  /** The position of the first `c` in `s`, or `|s|` when there is none. */
  function IndexOf(s: string, c: char): (r: nat)
    ensures r <= |s|
    ensures r < |s| ==> s[r] == c
    ensures forall j :: 0 <= j < r ==> s[j] != c
  {
    if s == [] || s[0] == c then 0 else 1 + IndexOf(s[1..], c)
  }

  lemma Example1Fixture()
    ensures Example1After("John Doe", "555", "1234") == PersonView("John Doe", "(555) 1234", "555", "1234")
  {
    assert "(" + "555" + ") " + "1234" == "(555) 1234";
  }

  // ---------------------------------------------------------------------------
  // Example 2: Employee and ContactInfo

  datatype EmployeeBefore = EmployeeBefore(name: string, email: string, phone: string, address: string)
  {
    function SendNotification(message: string): (r: string)
      ensures StartsWithSendingTo(r, email) && |r| >= |message| && r[|r| - |message|..] == message
    {
      "Sending to " + email + " and " + phone + ": " + message
    }
  }

  /** The notification opens with the e-mail address it goes to. */
  predicate StartsWithSendingTo(s: string, email: string) {
    |s| >= 11 + |email| && s[..11] == "Sending to " && s[11..11 + |email|] == email
  }

  datatype ContactInfo = ContactInfo(email: string, phone: string, address: string)
  {
    function SendNotification(message: string): (r: string)
      ensures StartsWithSendingTo(r, email) && |r| >= |message| && r[|r| - |message|..] == message
    {
      "Sending to " + email + " and " + phone + ": " + message
    }
  }

  datatype Employee = Employee(name: string, contactInfo: ContactInfo)
  {
    function Email(): string { contactInfo.email }
    function Phone(): string { contactInfo.phone }
    function Address(): string { contactInfo.address }
    function SendNotification(message: string): string { contactInfo.SendNotification(message) }
  }

  function NewEmployee(name: string, email: string, phone: string, address: string): (e: Employee)
    ensures e.name == name && e.Email() == email && e.Phone() == phone && e.Address() == address
  {
    Employee(name, ContactInfo(email, phone, address))
  }

  /** Delegating to the extracted class gives the same notification text. */
  lemma NotificationsAgree(name: string, email: string, phone: string, address: string, message: string)
    ensures NewEmployee(name, email, phone, address).SendNotification(message)
            == EmployeeBefore(name, email, phone, address).SendNotification(message)
  {
  }

  datatype EmployeeView = EmployeeView(name: string, email: string, phone: string, address: string, notification: string)

  function Example2Before(name: string, email: string, phone: string, address: string, message: string): (r: EmployeeView)
    ensures r.name == name && r.email == email && r.phone == phone && r.address == address
    ensures StartsWithSendingTo(r.notification, email)
  {
    var employee := EmployeeBefore(name, email, phone, address);
    EmployeeView(employee.name, employee.email, employee.phone, employee.address, employee.SendNotification(message))
  }

  function Example2After(name: string, email: string, phone: string, address: string, message: string): (r: EmployeeView)
    ensures r == Example2Before(name, email, phone, address, message)
  {
    var employee := NewEmployee(name, email, phone, address);
    EmployeeView(employee.name, employee.Email(), employee.Phone(), employee.Address(), employee.SendNotification(message))
  }

  lemma Example2Fixture()
    ensures Example2After("Jane Smith", "jane@example.com", "555-0100", "123 Main St", "Meeting at 3pm").notification
            == "Sending to jane@example.com and 555-0100: Meeting at 3pm"
  {
    var a := "Sending to " + "jane@example.com";
    assert a == "Sending to jane@example.com";
    var b := a + " and ";
    assert b == "Sending to jane@example.com and ";
    var c := b + "555-0100";
    assert c == "Sending to jane@example.com and 555-0100";
    var d := c + ": ";
    assert d == "Sending to jane@example.com and 555-0100: ";
    assert d + "Meeting at 3pm" == "Sending to jane@example.com and 555-0100: Meeting at 3pm";
  }

  // ---------------------------------------------------------------------------
  // Example 3: Project and Timeline

  /** A date as its ordinal day; `Date` subtraction becomes a difference of days. */
  type Day = int

  datatype ProjectBefore = ProjectBefore(name: string, startDate: Day, endDate: Day, milestones: seq<string>)
  {
    function Duration(): (r: int)
      ensures startDate + r == endDate
    {
      endDate - startDate
    }

    predicate IsOverdue(currentDate: Day) {
      currentDate > endDate
    }
  }

  datatype Timeline = Timeline(startDate: Day, endDate: Day, milestones: seq<string>)
  {
    function Duration(): (r: int)
      ensures startDate + r == endDate
    {
      endDate - startDate
    }

    predicate IsOverdue(currentDate: Day) {
      currentDate > endDate
    }
  }

  datatype Project = Project(name: string, timeline: Timeline)
  {
    function StartDate(): Day { timeline.startDate }
    function EndDate(): Day { timeline.endDate }
    function Milestones(): seq<string> { timeline.milestones }
    function Duration(): int { timeline.Duration() }
    predicate IsOverdue(currentDate: Day) { timeline.IsOverdue(currentDate) }
  }

  function NewProject(name: string, startDate: Day, endDate: Day, milestones: seq<string>): (p: Project)
    ensures p.name == name && p.StartDate() == startDate && p.EndDate() == endDate && p.Milestones() == milestones
  {
    Project(name, Timeline(startDate, endDate, milestones))
  }

  /** A project is overdue on a day exactly when more time than its duration
      has passed since its start, in both versions. */
  lemma OverdueIsPastDuration(name: string, startDate: Day, endDate: Day, milestones: seq<string>, currentDate: Day)
    ensures NewProject(name, startDate, endDate, milestones).IsOverdue(currentDate)
            == ProjectBefore(name, startDate, endDate, milestones).IsOverdue(currentDate)
    ensures NewProject(name, startDate, endDate, milestones).IsOverdue(currentDate)
            <==> currentDate - startDate > NewProject(name, startDate, endDate, milestones).Duration()
  {
  }

  datatype ProjectView = ProjectView(name: string, startDate: Day, endDate: Day, milestones: seq<string>,
                                     duration: int, isOverdue: bool)

  function Example3Before(name: string, startDate: Day, endDate: Day, milestones: seq<string>, currentDate: Day): (r: ProjectView)
    ensures r.name == name && r.startDate == startDate && r.endDate == endDate && r.milestones == milestones
    ensures r.startDate + r.duration == r.endDate
    ensures r.isOverdue <==> currentDate > endDate
  {
    var project := ProjectBefore(name, startDate, endDate, milestones);
    ProjectView(project.name, project.startDate, project.endDate, project.milestones,
                project.Duration(), project.IsOverdue(currentDate))
  }

  function Example3After(name: string, startDate: Day, endDate: Day, milestones: seq<string>, currentDate: Day): (r: ProjectView)
    ensures r == Example3Before(name, startDate, endDate, milestones, currentDate)
  {
    var project := NewProject(name, startDate, endDate, milestones);
    ProjectView(project.name, project.StartDate(), project.EndDate(), project.Milestones(),
                project.Duration(), project.IsOverdue(currentDate))
  }

  /** 2024-01-01, 2024-06-01 and 2024-07-01 are days 0, 152 and 182. */
  lemma Example3Fixture()
    ensures Example3After("Project Alpha", 0, 152, ["Design", "Dev", "QA"], 182)
            == ProjectView("Project Alpha", 0, 152, ["Design", "Dev", "QA"], 152, true)
  {
  }
}
