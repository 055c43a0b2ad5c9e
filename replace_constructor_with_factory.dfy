/** Replace Constructor with Factory Function: `new` at the call site, and
    the same construction behind a factory function. Objects whose fields
    are set once are values here. */
module ReplaceConstructorWithFactory {
  import opened Js

  // ---------------------------------------------------------------------------
  // Example 1: an engineer from a document

  const DefaultSalary := 100000

  datatype Employee = Employee(name: string, employeeType: string, salary: int)

  /** `new Employee(name, type)`: the salary is always the default. */
  function NewEmployee(name: string, employeeType: string): (r: Employee)
    ensures r.name == name && r.employeeType == employeeType && r.salary == DefaultSalary
  {
    Employee(name, employeeType, 100000)
  }

  /** `createEngineer(name)` */
  function CreateEngineer(name: string): (r: Employee)
    ensures r.name == name && r.employeeType == "E" && r.salary == 100000
  {
    NewEmployee(name, "E")
  }

  datatype LeadDocument = LeadDocument(leadEngineer: string)

  function Example1Before(document: LeadDocument): Employee {
    NewEmployee(document.leadEngineer, "E")
  }

  function Example1After(document: LeadDocument): (r: Employee)
    ensures r == Example1Before(document)
  {
    CreateEngineer(document.leadEngineer)
  }

  lemma Example1Fixture()
    ensures Example1After(LeadDocument("John Doe")) == Employee("John Doe", "E", 100000)
  {
  }

  // ---------------------------------------------------------------------------
  // Example 2: a factory choosing the class

  /** `Engineer` and `Manager`: each constructor fixes the role. */
  datatype Staff =
    | Engineer(name: string, role: string, level: string)
    | Manager(name: string, role: string, reports: seq<string>)

  function NewEngineer(name: string): (r: Staff)
    ensures r.Engineer? && r.name == name && r.role == "engineer" && r.level == "senior"
  {
    Engineer(name, "engineer", "senior")
  }

  function NewManager(name: string): (r: Staff)
    ensures r.Manager? && r.name == name && r.role == "manager" && r.reports == []
  {
    Manager(name, "manager", [])
  }

  datatype StaffDocument = StaffDocument(name: string, staffType: string)

  /** The if-chain assigning `employee`, undefined (None) for any other type. */
  function Example2Before(document: StaffDocument): (r: Option<Staff>)
    ensures r.Some? <==> document.staffType in {"engineer", "manager"}
  {
    var employee :=
      if document.staffType == "engineer" then Some(NewEngineer(document.name))
      else if document.staffType == "manager" then Some(NewManager(document.name))
      else None;
    employee
  }

  /** `createEmployee(document)` */
  function CreateEmployee(document: StaffDocument): (r: Option<Staff>)
    ensures r.Some? <==> document.staffType in {"engineer", "manager"}
    ensures r.Some? ==> r.value.name == document.name && r.value.role == document.staffType
    ensures r.Some? ==> (r.value.Engineer? <==> document.staffType == "engineer")
  {
    if document.staffType == "engineer" then Some(NewEngineer(document.name))
    else if document.staffType == "manager" then Some(NewManager(document.name))
    else None
  }

  function Example2After(document: StaffDocument): (r: Option<Staff>)
    ensures r == Example2Before(document)
  {
    CreateEmployee(document)
  }

  lemma Example2Fixture()
    ensures Example2After(StaffDocument("Alice", "engineer")) == Some(Engineer("Alice", "engineer", "senior"))
    ensures Example2After(StaffDocument("Bob", "manager")) == Some(Manager("Bob", "manager", []))
  {
  }

  // ---------------------------------------------------------------------------
  // Example 3: a database connection

  datatype ConnectionConfig = ConnectionConfig(host: string, port: int)

  datatype UserRow = UserRow(id: int, name: string)

  const FixedRows := [UserRow(1, "User 1"), UserRow(2, "User 2")]

  datatype DatabaseConnection = DatabaseConnection(config: ConnectionConfig) {
    /** The stub query answers the same two rows whatever the SQL. */
    function Query(sql: string): (rows: seq<UserRow>)
      ensures rows == FixedRows
    {
      [UserRow(1, "User 1"), UserRow(2, "User 2")]
    }
  }

  /** `createConnection(config)` */
  function CreateConnection(config: ConnectionConfig): (c: DatabaseConnection)
    ensures c.config == config
  {
    DatabaseConnection(config)
  }

  function Example3Before(config: ConnectionConfig): seq<UserRow> {
    var connection := DatabaseConnection(config);
    connection.Query("SELECT * FROM users")
  }

  function Example3After(config: ConnectionConfig): (rows: seq<UserRow>)
    ensures rows == Example3Before(config) == FixedRows
  {
    var connection := CreateConnection(config);
    connection.Query("SELECT * FROM users")
  }
}
