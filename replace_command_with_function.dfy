/** Replace Command with Function: single-use command objects whose
    `execute` does all the work, and the plain functions that replace them.
    The validation command keeps its loop in both forms. */
module ReplaceCommandWithFunction {
  import opened Js

  // ---------------------------------------------------------------------------
  // Example 1: charge calculator

  datatype ChargeCustomer = ChargeCustomer(name: string, rate: real)

  datatype ChargeCalculator = ChargeCalculator(customer: ChargeCustomer, usage: int)
  {
    function Execute(): real {
      customer.rate * usage as real
    }
  }

  function Charge(customer: ChargeCustomer, usage: int): (r: real)
    ensures r == ChargeCalculator(customer, usage).Execute()
    ensures usage == 0 ==> r == 0.0
  {
    customer.rate * usage as real
  }

  /** The charge grows linearly with usage. */
  lemma ChargeIsLinear(customer: ChargeCustomer, u: int, v: int)
    ensures Charge(customer, u + v) == Charge(customer, u) + Charge(customer, v)
  {
  }

  lemma Example1Fixture()
    ensures Charge(ChargeCustomer("Acme Corp", 0.15), 100) == 15.0
  {
  }

  // ---------------------------------------------------------------------------
  // Example 2: data validator

  datatype Rule<!D> = Rule(test: D -> bool, message: string)

  datatype Validation = Valid | Invalid(errors: seq<string>)

  /** The messages of the rules `data` fails, in rule order. */
  function FailedMessages<D>(data: D, rules: seq<Rule<D>>): (r: seq<string>)
    ensures |r| <= |rules|
    ensures r == [] <==> forall k :: 0 <= k < |rules| ==> rules[k].test(data)
    ensures forall i :: 0 <= i < |r| ==> exists k :: 0 <= k < |rules| && !rules[k].test(data) && rules[k].message == r[i]
  {
    if rules == [] then []
    else
      var init := FailedMessages(data, rules[..|rules| - 1]);
      var last := rules[|rules| - 1];
      assert forall k :: 0 <= k < |rules| - 1 ==> rules[..|rules| - 1][k] == rules[k];
      init + (if !last.test(data) then [last.message] else [])
  }

  /** `{ valid: true }` when no rule fails, otherwise the failed messages. */
  function ValidationOf<D>(data: D, rules: seq<Rule<D>>): (r: Validation)
    ensures r.Valid? <==> forall k :: 0 <= k < |rules| ==> rules[k].test(data)
    ensures r.Invalid? ==> r.errors == FailedMessages(data, rules) && r.errors != []
  {
    var errors := FailedMessages(data, rules);
    if |errors| == 0 then Valid else Invalid(errors)
  }

  class DataValidator<D> {
    const data: D
    const rules: seq<Rule<D>>

    constructor (data: D, rules: seq<Rule<D>>)
      ensures this.data == data && this.rules == rules
    {
      this.data := data;
      this.rules := rules;
    }

    method Execute() returns (result: Validation)
      ensures result == ValidationOf(data, rules)
    {
      var errors := [];
      for k := 0 to |rules|
        invariant errors == FailedMessages(data, rules[..k])
      {
        assert rules[..k + 1][..k] == rules[..k];
        if !rules[k].test(data) {
          errors := errors + [rules[k].message];
        }
      }
      assert rules[..|rules|] == rules;
      result := if |errors| == 0 then Valid else Invalid(errors);
    }
  }

  method ValidateData<D>(data: D, rules: seq<Rule<D>>) returns (result: Validation)
    ensures result == ValidationOf(data, rules)
  {
    var errors := [];
    for k := 0 to |rules|
      invariant errors == FailedMessages(data, rules[..k])
    {
      assert rules[..k + 1][..k] == rules[..k];
      if !rules[k].test(data) {
        errors := errors + [rules[k].message];
      }
    }
    assert rules[..|rules|] == rules;
    result := if |errors| == 0 then Valid else Invalid(errors);
  }

  method Example2Before<D>(data: D, rules: seq<Rule<D>>) returns (result: Validation)
    ensures result == ValidationOf(data, rules)
  {
    var validator := new DataValidator(data, rules);
    result := validator.Execute();
  }

  datatype Applicant = Applicant(email: string, age: int)

  predicate EmailHasAt(d: Applicant) {
    '@' in d.email
  }

  predicate AtLeastEighteen(d: Applicant) {
    d.age >= 18
  }

  const Example2Rules := [Rule(EmailHasAt, "Invalid email"), Rule(AtLeastEighteen, "Must be 18 or older")]

  lemma Example2Fixture()
    ensures ValidationOf(Applicant("test@example.com", 25), Example2Rules) == Valid
    ensures ValidationOf(Applicant("test", 17), Example2Rules) == Invalid(["Invalid email", "Must be 18 or older"])
  {
    assert "test@example.com"[4] == '@';
    assert Example2Rules[..1] == [Rule(EmailHasAt, "Invalid email")];
    assert Example2Rules[..1][..0] == [];
    var young := Applicant("test", 17);
    assert !EmailHasAt(young) && !AtLeastEighteen(young);
    assert FailedMessages(young, Example2Rules[..1]) == ["Invalid email"];
    assert FailedMessages(young, Example2Rules) == ["Invalid email", "Must be 18 or older"];
  }

  // ---------------------------------------------------------------------------
  // Example 3: report generator

  datatype Row = Row(name: string, value: int)

  /** `Object.values(row).join(',')` for a `{name, value}` row. */
  function CsvLine(row: Row): string {
    row.name + "," + IntToString(row.value)
  }

  /** `${row.name}: ${row.value}` */
  function NameValueLine(row: Row): string {
    row.name + ": " + IntToString(row.value)
  }

  /** `JSON.stringify` is passed in: its serialisation is not modelled. */
  datatype ReportGenerator = ReportGenerator(data: seq<Row>, format: string)
  {
    function Execute(stringify: seq<Row> -> string): string {
      if format == "csv" then Join(Map(data, CsvLine), "\n")
      else if format == "json" then stringify(data)
      else Join(Map(data, NameValueLine), "\n")
    }
  }

  function GenerateReport(data: seq<Row>, format: string, stringify: seq<Row> -> string): (r: string)
    ensures r == ReportGenerator(data, format).Execute(stringify)
    ensures format == "json" ==> r == stringify(data)
  {
    if format == "csv" then Join(Map(data, CsvLine), "\n")
    else if format == "json" then stringify(data)
    else Join(Map(data, NameValueLine), "\n")
  }

  lemma NoNewlineInNumber(i: int)
    ensures '\n' !in IntToString(i)
  {
    var digits := NatToString(if i < 0 then -i else i);
    assert forall j :: 0 <= j < |digits| ==> digits[j] != '\n';
  }

  /** A CSV report has one line per row when no name holds a line break,
      and each line is that row's values. */
  lemma CsvReportLines(data: seq<Row>, stringify: seq<Row> -> string)
    requires |data| >= 1
    requires forall k :: 0 <= k < |data| ==> '\n' !in data[k].name
    ensures Split(GenerateReport(data, "csv", stringify), '\n') == Map(data, CsvLine)
  {
    var lines := Map(data, CsvLine);
    forall k | 0 <= k < |lines|
      ensures '\n' !in lines[k]
    {
      NoNewlineInNumber(data[k].value);
    }
    SplitJoin(lines, '\n');
  }

  lemma Digits100And200()
    ensures IntToString(100) == "100" && IntToString(200) == "200"
  {
    assert NatToString(10) == NatToString(1) + "0";
    assert NatToString(100) == NatToString(10) + "0";
    assert NatToString(20) == NatToString(2) + "0";
    assert NatToString(200) == NatToString(20) + "0";
  }

  lemma FixtureLines(data: seq<Row>)
    requires data == [Row("Alice", 100), Row("Bob", 200)]
    ensures Map(data, CsvLine) == ["Alice,100", "Bob,200"]
  {
    Digits100And200();
    assert CsvLine(data[0]) == "Alice,100";
    assert CsvLine(data[1]) == "Bob,200";
  }

  lemma FixtureCsv(lines: seq<string>)
    requires lines == ["Alice,100", "Bob,200"]
    ensures Join(lines, "\n") == "Alice,100\nBob,200"
  {
    assert lines[1..] == ["Bob,200"];
  }

  lemma Example3Fixture(data: seq<Row>, stringify: seq<Row> -> string)
    requires data == [Row("Alice", 100), Row("Bob", 200)]
    ensures GenerateReport(data, "csv", stringify) == "Alice,100\nBob,200"
  {
    FixtureLines(data);
    FixtureCsv(Map(data, CsvLine));
  }
}
