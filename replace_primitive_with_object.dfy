/** Replace Primitive with Object: values checked inline where they are
    used, and the same checks moved into the constructor of a small value
    class. A constructor that throws returns `Err` with the thrown message. */
module ReplacePrimitiveWithObject {
  import opened Js

  // ---------------------------------------------------------------------------
  // Example 1: e-mail address

  /** The check both versions make: an '@' and a '.' somewhere. */
  predicate LooksLikeEmail(value: string) {
    '@' in value && '.' in value
  }

  datatype Email = Email(value: string) {
    function ToString(): string {
      value
    }
  }

  /** `new Email(value)` */
  function NewEmail(value: string): (r: Result<Email>)
    ensures r.Ok? <==> LooksLikeEmail(value)
    ensures r.Ok? ==> r.value.ToString() == value
    ensures r.Err? ==> r.message == "Invalid email"
  {
    if '@' !in value || '.' !in value then Err("Invalid email") else Ok(Email(value))
  }

  datatype EmailRecord = EmailRecord(email: string, verified: bool)

  datatype EmailObjectRecord = EmailObjectRecord(email: Email, verified: bool)

  function Example1Before(email: string): (r: Result<EmailRecord>)
    ensures r.Ok? <==> LooksLikeEmail(email)
    ensures r.Ok? ==> r.value == EmailRecord(email, false)
    ensures r.Err? ==> r.message == "Invalid email"
  {
    if '@' !in email || '.' !in email then Err("Invalid email") else Ok(EmailRecord(email, false))
  }

  function Example1After(email: string): Result<EmailObjectRecord> {
    match NewEmail(email)
    case Err(message) => Err(message)
    case Ok(emailObj) => Ok(EmailObjectRecord(emailObj, false))
  }

  /** Both versions accept the same strings, throw the same message, and the
      wrapped value prints as the plain string. */
  lemma {:induction false} Example1Agree(email: string)
    ensures Example1After(email).Ok? <==> Example1Before(email).Ok?
    ensures Example1After(email).Err? ==> Example1After(email).message == Example1Before(email).message
    ensures Example1After(email).Ok? ==>
              Example1After(email).value.email.ToString() == Example1Before(email).value.email
              && Example1After(email).value.verified == Example1Before(email).value.verified
  {
    var r := NewEmail(email);
    assert r.Ok? <==> LooksLikeEmail(email);
  }

  lemma Example1Fixture()
    ensures Example1After("user@example.com") == Ok(EmailObjectRecord(Email("user@example.com"), false))
  {
    assert "user@example.com"[4] == '@' && "user@example.com"[12] == '.';
  }

  // ---------------------------------------------------------------------------
  // Example 2: phone number

  /** `(${v.slice(0, 3)}) ${v.slice(3, 6)}-${v.slice(6)}` for a ten-character v. */
  function FormatPhone(v: string): (r: string)
    requires |v| == 10
    ensures |r| == 14
    ensures r[0] == '(' && r[4] == ')' && r[5] == ' ' && r[9] == '-'
    ensures r[1..4] + r[6..9] + r[10..] == v
  {
    var r := "(" + v[..3] + ") " + v[3..6] + "-" + v[6..];
    assert r[1..4] == v[..3] && r[6..9] == v[3..6] && r[10..] == v[6..];
    assert v[..3] + v[3..6] + v[6..] == v;
    r
  }

  /** The digits a constructed phone number holds: exactly ten characters. */
  type PhoneDigits = s: string | |s| == 10 witness "0000000000"

  datatype PhoneNumber = PhoneNumber(value: PhoneDigits) {
    function Format(): (r: string)
      ensures |r| == 14
      ensures r[1..4] + r[6..9] + r[10..] == value
    {
      FormatPhone(value)
    }

    function ToString(): string {
      value
    }
  }

  /** `new PhoneNumber(value)` */
  function NewPhoneNumber(value: string): (r: Result<PhoneNumber>)
    ensures r.Ok? <==> |value| == 10
    ensures r.Ok? ==> r.value.ToString() == value
    ensures r.Err? ==> r.message == "Invalid phone number"
  {
    if |value| != 10 then Err("Invalid phone number") else Ok(PhoneNumber(value))
  }

  function Example2Before(phone: string): (r: Result<string>)
    ensures r.Ok? <==> |phone| == 10
    ensures r.Err? ==> r.message == "Invalid phone number"
    ensures r.Ok? ==> r.value == FormatPhone(phone)
  {
    if |phone| != 10 then Err("Invalid phone number")
    else
      var formatted := "(" + phone[..3] + ") " + phone[3..6] + "-" + phone[6..];
      Ok(formatted)
  }

  function Example2After(phone: string): (r: Result<string>)
    ensures r == Example2Before(phone)
  {
    match NewPhoneNumber(phone)
    case Err(message) => Err(message)
    case Ok(p) => Ok(p.Format())
  }

  lemma Example2Fixture(phone: string)
    requires phone == "5551234567"
    ensures Example2After(phone) == Ok("(555) 123-4567")
  {
    assert phone[..3] == "555" && phone[3..6] == "123" && phone[6..] == "4567";
    var u1 := "(" + "555" + ") ";
    assert u1 == "(555) ";
    var u2 := u1 + "123" + "-";
    assert u2 == "(555) 123-";
    assert u2 + "4567" == "(555) 123-4567";
    assert Example2Before(phone) == Ok("(555) 123-4567");
  }

  // ---------------------------------------------------------------------------
  // Example 3: money with a currency

  const Currencies := ["USD", "EUR", "GBP"]

  datatype Money = Money(amount: int, currency: string) {
    /** What the constructor guarantees of every Money it builds. */
    predicate Valid() {
      amount >= 0 && currency in Currencies
    }

    /** `add(other)`: same currency only, through the checking constructor. */
    function Add(other: Money): (r: Result<Money>)
      ensures currency != other.currency ==> r == Err("Cannot add money with different currencies")
      ensures Valid() && other.Valid() && currency == other.currency ==>
                r == Ok(Money(amount + other.amount, currency)) && r.value.Valid()
    {
      if currency != other.currency then Err("Cannot add money with different currencies")
      else NewMoney(amount + other.amount, currency)
    }

    function ToString(): string {
      IntToString(amount) + " " + currency
    }
  }

  /** `new Money(amount, currency)`: the sign is checked before the currency. */
  function NewMoney(amount: int, currency: string): (r: Result<Money>)
    ensures r.Ok? <==> amount >= 0 && currency in Currencies
    ensures r.Ok? ==> r.value == Money(amount, currency) && r.value.Valid()
    ensures amount < 0 ==> r == Err("Amount cannot be negative")
    ensures amount >= 0 && currency !in Currencies ==> r == Err("Invalid currency")
  {
    if amount < 0 then Err("Amount cannot be negative")
    else if currency !in Currencies then Err("Invalid currency")
    else Ok(Money(amount, currency))
  }

  /** Adding is commutative whenever it succeeds. */
  lemma {:induction false} AddCommutes(a: Money, b: Money)
    requires a.Add(b).Ok?
    ensures b.Add(a) == a.Add(b)
  {
    assert a.currency == b.currency;
    assert b.amount + a.amount == a.amount + b.amount;
  }

  /** The string form puts the amount, a space, then the currency code. */
  lemma {:induction false} ToStringShape(m: Money)
    requires m.Valid()
    ensures |m.ToString()| >= 5
    ensures m.ToString()[|m.ToString()| - 4..] == " " + m.currency
  {
    var digits := IntToString(m.amount);
    assert m.ToString() == digits + (" " + m.currency);
    assert |m.currency| == 3;
  }

  function Example3Before(amount: int, currency: string): (r: Result<Money>)
    ensures r == NewMoney(amount, currency)
  {
    if amount < 0 then Err("Amount cannot be negative")
    else if !(currency in Currencies) then Err("Invalid currency")
    else Ok(Money(amount, currency))
  }

  function Example3After(amount: int, currency: string): (r: Result<Money>)
    ensures r == Example3Before(amount, currency)
  {
    NewMoney(amount, currency)
  }

  lemma Example3Fixture()
    ensures Example3After(100, "USD") == Ok(Money(100, "USD"))
    ensures Money(100, "USD").Add(Money(5, "USD")) == Ok(Money(105, "USD"))
    ensures Money(100, "USD").Add(Money(5, "EUR")).Err?
  {
  }
}
