/** Replace Error Code with Exception: functions that signal failure with a
    sentinel return value, and the same functions throwing an `Error`. A
    thrown error is an `Outcome`/`Result` value; the module-level `balance`
    is an object; `console.log` is captured into a list. */
module ReplaceErrorCode {
  import opened Js

  // ---------------------------------------------------------------------------
  // Example 1: withdrawing from an account

  /** The module-level `let balance`. */
  class Account {
    var balance: int

    constructor (balance: int)
      ensures this.balance == balance
    {
      this.balance := balance;
    }
  }

  /** -1 and no change when the amount exceeds the balance; otherwise 0
      after subtracting. */
  method Withdraw(account: Account, amount: int) returns (code: int)
    modifies account
    ensures amount > old(account.balance) ==> code == -1 && account.balance == old(account.balance)
    ensures amount <= old(account.balance) ==> code == 0 && account.balance == old(account.balance) - amount
  {
    if amount > account.balance {
      return -1;
    }
    account.balance := account.balance - amount;
    code := 0;
  }

  /** Throws exactly where `Withdraw` returns -1, with the same effect. */
  method WithdrawWithException(account: Account, amount: int) returns (outcome: Outcome)
    modifies account
    ensures amount > old(account.balance) ==> outcome == Threw("Insufficient funds") && account.balance == old(account.balance)
    ensures amount <= old(account.balance) ==> outcome == Done && account.balance == old(account.balance) - amount
  {
    if amount > account.balance {
      return Threw("Insufficient funds");
    }
    account.balance := account.balance - amount;
    outcome := Done;
  }

  /** The message each version logs. */
  function WithdrawalMessage(ok: bool): string {
    if ok then "Withdrawal successful" else "Insufficient funds"
  }

  method Example1Before(account: Account, console: Console, amount: int) returns (ok: bool)
    requires account as object != console
    modifies account, console
    ensures ok <==> amount <= old(account.balance)
    ensures account.balance == if ok then old(account.balance) - amount else old(account.balance)
    ensures console.output == old(console.output) + [WithdrawalMessage(ok)]
  {
    var result := Withdraw(account, amount);
    if result == -1 {
      console.Log("Insufficient funds");
      return false;
    }
    console.Log("Withdrawal successful");
    ok := true;
  }

  method Example1After(account: Account, console: Console, amount: int) returns (ok: bool)
    requires account as object != console
    modifies account, console
    ensures ok <==> amount <= old(account.balance)
    ensures account.balance == if ok then old(account.balance) - amount else old(account.balance)
    ensures console.output == old(console.output) + [WithdrawalMessage(ok)]
  {
    var outcome := WithdrawWithException(account, amount);
    match outcome
    case Done =>
      console.Log("Withdrawal successful");
      ok := true;
    case Threw(message) =>
      console.Log(message);
      ok := false;
  }

  /** 150 against the initial balance of 100 fails in both versions and
      leaves the balance at 100. */
  method Example1Fixture() returns (before: bool, after: bool, balance: int)
    ensures !before && !after && balance == 100
  {
    var account := new Account(100);
    var console := new Console();
    before := Example1Before(account, console, 150);
    after := Example1After(account, console, 150);
    balance := account.balance;
  }

  // ---------------------------------------------------------------------------
  // Example 2: reading and parsing a file

  /** The text `readFile` returns for `config.json`. */
  const ConfigContent := "{\"key\": \"value\"}"

  function ReadFile(filename: string): (r: Result<string>)
    ensures r.Ok? <==> filename == "config.json"
    ensures r.Err? ==> r.message == "File not found"
  {
    if filename != "config.json" then Err("File not found") else Ok(ConfigContent)
  }

  function ReadFileWithException(filename: string): (r: Result<string>)
    ensures r == ReadFile(filename)
  {
    if filename != "config.json" then Err("File not found") else Ok(ConfigContent)
  }

  /** `JSON.parse` is a parameter: Err carries the message of the
      SyntaxError it throws. `parseJSON` replaces that message with its own. */
  function ParseJson<T>(data: string, jsonParse: string -> Result<T>): (r: Result<T>)
    ensures r.Err? <==> jsonParse(data).Err?
    ensures r.Err? ==> r.message == "Invalid JSON"
  {
    match jsonParse(data)
    case Ok(v) => Ok(v)
    case Err(_) => Err("Invalid JSON")
  }

  function Example2Before<T>(filename: string, jsonParse: string -> Result<T>): (r: Result<T>)
    ensures filename != "config.json" ==> r == Err("File not found")
    ensures filename == "config.json" && jsonParse(ConfigContent).Ok? ==> r == jsonParse(ConfigContent)
    ensures filename == "config.json" && jsonParse(ConfigContent).Err? ==> r == Err("Invalid JSON")
  {
    var result := ReadFile(filename);
    if result.Err? then Err(result.message)
    else
      var parsed := ParseJson(result.value, jsonParse);
      if parsed.Err? then Err(parsed.message) else Ok(parsed.value)
  }

  /** The exception version propagates the parser's own message. */
  function Example2After<T>(filename: string, jsonParse: string -> Result<T>): (r: Result<T>)
    ensures jsonParse(ConfigContent).Ok? ==> r == Example2Before(filename, jsonParse)
    ensures filename != "config.json" ==> r == Err("File not found")
    ensures filename == "config.json" ==> r == jsonParse(ConfigContent)
  {
    match ReadFileWithException(filename)
    case Err(message) => Err(message)
    case Ok(content) =>
      match jsonParse(content)
      case Ok(parsed) => Ok(parsed)
      case Err(message) => Err(message)
  }

  // ---------------------------------------------------------------------------
  // Example 3: validation codes

  datatype User = User(email: string, age: int)

  /** 1 for an e-mail without '@' (checked first), 2 for an age under 18,
      else 0. */
  function ValidateUser(user: User): (code: int)
    ensures code in {0, 1, 2}
    ensures code == 0 <==> '@' in user.email && user.age >= 18
    ensures code == 2 ==> '@' in user.email
  {
    if '@' !in user.email then 1
    else if user.age < 18 then 2
    else 0
  }

  function ValidateUserWithException(user: User): (r: Outcome)
    ensures r.Done? <==> ValidateUser(user) == 0
    ensures ValidateUser(user) == 1 ==> r == Threw("Invalid email format")
    ensures ValidateUser(user) == 2 ==> r == Threw("User must be 18 or older")
  {
    if '@' !in user.email then Threw("Invalid email format")
    else if user.age < 18 then Threw("User must be 18 or older")
    else Done
  }

  /** The line each version logs for a validation code. */
  function ValidationMessage(code: int): string {
    if code == 1 then "Invalid email format"
    else if code == 2 then "User must be 18 or older"
    else "User validated"
  }

  method Example3Before(console: Console, user: User) returns (ok: bool)
    modifies console
    ensures ok <==> ValidateUser(user) == 0
    ensures console.output == old(console.output) + [ValidationMessage(ValidateUser(user))]
  {
    var validationResult := ValidateUser(user);
    if validationResult != 0 {
      if validationResult == 1 {
        console.Log("Invalid email format");
      } else if validationResult == 2 {
        console.Log("User must be 18 or older");
      }
      return false;
    }
    console.Log("User validated");
    ok := true;
  }

  method Example3After(console: Console, user: User) returns (ok: bool)
    modifies console
    ensures ok <==> ValidateUser(user) == 0
    ensures console.output == old(console.output) + [ValidationMessage(ValidateUser(user))]
  {
    match ValidateUserWithException(user)
    case Done =>
      console.Log("User validated");
      ok := true;
    case Threw(message) =>
      console.Log(message);
      ok := false;
  }

  /** 'invalid-email' fails the e-mail check before the age is looked at. */
  lemma Example3Fixture()
    ensures ValidateUser(User("invalid-email", 15)) == 1
    ensures ValidateUserWithException(User("invalid-email", 15)) == Threw("Invalid email format")
  {
  }
}
