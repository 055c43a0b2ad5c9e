/** Replace Function with Command: functions that act on module-level state
    or take many parameters, and command objects that do the same work with
    undo, deferred execution, or a builder. The module-level `state` object
    and `commandQueue` array are objects passed to the code that uses them. */
module ReplaceFunctionWithCommand {
  import opened Js

  // ---------------------------------------------------------------------------
  // Example 1: undoable calculation

  /** The module-level `state`. Its value is None once an undo has restored
      a `previousValue` that was still `null`. */
  class State {
    var value: Option<int>

    constructor (value: int)
      ensures this.value == Some(value)
    {
      this.value := Some(value);
    }
  }

  /** `state.value + n`: JavaScript's `null + n` is n. */
  function Plus(v: Option<int>, n: int): int {
    (if v.None? then 0 else v.value) + n
  }

  method Calculate(state: State, value: int) returns (result: int)
    modifies state
    ensures result == Plus(old(state.value), value) && state.value == Some(result)
  {
    var previous := state.value;
    state.value := Some(Plus(state.value, value));
    result := state.value.value;
  }

  class CalculateCommand {
    const value: int
    var previousValue: Option<int>

    constructor (value: int)
      ensures this.value == value && previousValue == None
    {
      this.value := value;
      this.previousValue := None;
    }

    /** Records the value it replaces, then adds its own. */
    method Execute(state: State) returns (result: int)
      modifies this, state
      ensures previousValue == old(state.value)
      ensures result == Plus(old(state.value), value) && state.value == Some(result)
    {
      previousValue := state.value;
      state.value := Some(Plus(state.value, value));
      result := state.value.value;
    }

    method Undo(state: State)
      modifies state
      ensures state.value == previousValue
    {
      state.value := previousValue;
    }
  }

  method Example1Before(state: State) returns (result: int)
    modifies state
    ensures result == Plus(old(state.value), 5) && state.value == Some(result)
  {
    result := Calculate(state, 5);
  }

  /** The command returns the same value, and its undo leaves the state as it
      found it. */
  method Example1After(state: State) returns (result: int)
    modifies state
    ensures result == Plus(old(state.value), 5) && state.value == old(state.value)
  {
    var command := new CalculateCommand(5);
    result := command.Execute(state);
    command.Undo(state);
  }

  /** With the module's initial value of 10 both return 15. */
  method Example1Fixture() returns (before: int, after: int, finalValue: Option<int>)
    ensures before == 15 && after == 15 && finalValue == Some(10)
  {
    var s1 := new State(10);
    before := Example1Before(s1);
    var s2 := new State(10);
    after := Example1After(s2);
    finalValue := s2.value;
  }

  // ---------------------------------------------------------------------------
  // Example 2: command queue with deferred execution

  datatype PaymentRecord = PaymentRecord(amount: int, currency: string, status: string)

  function ProcessingLine(amount: int, currency: string): string {
    "Processing " + IntToString(amount) + " " + currency
  }

  method ProcessPayment(console: Console, amount: int, currency: string) returns (r: PaymentRecord)
    modifies console
    ensures r == PaymentRecord(amount, currency, "completed")
    ensures console.output == old(console.output) + [ProcessingLine(amount, currency)]
  {
    console.Log("Processing " + IntToString(amount) + " " + currency);
    r := PaymentRecord(amount, currency, "completed");
  }

  datatype PaymentCommand = PaymentCommand(amount: int, currency: string)
  {
    method Execute(console: Console) returns (r: PaymentRecord)
      modifies console
      ensures r == PaymentRecord(amount, currency, "completed")
      ensures console.output == old(console.output) + [ProcessingLine(amount, currency)]
    {
      console.Log("Processing " + IntToString(amount) + " " + currency);
      r := PaymentRecord(amount, currency, "completed");
    }

    /** A positive amount and a three-letter currency code. */
    predicate Validate() {
      amount > 0 && |currency| == 3
    }
  }

  function LineOf(cmd: PaymentCommand): string {
    ProcessingLine(cmd.amount, cmd.currency)
  }

  /** Running one more queued command adds its line at the end. */
  lemma LinesSnoc(queued: seq<PaymentCommand>, k: nat)
    requires k < |queued|
    ensures Map(queued[..k + 1], LineOf) == Map(queued[..k], LineOf) + [LineOf(queued[k])]
  {
    assert queued[..k + 1] == queued[..k] + [queued[k]];
    MapAppend(queued[..k], [queued[k]], LineOf);
  }

  /** The module-level `commandQueue`; nothing ever removes a command. */
  class CommandQueue {
    var commands: seq<PaymentCommand>

    constructor ()
      ensures commands == []
    {
      commands := [];
    }

    method Push(cmd: PaymentCommand)
      modifies this
      ensures commands == old(commands) + [cmd]
    {
      commands := commands + [cmd];
    }

    /** `commandQueue.forEach(cmd => cmd.execute())`: every queued command
        runs, in push order. */
    method ExecuteAll(console: Console)
      requires console as object != this
      modifies console
      ensures console.output == old(console.output) + Map(commands, LineOf)
    {
      var queued := commands;
      for k := 0 to |queued|
        invariant console.output == old(console.output) + Map(queued[..k], LineOf)
      {
        var _ := queued[k].Execute(console);
        LinesSnoc(queued, k);
      }
      assert queued[..|queued|] == queued;
    }
  }

  method Example2Before(console: Console) returns (message: string)
    modifies console
    ensures message == "Payments processed immediately"
    ensures console.output == old(console.output) + [ProcessingLine(100, "USD"), ProcessingLine(200, "EUR")]
  {
    var _ := ProcessPayment(console, 100, "USD");
    var _ := ProcessPayment(console, 200, "EUR");
    message := "Payments processed immediately";
  }

  /** The queue is shared between calls, so the commands left from earlier
      calls run again: only on an empty queue does this log what the
      immediate version logs. */
  method Example2After(console: Console, commandQueue: CommandQueue) returns (message: string)
    requires console as object != commandQueue
    modifies console, commandQueue
    ensures message == "Payments queued then processed"
    ensures commandQueue.commands == old(commandQueue.commands) + [PaymentCommand(100, "USD"), PaymentCommand(200, "EUR")]
    ensures console.output == old(console.output) + Map(commandQueue.commands, LineOf)
    ensures old(commandQueue.commands) == [] ==>
              console.output == old(console.output) + [ProcessingLine(100, "USD"), ProcessingLine(200, "EUR")]
  {
    commandQueue.Push(PaymentCommand(100, "USD"));
    commandQueue.Push(PaymentCommand(200, "EUR"));
    commandQueue.ExecuteAll(console);
    message := "Payments queued then processed";
  }

  lemma PaymentCommandsValid()
    ensures PaymentCommand(100, "USD").Validate() && PaymentCommand(200, "EUR").Validate()
    ensures !PaymentCommand(0, "USD").Validate() && !PaymentCommand(100, "US").Validate()
  {
  }

  // ---------------------------------------------------------------------------
  // Example 3: builder-style parameters

  /** `to`, `subject` and `body` are None while still `null`. */
  datatype Email = Email(to: Option<string>, subject: Option<string>, body: Option<string>,
                         attachments: seq<string>, highPriority: bool, sent: bool)

  function SendEmail(to: Option<string>, subject: Option<string>, body: Option<string>,
                     attachments: seq<string>, highPriority: bool): (r: Email)
    ensures r.sent && r.to == to && r.attachments == attachments
  {
    Email(to, subject, body, attachments, highPriority, true)
  }

  function Example3Before(): Email {
    SendEmail(Some("user@example.com"), Some("Hello"), Some("Welcome!"), ["file.pdf"], true)
  }

  class SendEmailCommand {
    var toAddress: Option<string>
    var emailSubject: Option<string>
    var emailBody: Option<string>
    var attachments: seq<string>
    var highPriority: bool

    constructor ()
      ensures toAddress == None && emailSubject == None && emailBody == None
      ensures attachments == [] && !highPriority
    {
      toAddress := None;
      emailSubject := None;
      emailBody := None;
      attachments := [];
      highPriority := false;
    }

    method To(address: string) returns (self: SendEmailCommand)
      modifies this`toAddress
      ensures self == this && toAddress == Some(address)
    {
      toAddress := Some(address);
      self := this;
    }

    method Subject(text: string) returns (self: SendEmailCommand)
      modifies this`emailSubject
      ensures self == this && emailSubject == Some(text)
    {
      emailSubject := Some(text);
      self := this;
    }

    method Body(text: string) returns (self: SendEmailCommand)
      modifies this`emailBody
      ensures self == this && emailBody == Some(text)
    {
      emailBody := Some(text);
      self := this;
    }

    method Attach(file: string) returns (self: SendEmailCommand)
      modifies this`attachments
      ensures self == this && attachments == old(attachments) + [file]
    {
      attachments := attachments + [file];
      self := this;
    }

    method Priority(high: bool) returns (self: SendEmailCommand)
      modifies this`highPriority
      ensures self == this && highPriority == high
    {
      highPriority := high;
      self := this;
    }

    function Execute(): (r: Email)
      reads this
      ensures r == SendEmail(toAddress, emailSubject, emailBody, attachments, highPriority)
    {
      Email(toAddress, emailSubject, emailBody, attachments, highPriority, true)
    }
  }

  method Example3After() returns (r: Email)
    ensures r == Example3Before()
  {
    var command := new SendEmailCommand();
    var _ := command.To("user@example.com");
    var _ := command.Subject("Hello");
    var _ := command.Body("Welcome!");
    var _ := command.Attach("file.pdf");
    var _ := command.Priority(true);
    r := command.Execute();
  }
}
