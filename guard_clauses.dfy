/** Guard clauses: nested if/else chains that assign a local result, and the
    same checks written as early returns. */
module GuardClauses {
  import opened Js

  // ---------------------------------------------------------------------------
  // Example 1: payment calculation with status checks

  /** An employee record; `salary` is None when the field is missing. */
  datatype Employee = Employee(isSeparated: bool, isRetired: bool, isDead: bool, salary: Option<int>)

  datatype Pay = Pay(amount: int, reason: string)

  predicate Flagged(e: Employee) {
    e.isSeparated || e.isRetired || e.isDead
  }

  /** At most one of the three status flags is set. */
  predicate AtMostOneFlag(e: Employee) {
    !(e.isSeparated && e.isRetired) && !(e.isSeparated && e.isDead) && !(e.isRetired && e.isDead)
  }

  /** `salary || 5000`: a missing or zero salary falls back to 5000. */
  function CalculateNormalPay(e: Employee): (r: Pay)
    ensures r.reason == "normal" && r.amount != 0
    ensures e.salary.Some? && e.salary.value != 0 ==> r.amount == e.salary.value
    ensures e.salary.None? || e.salary.value == 0 ==> r.amount == 5000
  {
    Pay(if e.salary.Some? && e.salary.value != 0 then e.salary.value else 5000, "normal")
  }

  /** The nested version: separated is tested first, then retired, then dead. */
  method Example1Before(e: Employee) returns (result: Pay)
    ensures e.isSeparated ==> result == Pay(0, "separated")
    ensures !e.isSeparated && e.isRetired ==> result == Pay(0, "retired")
    ensures !e.isSeparated && !e.isRetired && e.isDead ==> result == Pay(0, "deceased")
    ensures !Flagged(e) ==> result == CalculateNormalPay(e)
    ensures AtMostOneFlag(e) ==> result == Example1After(e)
  {
    if e.isSeparated {
      result := Pay(0, "separated");
    } else {
      if e.isRetired {
        result := Pay(0, "retired");
      } else {
        if e.isDead {
          result := Pay(0, "deceased");
        } else {
          result := CalculateNormalPay(e);
        }
      }
    }
  }

  /** The guard-clause version: dead is tested first. */
  function Example1After(e: Employee): (r: Pay)
    ensures Flagged(e) <==> r.amount == 0
    ensures Flagged(e) ==> r.reason in {"separated", "retired", "deceased"}
    ensures !Flagged(e) ==> r == CalculateNormalPay(e)
    ensures e.isDead ==> r == Pay(0, "deceased")
    ensures !e.isDead && e.isSeparated ==> r == Pay(0, "separated")
    ensures !e.isDead && !e.isSeparated && e.isRetired ==> r == Pay(0, "retired")
  {
    if e.isDead then Pay(0, "deceased")
    else if e.isSeparated then Pay(0, "separated")
    else if e.isRetired then Pay(0, "retired")
    else CalculateNormalPay(e)
  }

  /** With two flags set the two orderings disagree, which is why the
      equivalence in Example1Before needs AtMostOneFlag. */
  method Example1OrderMatters() returns (before: Pay, after: Pay)
    ensures before == Pay(0, "separated") && after == Pay(0, "deceased")
  {
    var e := Employee(true, false, true, None);
    before := Example1Before(e);
    after := Example1After(e);
  }

  // ---------------------------------------------------------------------------
  // Example 2: data processing with validation

  /** A user payload; an empty string stands for a missing or falsy field. */
  datatype UserData = UserData(id: string, email: string, name: string)

  datatype Normalized = User(id: string, email: string, name: string) | Invalid(error: string)

  /** `email && email.includes('@')` */
  function ValidateEmail(email: string): (ok: bool)
    ensures ok <==> email != [] && '@' in email
  {
    email != [] && '@' in email
  }

  /** `email.toLowerCase().trim()`: the trimmed email (Js.Trim states
      which characters that keeps), lower-cased (so, by ToLower, with no
      upper-case letter left). */
  function NormalizeEmail(email: string): (r: string)
    ensures r == ToLower(Trim(email))
    ensures r == [] || (!IsSpace(r[0]) && !IsSpace(r[|r| - 1]))
  {
    LowerTrim(email);
    Trim(ToLower(email))
  }

  /** The error a payload gets, checked in the order data, id, email, format. */
  function UserDataError(userData: Option<UserData>): Option<string> {
    if userData.None? then Some("User data is required")
    else if userData.value.id == [] then Some("User ID is required")
    else if userData.value.email == [] then Some("Email is required")
    else if !ValidateEmail(userData.value.email) then Some("Invalid email format")
    else None
  }

  method Example2Before(userData: Option<UserData>) returns (result: Normalized)
    ensures result == Example2After(userData)
  {
    if userData.Some? {
      if userData.value.id != [] {
        if userData.value.email != [] {
          if ValidateEmail(userData.value.email) {
            result := User(userData.value.id, NormalizeEmail(userData.value.email),
                           if userData.value.name != [] then userData.value.name else "Unknown");
          } else {
            result := Invalid("Invalid email format");
          }
        } else {
          result := Invalid("Email is required");
        }
      } else {
        result := Invalid("User ID is required");
      }
    } else {
      result := Invalid("User data is required");
    }
  }

  function Example2After(userData: Option<UserData>): (r: Normalized)
    ensures r.Invalid? <==> UserDataError(userData).Some?
    ensures r.Invalid? ==> r.error == UserDataError(userData).value
    ensures r.User? ==> r.id == userData.value.id
    ensures r.User? ==> r.email == NormalizeEmail(userData.value.email)
    ensures r.User? ==> r.name == if userData.value.name == [] then "Unknown" else userData.value.name
  {
    if userData.None? then Invalid("User data is required")
    else if userData.value.id == [] then Invalid("User ID is required")
    else if userData.value.email == [] then Invalid("Email is required")
    else if !ValidateEmail(userData.value.email) then Invalid("Invalid email format")
    else User(userData.value.id, NormalizeEmail(userData.value.email),
              if userData.value.name == [] then "Unknown" else userData.value.name)
  }

  /** A payload passes exactly when it is present, has an id, and its email
      holds an '@'; an earlier check's message wins over a later one. */
  lemma Example2ErrorOrder(userData: Option<UserData>)
    ensures UserDataError(userData).None? <==>
              userData.Some? && userData.value.id != [] && '@' in userData.value.email
    ensures userData.Some? && userData.value.id == [] && userData.value.email == [] ==>
              UserDataError(userData) == Some("User ID is required")
  {
  }

  // ---------------------------------------------------------------------------
  // Example 3: configuration validation

  /** `timeout` is None when it is missing or NaN: then both `timeout > 0`
      and `timeout <= 0` are false. */
  datatype Config = Config(apiKey: string, endpoint: string, timeout: Option<int>)

  class Client {
    const connected: bool
    const service: Service

    constructor (service: Service)
      ensures connected && this.service == service
    {
      this.connected := true;
      this.service := service;
    }
  }

  class Service {
    const apiKey: string
    const endpoint: string
    const timeout: Option<int>
    const status: string
    var client: Client?

    constructor (apiKey: string, endpoint: string, timeout: Option<int>)
      ensures this.apiKey == apiKey && this.endpoint == endpoint && this.timeout == timeout
      ensures status == "initialized" && client == null
    {
      this.apiKey := apiKey;
      this.endpoint := endpoint;
      this.timeout := timeout;
      this.status := "initialized";
      this.client := null;
    }

    /** The state a successful initialisation leaves the service in. */
    ghost predicate InitializedFrom(config: Config)
      reads this, client
    {
      apiKey == config.apiKey && endpoint == config.endpoint && timeout == config.timeout
      && status == "initialized" && client != null && client.connected && client.service == this
    }
  }

  /** `createClient(service)` */
  method CreateClient(service: Service) returns (c: Client)
    ensures fresh(c) && c.connected && c.service == service
  {
    c := new Client(service);
  }

  predicate TimeoutPositive(timeout: Option<int>) {
    timeout.Some? && timeout.value > 0
  }

  /** The message the nested version throws, or None when it succeeds. */
  function ConfigError(config: Config): Option<string> {
    if config.apiKey == [] then Some("API key is required")
    else if config.endpoint == [] then Some("Endpoint is required")
    else if !TimeoutPositive(config.timeout) then Some("Timeout must be positive")
    else None
  }

  /** The message the guard-clause version throws: its last guard is
      `timeout <= 0`, which a missing timeout does not trigger. */
  function ConfigErrorAsWritten(config: Config): Option<string> {
    if config.apiKey == [] then Some("API key is required")
    else if config.endpoint == [] then Some("Endpoint is required")
    else if config.timeout.Some? && config.timeout.value <= 0 then Some("Timeout must be positive")
    else None
  }

  /** For a numeric timeout the two versions throw the same error; they
      differ exactly on a missing timeout with both other fields set. */
  lemma Example3ErrorsAgree(config: Config)
    ensures config.timeout.Some? ==> ConfigError(config) == ConfigErrorAsWritten(config)
    ensures ConfigError(config) != ConfigErrorAsWritten(config) <==>
              config.timeout.None? && config.apiKey != [] && config.endpoint != []
  {
  }

  method Example3Before(config: Config) returns (r: Result<Service>)
    ensures r.Err? <==> ConfigError(config).Some?
    ensures r.Err? ==> r.message == ConfigError(config).value
    ensures r.Ok? ==> fresh(r.value) && r.value.InitializedFrom(config)
  {
    var service: Service;
    if config.apiKey != [] {
      if config.endpoint != [] {
        if TimeoutPositive(config.timeout) {
          service := new Service(config.apiKey, config.endpoint, config.timeout);
          var client := CreateClient(service);
          service.client := client;
        } else {
          return Err("Timeout must be positive");
        }
      } else {
        return Err("Endpoint is required");
      }
    } else {
      return Err("API key is required");
    }
    r := Ok(service);
  }

  /** The guard-clause version as written. */
  method Example3After(config: Config) returns (r: Result<Service>)
    ensures r.Err? <==> ConfigErrorAsWritten(config).Some?
    ensures r.Err? ==> r.message == ConfigErrorAsWritten(config).value
    ensures r.Ok? ==> fresh(r.value) && r.value.InitializedFrom(config)
  {
    if config.apiKey == [] { return Err("API key is required"); }
    if config.endpoint == [] { return Err("Endpoint is required"); }
    if config.timeout.Some? && config.timeout.value <= 0 { return Err("Timeout must be positive"); }
    var service := new Service(config.apiKey, config.endpoint, config.timeout);
    var client := CreateClient(service);
    service.client := client;
    r := Ok(service);
  }

  /** A configuration without a timeout: the nested version throws, the
      guard-clause version initialises a service. */
  method Example3MissingTimeout() returns (before: Result<Service>, after: Result<Service>)
    ensures before == Err("Timeout must be positive") && after.Ok?
  {
    var config := Config("key", "https://example.test", None);
    before := Example3Before(config);
    after := Example3After(config);
  }

  /** The guard-clause version with its last guard negated from the nested
      one (`!(timeout > 0)`), which behaves as the nested version does. */
  method Example3AfterCorrected(config: Config) returns (r: Result<Service>)
    ensures r.Err? <==> ConfigError(config).Some?
    ensures r.Err? ==> r.message == ConfigError(config).value
    ensures r.Ok? ==> fresh(r.value) && r.value.InitializedFrom(config)
  {
    if config.apiKey == [] { return Err("API key is required"); }
    if config.endpoint == [] { return Err("Endpoint is required"); }
    if !TimeoutPositive(config.timeout) { return Err("Timeout must be positive"); }
    var service := new Service(config.apiKey, config.endpoint, config.timeout);
    var client := CreateClient(service);
    service.client := client;
    r := Ok(service);
  }
}
