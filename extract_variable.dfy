/** Extract Variable: a long expression split into named local variables.
    Dates enter as integers: calendar years for example 1 and a millisecond
    clock reading for example 2. */
module ExtractVariable {
  import opened Js

  // ---------------------------------------------------------------------------
  // Example 1: eligibility by age and membership

  /** The years of `birthDate` and `joinDate`. */
  datatype Member = Member(name: string, birthYear: int, joinYear: int)

  /** The inline version reads the current year twice; the two readings are
      parameters, since they differ when the calls straddle New Year. */
  function IsEligibleBefore(user: Member, yearAtFirstRead: int, yearAtSecondRead: int): (r: bool)
    ensures r <==> user.birthYear <= yearAtFirstRead - 18 && user.joinYear <= yearAtSecondRead - 2
  {
    yearAtFirstRead - user.birthYear >= 18 && yearAtSecondRead - user.joinYear >= 2
  }

  function IsEligible(user: Member, currentYear: int): (r: bool)
    ensures r == IsEligibleBefore(user, currentYear, currentYear)
    ensures r <==> user.birthYear <= currentYear - 18 && user.joinYear <= currentYear - 2
  {
    var age := currentYear - user.birthYear;
    var yearsOfMembership := currentYear - user.joinYear;
    age >= 18 && yearsOfMembership >= 2
  }

  /** Eligibility never lapses as the years go by. */
  lemma EligibilityPersists(user: Member, year: int, later: int)
    requires year <= later && IsEligible(user, year)
    ensures IsEligible(user, later)
  {
  }

  /** Why the two readings are separate: reading 2022 and then 2023 makes a
      member who joined in 2021 eligible, which no single reading of 2022
      does. */
  lemma ReadingsStraddlingNewYear()
    ensures IsEligibleBefore(Member("Bob", 2004, 2021), 2022, 2023)
    ensures !IsEligible(Member("Bob", 2004, 2021), 2022)
  {
  }

  lemma Example1Fixture(currentYear: int)
    requires currentYear >= 2022
    ensures IsEligible(Member("Alice", 2000, 2020), currentYear)
  {
  }

  // ---------------------------------------------------------------------------
  // Example 2: access check

  /** `lastLogin` as a millisecond timestamp. */
  datatype AccessUser = AccessUser(role: string, isActive: bool, lastLogin: int, permissions: seq<string>)

  const MillisecondsPerDay := 1000 * 60 * 60 * 24

  /** `now` is the reading of `Date.now()`; 30 days are 2 592 000 000
      milliseconds. */
  function CanAccessResourceBefore(user: AccessUser, now: int): (r: bool)
    ensures r <==> user.role == "admin" && user.isActive && "write" in user.permissions
                   && "delete" in user.permissions && now < user.lastLogin + 2592000000
  {
    user.role == "admin" && user.isActive && (now - user.lastLogin) < MillisecondsPerDay * 30
    && "write" in user.permissions && "delete" in user.permissions
  }

  /** The day count is a quotient, which is below 30 exactly when the
      millisecond difference is below 30 days' worth. */
  function CanAccessResource(user: AccessUser, now: int): (r: bool)
    ensures r == CanAccessResourceBefore(user, now)
  {
    var isAdmin := user.role == "admin";
    var daysSinceLastLogin := (now - user.lastLogin) as real / MillisecondsPerDay as real;
    var hasRecentActivity := daysSinceLastLogin < 30.0;
    var hasWritePermission := "write" in user.permissions;
    var hasDeletePermission := "delete" in user.permissions;
    QuotientBelow(now - user.lastLogin, MillisecondsPerDay, 30);
    isAdmin && user.isActive && hasRecentActivity && hasWritePermission && hasDeletePermission
  }

  lemma QuotientBelow(x: int, d: int, bound: int)
    requires d > 0
    ensures x as real / d as real < bound as real <==> x < d * bound
  {
    var q := x as real / d as real;
    assert q * d as real == x as real;
    if x < d * bound {
      assert (d * bound) as real == d as real * bound as real;
    }
  }

  /** Without the admin role, activity or either permission, access is denied. */
  lemma AccessNeedsAll(user: AccessUser, now: int)
    ensures CanAccessResource(user, now) ==> user.role == "admin" && user.isActive
    ensures CanAccessResource(user, now) ==> "write" in user.permissions && "delete" in user.permissions
  {
  }

  /** An active admin holding write and delete who logged in 5 days ago. */
  lemma Example2Fixture(now: int)
    ensures CanAccessResource(AccessUser("admin", true, now - MillisecondsPerDay * 5, ["read", "write", "delete"]), now)
  {
    assert ["read", "write", "delete"][1] == "write";
    assert ["read", "write", "delete"][2] == "delete";
  }

  // ---------------------------------------------------------------------------
  // Example 3: building an API URL

  /** `params` keeps its keys in insertion order, the order `Object.keys`
      returns them in. */
  datatype ApiConfig = ApiConfig(protocol: string, domain: string, version: string, endpoint: string, id: int,
                                 params: seq<(string, string)>)

  function KeyValue(param: (string, string)): string {
    param.0 + "=" + param.1
  }

  /** The URL ends with '?' and the query string. */
  function BuildApiUrlBefore(config: ApiConfig): (r: string)
    ensures var q := Join(Map(config.params, KeyValue), "&");
            |q| < |r| && r[|r| - |q| - 1] == '?' && r[|r| - |q|..] == q
  {
    var path := config.protocol + "://" + config.domain + "/api/" + config.version + "/"
                + config.endpoint + "/" + IntToString(config.id);
    var q := Join(Map(config.params, KeyValue), "&");
    QueryAtEnd(path, q);
    path + "?" + q
  }

  lemma QueryAtEnd(path: string, q: string)
    ensures var r := path + "?" + q;
            |q| < |r| && r[|r| - |q| - 1] == '?' && r[|r| - |q|..] == q
  {
  }

  function BuildApiUrl(config: ApiConfig): (r: string)
    ensures r == BuildApiUrlBefore(config)
    ensures StartsWith(r, config.protocol + "://" + config.domain + "/api/")
  {
    var baseUrl := config.protocol + "://" + config.domain;
    var apiPath := "/api/" + config.version;
    var resourcePath := "/" + config.endpoint + "/" + IntToString(config.id);
    var queryString := Join(Map(config.params, (param: (string, string)) => param.0 + "=" + param.1), "&");
    assert Map(config.params, (param: (string, string)) => param.0 + "=" + param.1) == Map(config.params, KeyValue);
    var r := baseUrl + apiPath + resourcePath + "?" + queryString;
    UrlStartsWithBase(baseUrl, config.version, resourcePath + "?" + queryString);
    UrlRegrouped(config.protocol, config.domain, config.version, config.endpoint, IntToString(config.id), queryString);
    r
  }

  /** The template literal groups the same pieces differently. */
  lemma UrlRegrouped(protocol: string, domain: string, version: string, endpoint: string, id: string, q: string)
    ensures protocol + "://" + domain + "/api/" + version + "/" + endpoint + "/" + id + "?" + q
            == (protocol + "://" + domain) + ("/api/" + version) + ("/" + endpoint + "/" + id) + "?" + q
  {
  }

  lemma UrlStartsWithBase(baseUrl: string, version: string, rest: string)
    ensures baseUrl + ("/api/" + version) + rest == baseUrl + "/api/" + version + rest
    ensures StartsWith(baseUrl + ("/api/" + version) + rest, baseUrl + "/api/")
  {
    var r := baseUrl + ("/api/" + version) + rest;
    assert r == (baseUrl + "/api/") + (version + rest);
  }

  /** The query string is the parameters in order, each as key=value,
      separated by '&'. */
  lemma QueryStringOfTwo(config: ApiConfig, a: (string, string), b: (string, string))
    requires config.params == [a, b]
    ensures Join(Map(config.params, KeyValue), "&") == a.0 + "=" + a.1 + "&" + b.0 + "=" + b.1
  {
    assert Map([a, b], KeyValue) == [KeyValue(a), KeyValue(b)];
    assert [KeyValue(a), KeyValue(b)][1..] == [KeyValue(b)];
  }

  lemma QueryStringFixture(params: seq<(string, string)>)
    requires params == [("include", "profile"), ("format", "json")]
    ensures Join(Map(params, KeyValue), "&") == "include=profile&format=json"
  {
    assert Map(params, KeyValue) == [KeyValue(params[0]), KeyValue(params[1])];
    assert KeyValue(params[0]) == "include=profile";
    assert KeyValue(params[1]) == "format=json";
    assert [KeyValue(params[0]), KeyValue(params[1])][1..] == [KeyValue(params[1])];
  }

  lemma IdFixture()
    ensures IntToString(123) == "123"
  {
    assert NatToString(12) == NatToString(1) + "2";
    assert NatToString(123) == NatToString(12) + "3";
  }

  lemma UrlHeadFixture(config: ApiConfig)
    requires config.protocol == "https" && config.domain == "api.example.com" && config.version == "v2"
    requires config.endpoint == "users" && config.id == 123
    ensures config.protocol + "://" + config.domain + "/api/" + config.version + "/"
            + config.endpoint + "/" + IntToString(config.id) + "?" == "https://api.example.com/api/v2/users/123?"
  {
    IdFixture();
    UrlHeadText();
  }

  lemma UrlHeadText()
    ensures "https" + "://" + "api.example.com" + "/api/" + "v2" + "/" + "users" + "/" + "123" + "?"
            == "https://api.example.com/api/v2/users/123?"
  {
    assert "https" + "://" == "https://";
    assert "https://" + "api.example.com" == "https://api.example.com";
    assert "https://api.example.com" + "/api/" + "v2" == "https://api.example.com/api/v2";
    assert "https://api.example.com/api/v2" + "/" + "users" == "https://api.example.com/api/v2/users";
  }

  lemma Example3Fixture(config: ApiConfig)
    requires config == ApiConfig("https", "api.example.com", "v2", "users", 123,
                                 [("include", "profile"), ("format", "json")])
    ensures BuildApiUrl(config) == "https://api.example.com/api/v2/users/123?include=profile&format=json"
  {
    QueryStringFixture(config.params);
    UrlHeadFixture(config);
    UrlText();
  }

  lemma UrlText()
    ensures "https://api.example.com/api/v2/users/123?" + "include=profile&format=json"
            == "https://api.example.com/api/v2/users/123?include=profile&format=json"
  {
  }
}
