/** The report service written as one function: addReport checks its
    parameters, looks the team up, runs one issue search per status category
    and stores the results under the category, then saves the report. The
    issue search, the team lookup, the report store and the date formatting
    are external services, passed in as functions; `Date.now()` is the
    parameter `createdAt`. */
module ReportService {
  import opened Js

  const MAX_RESULTS: nat := 1000

  datatype Issue = Issue(key: string)

  datatype User = User(accountId: string)

  /** A team; `users` is None when the field is missing. */
  datatype Team = Team(name: string, users: Option<seq<User>>)

  /** One key of the `issues` object and the issues stored under it. */
  datatype Entry = Entry(category: string, issues: seq<Issue>)

  /** The `addReport` argument. Empty strings stand for missing or falsy
      fields; `statusCategories` is None when it is not an array. */
  datatype ReportParams = ReportParams(teamId: string, startDate: string, endDate: string,
                                       statusCategories: Option<seq<string>>)

  /** The record handed to `createReport`; `issues` is the issues object as
      a list of entries in insertion order. A JavaScript object departs from
      that for integer-like keys (listed first) and for "__proto__" (which
      sets the prototype instead of adding an entry); neither is modelled. */
  datatype ReportData = ReportData(teamId: string, teamName: string, startDate: string, endDate: string,
                                   statusCategories: seq<string>, createdAt: int, issues: seq<Entry>)

  datatype SavedReport = SavedReport(id: string, name: string)

  datatype ReportSummary = ReportSummary(reportId: string, reportName: string, teamId: string, issueCount: nat)

  datatype AddReportResult = AddReportResult(success: bool, message: string, data: ReportSummary)

  /** The external services: `findTeamById`, `searchIssues(jql, {maxResults})`,
      `createReport(name, data)` and date-fns `format(date, 'dd MMM yyyy')`. */
  datatype Services = Services(findTeamById: string -> Option<Team>,
                               searchIssues: (string, nat) -> seq<Issue>,
                               createReport: (string, ReportData) -> SavedReport,
                               formatDate: int -> string)

  // ---------------------------------------------------------------------------
  // searchUserIssues

  const IdsMessage: string := "atlassian_ids must be a non-empty array"
  const CategoryMessage: string := "status_category must be a non-empty string"

  function AssigneeClause(id: string): string {
    "assignee = \"" + id + "\""
  }

  /** The JQL text: the assignee clauses joined by ' OR ' in parentheses,
      then the status category and the two date bounds. */
  function Jql(ids: seq<string>, statusCategory: string, startDate: string, endDate: string): string {
    "(" + Join(Map(ids, AssigneeClause), " OR ") + ") AND statusCategory = \"" + statusCategory
    + "\" AND statusCategoryChangedDate >= \"" + startDate
    + "\" AND statusCategoryChangedDate <= \"" + endDate + "\""
  }

  /** The status category is read back from the JQL: two queries over the
      same assignees and dates are equal only for the same category, so each
      distinct category is a distinct search. */
  lemma JqlDeterminesCategory(ids: seq<string>, c1: string, c2: string, startDate: string, endDate: string)
    requires Jql(ids, c1, startDate, endDate) == Jql(ids, c2, startDate, endDate)
    ensures c1 == c2
  {
    var prefix := "(" + Join(Map(ids, AssigneeClause), " OR ") + ") AND statusCategory = \"";
    var suffix := "\" AND statusCategoryChangedDate >= \"" + startDate
                  + "\" AND statusCategoryChangedDate <= \"" + endDate + "\"";
    JqlSplits(ids, c1, startDate, endDate, prefix, suffix);
    JqlSplits(ids, c2, startDate, endDate, prefix, suffix);
    MiddleDetermined(prefix, c1, c2, suffix);
  }

  /** The JQL is the text before the category, the category, and the text
      after it. */
  lemma JqlSplits(ids: seq<string>, c: string, startDate: string, endDate: string, prefix: string, suffix: string)
    requires prefix == "(" + Join(Map(ids, AssigneeClause), " OR ") + ") AND statusCategory = \""
    requires suffix == "\" AND statusCategoryChangedDate >= \"" + startDate
                       + "\" AND statusCategoryChangedDate <= \"" + endDate + "\""
    ensures Jql(ids, c, startDate, endDate) == prefix + c + suffix
  {
  }

  lemma MiddleDetermined(prefix: string, a: string, b: string, suffix: string)
    requires prefix + a + suffix == prefix + b + suffix
    ensures a == b
  {
    assert a == (prefix + a + suffix)[|prefix|..|prefix| + |a|];
    assert b == (prefix + b + suffix)[|prefix|..|prefix| + |b|];
  }

  /** `searchUserIssues(atlassianIds, statusCategory, startDate, endDate)`;
      `atlassianIds` is None when it is not an array. The ids are checked
      before the category. */
  function SearchUserIssues(atlassianIds: Option<seq<string>>, statusCategory: string,
                            startDate: string, endDate: string,
                            searchIssues: (string, nat) -> seq<Issue>): (r: Result<seq<Issue>>)
    ensures atlassianIds.None? || atlassianIds.value == [] ==> r == Err(IdsMessage)
    ensures atlassianIds.Some? && atlassianIds.value != [] && statusCategory == [] ==> r == Err(CategoryMessage)
    ensures r.Ok? <==> atlassianIds.Some? && atlassianIds.value != [] && statusCategory != []
    ensures r.Ok? ==> r.value == searchIssues(Jql(atlassianIds.value, statusCategory, startDate, endDate), MAX_RESULTS)
  {
    if atlassianIds.None? || |atlassianIds.value| == 0 then Err(IdsMessage)
    else if statusCategory == [] then Err(CategoryMessage)
    else Ok(searchIssues(Jql(atlassianIds.value, statusCategory, startDate, endDate), MAX_RESULTS))
  }

  // ---------------------------------------------------------------------------
  // The `issues` object

  function Keys(t: seq<Entry>): (ks: seq<string>)
    ensures |ks| == |t| && forall i :: 0 <= i < |t| ==> ks[i] == t[i].category
  {
    seq(|t|, i requires 0 <= i < |t| => t[i].category)
  }

  predicate Distinct(ks: seq<string>) {
    forall i, j :: 0 <= i < j < |ks| ==> ks[i] != ks[j]
  }

  function IsKey(key: string): string -> bool {
    (k: string) => k == key
  }

  /** `issues[key] = value`: a key already present keeps its place and gets
      the new value; a new key goes last. */
  function Assign(t: seq<Entry>, key: string, value: seq<Issue>): seq<Entry> {
    var i := FindIndex(Keys(t), IsKey(key));
    if i == -1 then t + [Entry(key, value)] else t[i := Entry(key, value)]
  }

  /** Assigning to a present key keeps the keys as they are; a new key is
      added last. */
  lemma AssignKeys(t: seq<Entry>, key: string, value: seq<Issue>)
    ensures Keys(Assign(t, key, value)) == if key in Keys(t) then Keys(t) else Keys(t) + [key]
  {
    var i := FindIndex(Keys(t), IsKey(key));
    if i == -1 {
      assert key !in Keys(t) by {
        forall k | 0 <= k < |Keys(t)| ensures Keys(t)[k] != key {
          assert !IsKey(key)(Keys(t)[k]);
        }
      }
    } else {
      assert IsKey(key)(Keys(t)[i]);
      assert Keys(t)[i] == key;
    }
  }

  /** With distinct keys, assigning replaces the value under the key and
      leaves every other entry's issues alone. */
  lemma AssignValues(t: seq<Entry>, key: string, value: seq<Issue>)
    requires Distinct(Keys(t))
    ensures var r := Assign(t, key, value);
            forall i :: 0 <= i < |t| ==> r[i].issues == if t[i].category == key then value else t[i].issues
    ensures key !in Keys(t) ==> Assign(t, key, value)[|t|] == Entry(key, value)
  {
    var i := FindIndex(Keys(t), IsKey(key));
    if i != -1 {
      assert IsKey(key)(Keys(t)[i]);
      forall j | 0 <= j < |t| && j != i ensures t[j].category != key {
        assert Keys(t)[j] != Keys(t)[i];
      }
    }
    AssignKeys(t, key, value);
  }

  /** Assignment keeps the keys distinct. */
  lemma AssignDistinct(t: seq<Entry>, key: string, value: seq<Issue>)
    requires Distinct(Keys(t))
    ensures Distinct(Keys(Assign(t, key, value)))
  {
    AssignKeys(t, key, value);
  }

  /** `Object.values(issues).reduce((sum, issues) => sum + issues.length, 0)` */
  function IssueCount(t: seq<Entry>): nat {
    if t == [] then 0 else |t[0].issues| + IssueCount(t[1..])
  }

  /** The categories in order of first appearance. */
  function FirstOccurrences(categories: seq<string>): (ks: seq<string>)
    ensures Distinct(ks)
    ensures forall c :: c in ks <==> c in categories
    ensures |ks| <= |categories|
  {
    if categories == [] then []
    else
      var before := FirstOccurrences(categories[..|categories| - 1]);
      var c := categories[|categories| - 1];
      assert categories == categories[..|categories| - 1] + [c];
      if c in before then before else before + [c]
  }

  // ---------------------------------------------------------------------------
  // The loop over status categories

  /** What every search of one report shares. */
  datatype Query = Query(ids: seq<string>, startDate: string, endDate: string,
                         searchIssues: (string, nat) -> seq<Issue>)

  function SearchFor(q: Query, category: string): seq<Issue> {
    q.searchIssues(Jql(q.ids, category, q.startDate, q.endDate), MAX_RESULTS)
  }

  /** The `issues` object after the loop over `categories`, or the message the
      first failing search throws: the loop fails exactly when there are no
      ids or a category is empty. */
  function IssuesFor(q: Query, categories: seq<string>): (r: Result<seq<Entry>>)
    ensures r.Ok? <==> forall k :: 0 <= k < |categories| ==> q.ids != [] && categories[k] != []
    ensures r.Err? ==> r == Err(if q.ids == [] then IdsMessage else CategoryMessage)
  {
    if categories == [] then Ok([])
    else
      var init := categories[..|categories| - 1];
      var c := categories[|categories| - 1];
      assert forall k :: 0 <= k < |init| ==> init[k] == categories[k];
      match IssuesFor(q, init)
      case Err(m) => Err(m)
      case Ok(t) =>
        match SearchUserIssues(Some(q.ids), c, q.startDate, q.endDate, q.searchIssues)
        case Err(m) => Err(m)
        case Ok(found) => Ok(Assign(t, c, found))
  }

  /** One more turn of the loop: the search for the next category either
      throws, and then the whole loop throws the same message, or its result
      is assigned under that category. */
  lemma IssuesForStep(q: Query, categories: seq<string>, i: nat, issues: seq<Entry>)
    requires i < |categories| && IssuesFor(q, categories[..i]) == Ok(issues)
    ensures var found := SearchUserIssues(Some(q.ids), categories[i], q.startDate, q.endDate, q.searchIssues);
            && (found.Ok? ==> IssuesFor(q, categories[..i + 1]) == Ok(Assign(issues, categories[i], found.value)))
            && (found.Err? ==> IssuesFor(q, categories) == Err(found.message))
  {
    assert categories[..i + 1][..i] == categories[..i];
  }

  /** The keys after the loop are the distinct categories in order of first
      appearance, and each holds its own category's search. */
  lemma {:induction false} IssuesForEntries(q: Query, categories: seq<string>)
    requires IssuesFor(q, categories).Ok?
    ensures var t := IssuesFor(q, categories).value;
            && Keys(t) == FirstOccurrences(categories)
            && forall i :: 0 <= i < |t| ==> t[i].issues == SearchFor(q, t[i].category)
  {
    if categories != [] {
      var init := categories[..|categories| - 1];
      var c := categories[|categories| - 1];
      var t := IssuesFor(q, init).value;
      IssuesForEntries(q, init);
      var found := SearchFor(q, c);
      assert IssuesFor(q, categories) == Ok(Assign(t, c, found));
      AssignKeys(t, c, found);
      AssignValues(t, c, found);
    }
  }

  function SumSearched(q: Query, ks: seq<string>): nat {
    if ks == [] then 0 else |SearchFor(q, ks[0])| + SumSearched(q, ks[1..])
  }

  lemma {:induction false} CountMatchesSearches(q: Query, t: seq<Entry>)
    requires forall i :: 0 <= i < |t| ==> t[i].issues == SearchFor(q, t[i].category)
    ensures IssueCount(t) == SumSearched(q, Keys(t))
  {
    if t != [] {
      assert Keys(t)[1..] == Keys(t[1..]);
      CountMatchesSearches(q, t[1..]);
    }
  }

  /** issueCount counts each distinct category's search once: a repeated
      category overwrites its entry instead of adding another. */
  lemma IssueCountOverDistinctCategories(q: Query, categories: seq<string>)
    requires IssuesFor(q, categories).Ok?
    ensures IssueCount(IssuesFor(q, categories).value) == SumSearched(q, FirstOccurrences(categories))
  {
    IssuesForEntries(q, categories);
    CountMatchesSearches(q, IssuesFor(q, categories).value);
  }

  // ---------------------------------------------------------------------------
  // addReport

  /** The guards of addReport, in source order: team id, dates, status
      categories, the team lookup, and the team's users. */
  function CheckReportParams(params: ReportParams, findTeamById: string -> Option<Team>): (r: Result<Team>)
    ensures params.teamId == [] ==> r == Err("teamId is required")
    ensures params.teamId != [] && (params.startDate == [] || params.endDate == []) ==>
              r == Err("startDate and endDate are required")
    ensures params.teamId != [] && params.startDate != [] && params.endDate != []
            && (params.statusCategories.None? || params.statusCategories.value == []) ==>
              r == Err("statusCategories must be a non-empty array")
    ensures r.Ok? <==> params.teamId != [] && params.startDate != [] && params.endDate != []
                       && params.statusCategories.Some? && params.statusCategories.value != []
                       && findTeamById(params.teamId).Some?
                       && findTeamById(params.teamId).value.users.Some?
                       && findTeamById(params.teamId).value.users.value != []
    ensures r.Ok? ==> r.value == findTeamById(params.teamId).value
    ensures params.teamId != [] && params.startDate != [] && params.endDate != []
            && params.statusCategories.Some? && params.statusCategories.value != []
            && findTeamById(params.teamId).None? ==>
              r == Err("Team not found: " + params.teamId)
    ensures params.teamId != [] && params.startDate != [] && params.endDate != []
            && params.statusCategories.Some? && params.statusCategories.value != []
            && findTeamById(params.teamId).Some?
            && (findTeamById(params.teamId).value.users.None? || findTeamById(params.teamId).value.users.value == []) ==>
              r == Err("Team has no users")
  {
    if params.teamId == [] then Err("teamId is required")
    else if params.startDate == [] || params.endDate == [] then Err("startDate and endDate are required")
    else if params.statusCategories.None? || |params.statusCategories.value| == 0 then
      Err("statusCategories must be a non-empty array")
    else
      match findTeamById(params.teamId)
      case None => Err("Team not found: " + params.teamId)
      case Some(team) =>
        if team.users.None? || |team.users.value| == 0 then Err("Team has no users") else Ok(team)
  }

  function AccountId(u: User): string {
    u.accountId
  }

  /** `formatReportName(teamName, date)` with the date already formatted. */
  function ReportName(teamName: string, formattedDate: string): string {
    teamName + " " + formattedDate
  }

  /** The searches of a checked report: the team's account ids, the dates. */
  function QueryFor(params: ReportParams, team: Team, searchIssues: (string, nat) -> seq<Issue>): Query
    requires team.users.Some?
  {
    Query(Map(team.users.value, AccountId), params.startDate, params.endDate, searchIssues)
  }

  /** What addReport returns or throws. */
  function AddReportOutcome(params: ReportParams, services: Services, createdAt: int): (r: Result<AddReportResult>)
    ensures CheckReportParams(params, services.findTeamById).Err? ==>
              r == Err(CheckReportParams(params, services.findTeamById).message)
    ensures r.Ok? ==> r.value.success && r.value.message == "Report created successfully"
    ensures r.Ok? ==> r.value.data.teamId == params.teamId
  {
    match CheckReportParams(params, services.findTeamById)
    case Err(m) => Err(m)
    case Ok(team) =>
      match IssuesFor(QueryFor(params, team, services.searchIssues), params.statusCategories.value)
      case Err(m) => Err(m)
      case Ok(issues) =>
        var data := ReportData(params.teamId, team.name, params.startDate, params.endDate,
                               params.statusCategories.value, createdAt, issues);
        var saved := services.createReport(ReportName(team.name, services.formatDate(createdAt)), data);
        Ok(AddReportResult(true, "Report created successfully",
                           ReportSummary(saved.id, saved.name, params.teamId, IssueCount(issues))))
  }

  /** Once the parameters pass, the report is created exactly when no status
      category is empty, and its issue count is the sum over the distinct
      categories of their search sizes. */
  lemma AddReportSucceeds(params: ReportParams, services: Services, createdAt: int)
    requires CheckReportParams(params, services.findTeamById).Ok?
    ensures var team := CheckReportParams(params, services.findTeamById).value;
            var categories := params.statusCategories.value;
            var r := AddReportOutcome(params, services, createdAt);
            && (r.Ok? <==> forall k :: 0 <= k < |categories| ==> categories[k] != [])
            && (r.Err? ==> r == Err(CategoryMessage))
            && (r.Ok? ==> r.value.data.issueCount
                            == SumSearched(QueryFor(params, team, services.searchIssues), FirstOccurrences(categories)))
  {
    var team := CheckReportParams(params, services.findTeamById).value;
    var q := QueryFor(params, team, services.searchIssues);
    assert q.ids != [];
    if IssuesFor(q, params.statusCategories.value).Ok? {
      IssueCountOverDistinctCategories(q, params.statusCategories.value);
    }
  }

  /** `addReport(params)` as written, with its guards inline and the loop
      filling the `issues` object. */
  method AddReport(params: ReportParams, services: Services, createdAt: int) returns (r: Result<AddReportResult>)
    ensures r == AddReportOutcome(params, services, createdAt)
  {
    if params.teamId == [] {
      return Err("teamId is required");
    }
    if params.startDate == [] || params.endDate == [] {
      return Err("startDate and endDate are required");
    }
    if params.statusCategories.None? || |params.statusCategories.value| == 0 {
      return Err("statusCategories must be a non-empty array");
    }
    var found := services.findTeamById(params.teamId);
    if found.None? {
      return Err("Team not found: " + params.teamId);
    }
    var team := found.value;
    if team.users.None? || |team.users.value| == 0 {
      return Err("Team has no users");
    }
    assert CheckReportParams(params, services.findTeamById) == Ok(team);
    var atlassianIds := Map(team.users.value, AccountId);
    var categories := params.statusCategories.value;
    ghost var q := QueryFor(params, team, services.searchIssues);
    var issues: seq<Entry> := [];
    var i := 0;
    while i < |categories|
      invariant 0 <= i <= |categories|
      invariant IssuesFor(q, categories[..i]) == Ok(issues)
    {
      IssuesForStep(q, categories, i, issues);
      var result := SearchUserIssues(Some(atlassianIds), categories[i], params.startDate, params.endDate,
                                     services.searchIssues);
      if result.Err? {
        return Err(result.message);
      }
      issues := Assign(issues, categories[i], result.value);
      i := i + 1;
    }
    assert categories[..i] == categories;
    var reportData := ReportData(params.teamId, team.name, params.startDate, params.endDate,
                                 categories, createdAt, issues);
    var savedReport := services.createReport(ReportName(team.name, services.formatDate(createdAt)), reportData);
    return Ok(AddReportResult(true, "Report created successfully",
                              ReportSummary(savedReport.id, savedReport.name, params.teamId, IssueCount(issues))));
  }
}
