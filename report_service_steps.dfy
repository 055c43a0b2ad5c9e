/** The same report service with addReport split into steps:
    validateReportParams returns the team, buildReportData runs the loop, and
    issueCount is computed afterwards. Each step is specified by the
    one-function version's definitions, so both return or throw the same. */
module ReportServiceSteps {
  import opened Js
  import opened ReportService

  /** `searchUserIssues` as this file writes it, the same text as the
      one-function version. */
  function SearchUserIssuesSteps(atlassianIds: Option<seq<string>>, statusCategory: string,
                                 startDate: string, endDate: string,
                                 searchIssues: (string, nat) -> seq<Issue>): (r: Result<seq<Issue>>)
    ensures r == SearchUserIssues(atlassianIds, statusCategory, startDate, endDate, searchIssues)
  {
    if atlassianIds.None? || |atlassianIds.value| == 0 then
      Err("atlassian_ids must be a non-empty array")
    else if statusCategory == [] then
      Err("status_category must be a non-empty string")
    else
      var assigneeConditions := Join(Map(atlassianIds.value, AssigneeClause), " OR ");
      var jql := "(" + assigneeConditions + ") AND statusCategory = \"" + statusCategory
                 + "\" AND statusCategoryChangedDate >= \"" + startDate
                 + "\" AND statusCategoryChangedDate <= \"" + endDate + "\"";
      Ok(searchIssues(jql, 1000))
  }

  /** `validateReportParams()`: the guards in the same order, returning the
      team. */
  method ValidateReportParams(params: ReportParams, findTeamById: string -> Option<Team>)
    returns (r: Result<Team>)
    ensures r == CheckReportParams(params, findTeamById)
  {
    if params.teamId == [] {
      return Err("teamId is required");
    }
    if params.startDate == [] || params.endDate == [] {
      return Err("startDate and endDate are required");
    }
    if params.statusCategories.None? || |params.statusCategories.value| == 0 {
      return Err("statusCategories must be a non-empty array");
    }
    var team := findTeamById(params.teamId);
    if team.None? {
      return Err("Team not found: " + params.teamId);
    }
    if team.value.users.None? || |team.value.users.value| == 0 {
      return Err("Team has no users");
    }
    return Ok(team.value);
  }

  /** `buildReportData(team)`: one search per category, in order, stored under
      the category. */
  method BuildReportData(params: ReportParams, team: Team, searchIssues: (string, nat) -> seq<Issue>, createdAt: int)
    returns (r: Result<ReportData>)
    requires team.users.Some? && params.statusCategories.Some?
    ensures var issues := IssuesFor(QueryFor(params, team, searchIssues), params.statusCategories.value);
            && (r.Ok? <==> issues.Ok?)
            && (r.Err? ==> r.message == issues.message)
            && (r.Ok? ==> r.value == ReportData(params.teamId, team.name, params.startDate, params.endDate,
                                                params.statusCategories.value, createdAt, issues.value))
  {
    var atlassianIds := Map(team.users.value, AccountId);
    var categories := params.statusCategories.value;
    ghost var q := QueryFor(params, team, searchIssues);
    var issues: seq<Entry> := [];
    for i := 0 to |categories|
      invariant IssuesFor(q, categories[..i]) == Ok(issues)
    {
      IssuesForStep(q, categories, i, issues);
      var found := SearchUserIssuesSteps(Some(atlassianIds), categories[i], params.startDate, params.endDate,
                                         searchIssues);
      if found.Err? {
        return Err(found.message);
      }
      issues := Assign(issues, categories[i], found.value);
    }
    assert categories[..|categories|] == categories;
    return Ok(ReportData(params.teamId, team.name, params.startDate, params.endDate,
                         categories, createdAt, issues));
  }

  /** `addReport(params)` built from the steps: it returns or throws exactly
      what the one-function version does. */
  method AddReportSteps(params: ReportParams, services: Services, createdAt: int) returns (r: Result<AddReportResult>)
    ensures r == AddReportOutcome(params, services, createdAt)
  {
    var team := ValidateReportParams(params, services.findTeamById);
    if team.Err? {
      return Err(team.message);
    }
    var reportData := BuildReportData(params, team.value, services.searchIssues, createdAt);
    if reportData.Err? {
      return Err(reportData.message);
    }
    var savedReport := services.createReport(ReportName(team.value.name, services.formatDate(createdAt)),
                                             reportData.value);
    var issueCount := IssueCount(reportData.value.issues);
    return Ok(AddReportResult(true, "Report created successfully",
                              ReportSummary(savedReport.id, savedReport.name, params.teamId, issueCount)));
  }
}
