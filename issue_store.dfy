/**
 * The issue store: the loaded issues, the selected issue, loading and error
 * flags, pagination counters and seven filters; the Kanban and priority
 * subsets and the filtered list; the query parameters a fetch sends; and the
 * actions, each given the outcome of its API call.
 * The seven filter refs are kept together in one `IssueFilters` value.
 */
module IssueStore {
  import opened Wrappers
  import opened Text
  import opened JsValues
  import opened ListPatch
  import opened Models
  import opened StoreQuery

  datatype IssueFilters = IssueFilters(
    search: string,
    status: string,
    priority: string,
    issueType: string,
    project: Option<int>,
    sprint: Option<int>,
    assignee: Option<int>)

  /** The filters `clearFilters` restores. */
  const NoFilters := IssueFilters("", "", "", "", None, None, None)

  /** The search test: the title, or the description when there is one, contains the lowercased query. */
  predicate SearchHit(i: Issue, query: string) {
    Contains(Lower(i.title), query) || (i.description.Some? && Contains(Lower(i.description.value), query))
  }

  /** `projectFilter.value` is truthy: set and not 0. */
  predicate ProjectSet(f: IssueFilters) { f.project.Some? && f.project.value != 0 }

  /** The tests of the getter's stages. */
  function SearchTest(f: IssueFilters): Issue -> bool { (i: Issue) => SearchHit(i, Lower(f.search)) }
  function StatusTest(f: IssueFilters): Issue -> bool { (i: Issue) => i.status == f.status }
  function PriorityTest(f: IssueFilters): Issue -> bool { (i: Issue) => i.priority == f.priority }
  function TypeTest(f: IssueFilters): Issue -> bool { (i: Issue) => i.issueType == f.issueType }
  function ProjectTest(f: IssueFilters): Issue -> bool { (i: Issue) => Some(i.projectId) == f.project }
  function SprintTest(f: IssueFilters): Issue -> bool { (i: Issue) => i.sprintId == f.sprint }
  function AssigneeTest(f: IssueFilters): Issue -> bool { (i: Issue) => i.assigneeId == f.assignee }

  /** `filteredIssues`, stage by stage as the getter narrows it. */
  function FilteredIssues(issues: seq<Issue>, f: IssueFilters): seq<Issue> {
    var s1 := Stage(issues, f.search != "", SearchTest(f));
    var s2 := Stage(s1, f.status != "", StatusTest(f));
    var s3 := Stage(s2, f.priority != "", PriorityTest(f));
    var s4 := Stage(s3, f.issueType != "", TypeTest(f));
    var s5 := Stage(s4, ProjectSet(f), ProjectTest(f));
    var s6 := Stage(s5, f.sprint.Some?, SprintTest(f));
    Stage(s6, f.assignee.Some?, AssigneeTest(f))
  }

  /** An issue passes the first `n` of the getter's seven stages. */
  predicate PassesFirst(f: IssueFilters, i: Issue, n: nat) {
    && (n >= 1 ==> f.search == "" || SearchHit(i, Lower(f.search)))
    && (n >= 2 ==> f.status == "" || i.status == f.status)
    && (n >= 3 ==> f.priority == "" || i.priority == f.priority)
    && (n >= 4 ==> f.issueType == "" || i.issueType == f.issueType)
    && (n >= 5 ==> !ProjectSet(f) || Some(i.projectId) == f.project)
    && (n >= 6 ==> f.sprint.None? || i.sprintId == f.sprint)
    && (n >= 7 ==> f.assignee.None? || i.assigneeId == f.assignee)
  }

  function PassesTest(f: IssueFilters, n: nat): Issue -> bool { (i: Issue) => PassesFirst(f, i, n) }

  /** An issue passes every active filter; empty strings and null filters are inactive, and project 0 is inactive. */
  predicate Matches(f: IssueFilters, i: Issue) {
    && (f.search == "" || SearchHit(i, Lower(f.search)))
    && (f.status == "" || i.status == f.status)
    && (f.priority == "" || i.priority == f.priority)
    && (f.issueType == "" || i.issueType == f.issueType)
    && (!ProjectSet(f) || Some(i.projectId) == f.project)
    && (f.sprint.None? || i.sprintId == f.sprint)
    && (f.assignee.None? || i.assigneeId == f.assignee)
  }

  function MatchesTest(f: IssueFilters): Issue -> bool { (i: Issue) => Matches(f, i) }

  /** The first four stages keep the issues passing the first four tests. */
  lemma FirstFourStages(issues: seq<Issue>, f: IssueFilters)
    ensures Stage(Stage(Stage(Stage(issues, f.search != "", SearchTest(f)), f.status != "", StatusTest(f)),
                        f.priority != "", PriorityTest(f)), f.issueType != "", TypeTest(f))
            == Keep(issues, PassesTest(f, 4))
  {
    var s1 := Stage(issues, f.search != "", SearchTest(f));
    assert s1 == Keep(issues, PassesTest(f, 1)) by { StageFirst(issues, f.search != "", SearchTest(f), PassesTest(f, 1)); }
    var s2 := Stage(s1, f.status != "", StatusTest(f));
    assert s2 == Keep(issues, PassesTest(f, 2)) by { StageAfterKeep(issues, PassesTest(f, 1), f.status != "", StatusTest(f), PassesTest(f, 2)); }
    var s3 := Stage(s2, f.priority != "", PriorityTest(f));
    assert s3 == Keep(issues, PassesTest(f, 3)) by { StageAfterKeep(issues, PassesTest(f, 2), f.priority != "", PriorityTest(f), PassesTest(f, 3)); }
    StageAfterKeep(issues, PassesTest(f, 3), f.issueType != "", TypeTest(f), PassesTest(f, 4));
  }

  /** The last three stages, after the first four, keep the issues passing all seven tests. */
  lemma LastThreeStages(issues: seq<Issue>, f: IssueFilters)
    ensures Stage(Stage(Stage(Keep(issues, PassesTest(f, 4)), ProjectSet(f), ProjectTest(f)),
                        f.sprint.Some?, SprintTest(f)), f.assignee.Some?, AssigneeTest(f))
            == Keep(issues, PassesTest(f, 7))
  {
    var s5 := Stage(Keep(issues, PassesTest(f, 4)), ProjectSet(f), ProjectTest(f));
    assert s5 == Keep(issues, PassesTest(f, 5)) by { StageAfterKeep(issues, PassesTest(f, 4), ProjectSet(f), ProjectTest(f), PassesTest(f, 5)); }
    var s6 := Stage(s5, f.sprint.Some?, SprintTest(f));
    assert s6 == Keep(issues, PassesTest(f, 6)) by { StageAfterKeep(issues, PassesTest(f, 5), f.sprint.Some?, SprintTest(f), PassesTest(f, 6)); }
    StageAfterKeep(issues, PassesTest(f, 6), f.assignee.Some?, AssigneeTest(f), PassesTest(f, 7));
  }

  /** The staged getter keeps, in order, exactly the issues that pass every active filter. */
  lemma FilteredIssuesExactly(issues: seq<Issue>, f: IssueFilters)
    ensures FilteredIssues(issues, f) == Keep(issues, MatchesTest(f))
  {
    var s4 := Keep(issues, PassesTest(f, 4));
    assert FilteredIssues(issues, f)
      == Stage(Stage(Stage(s4, ProjectSet(f), ProjectTest(f)), f.sprint.Some?, SprintTest(f)), f.assignee.Some?, AssigneeTest(f))
    by {
      FirstFourStages(issues, f);
    }
    LastThreeStages(issues, f);
    PassingAllMatches(f);
    KeepExtensional(issues, PassesTest(f, 7), MatchesTest(f));
  }

  /** Passing all seven stages is matching every active filter. */
  lemma PassingAllMatches(f: IssueFilters)
    ensures forall x :: PassesTest(f, 7)(x) == MatchesTest(f)(x)
  {
  }

  /** The issues with a given status, in list order. */
  function WithStatus(issues: seq<Issue>, status: string): (r: seq<Issue>)
    ensures forall i :: 0 <= i < |r| ==> r[i].status == status
    ensures forall i :: 0 <= i < |issues| && issues[i].status == status ==> issues[i] in r
  {
    Keep(issues, (i: Issue) => i.status == status)
  }

  /** The issues with a given priority (`urgentIssues`, `highPriorityIssues`). */
  function WithPriority(issues: seq<Issue>, priority: string): (r: seq<Issue>)
    ensures forall i :: 0 <= i < |r| ==> r[i].priority == priority
    ensures forall i :: 0 <= i < |issues| && issues[i].priority == priority ==> issues[i] in r
  {
    Keep(issues, (i: Issue) => i.priority == priority)
  }

  /** The issues of a given type (`epicIssues`, `bugIssues`). */
  function WithType(issues: seq<Issue>, issueType: string): (r: seq<Issue>)
    ensures forall i :: 0 <= i < |r| ==> r[i].issueType == issueType
    ensures forall i :: 0 <= i < |issues| && issues[i].issueType == issueType ==> issues[i] in r
  {
    Keep(issues, (i: Issue) => i.issueType == issueType)
  }

  /** `issuesByStatus`, the Kanban columns. */
  datatype StatusGroups = StatusGroups(
    todo: seq<Issue>,
    inProgress: seq<Issue>,
    inReview: seq<Issue>,
    testing: seq<Issue>,
    done: seq<Issue>,
    closed: seq<Issue>)

  const Statuses: set<string> := {"todo", "in_progress", "in_review", "testing", "done", "closed"}

  function IssuesByStatus(issues: seq<Issue>): StatusGroups {
    StatusGroups(
      WithStatus(issues, "todo"),
      WithStatus(issues, "in_progress"),
      WithStatus(issues, "in_review"),
      WithStatus(issues, "testing"),
      WithStatus(issues, "done"),
      WithStatus(issues, "closed"))
  }

  function GroupsSize(g: StatusGroups): int {
    |g.todo| + |g.inProgress| + |g.inReview| + |g.testing| + |g.done| + |g.closed|
  }

  /** Every issue whose status is one of the six lands in exactly one column, so the columns hold every issue once. */
  lemma {:induction false} IssuesByStatusPartition(issues: seq<Issue>)
    requires forall k :: 0 <= k < |issues| ==> issues[k].status in Statuses
    ensures GroupsSize(IssuesByStatus(issues)) == |issues|
  {
    if |issues| > 0 {
      IssuesByStatusPartition(issues[1..]);
    }
  }

  /** The keys a set filter writes. */
  const FilterKeys: set<string> := {"search", "status", "priority", "type", "project_id", "sprint_id", "assignee_id"}

  /** Whether `fetchIssues` assigns a filter key: the string filters and the project when truthy, sprint and assignee when not null. */
  predicate FilterSet(f: IssueFilters, key: string) {
    if key == "search" then f.search != ""
    else if key == "status" then f.status != ""
    else if key == "priority" then f.priority != ""
    else if key == "type" then f.issueType != ""
    else if key == "project_id" then ProjectSet(f)
    else if key == "sprint_id" then f.sprint.Some?
    else if key == "assignee_id" then f.assignee.Some?
    else false
  }

  /** The value `fetchIssues` assigns to a filter key. */
  function FilterValue(f: IssueFilters, key: string): Value {
    if key == "search" then Str(f.search)
    else if key == "status" then Str(f.status)
    else if key == "priority" then Str(f.priority)
    else if key == "type" then Str(f.issueType)
    else if key == "project_id" then Num(if f.project.Some? then f.project.value else 0)
    else if key == "sprint_id" then Num(if f.sprint.Some? then f.sprint.value else 0)
    else Num(if f.assignee.Some? then f.assignee.value else 0)
  }

  /** The assignments `fetchIssues` makes after spreading the caller's params, one per set filter. */
  function FilterLayer(f: IssueFilters): (m: map<string, Value>)
    ensures m.Keys <= FilterKeys
    ensures forall k :: k in m <==> k in FilterKeys && FilterSet(f, k)
  {
    map k | k in FilterKeys && FilterSet(f, k) :: FilterValue(f, k)
  }

  /** The parameters `fetchIssues` sends. */
  function IssueQueryParams(currentPage: int, pageSize: int, params: map<string, Value>, f: IssueFilters): map<string, Value> {
    QueryParams(currentPage, pageSize, params, FilterLayer(f))
  }

  /**
   * Every set filter sends its own value, an unset filter leaves its key to
   * the caller, and the store's page and size are sent unless the caller
   * gives them.
   */
  lemma IssueQueryParamsLayers(currentPage: int, pageSize: int, params: map<string, Value>, f: IssueFilters)
    ensures var r := IssueQueryParams(currentPage, pageSize, params, f);
      && (f.search != "" ==> r["search"] == Str(f.search))
      && (f.status != "" ==> r["status"] == Str(f.status))
      && (f.priority != "" ==> r["priority"] == Str(f.priority))
      && (f.issueType != "" ==> r["type"] == Str(f.issueType))
      && (ProjectSet(f) ==> r["project_id"] == Num(f.project.value))
      && (f.sprint.Some? ==> r["sprint_id"] == Num(f.sprint.value))
      && (f.assignee.Some? ==> r["assignee_id"] == Num(f.assignee.value))
    ensures var r := IssueQueryParams(currentPage, pageSize, params, f);
      && (f.search == "" ==> ("search" in r <==> "search" in params))
      && (!ProjectSet(f) ==> ("project_id" in r <==> "project_id" in params))
      && (f.sprint.None? ==> ("sprint_id" in r <==> "sprint_id" in params))
      && (f.assignee.None? ==> ("assignee_id" in r <==> "assignee_id" in params))
    ensures var r := IssueQueryParams(currentPage, pageSize, params, f);
      && ("page" !in params ==> r["page"] == Num(currentPage))
      && ("size" !in params ==> r["size"] == Num(pageSize))
  {
    FilterLayerEntries(f);
  }

  /** The entries of the filter layer, key by key. */
  lemma FilterLayerEntries(f: IssueFilters)
    ensures var m := FilterLayer(f);
      && (f.search != "" ==> "search" in m && m["search"] == Str(f.search))
      && (f.status != "" ==> "status" in m && m["status"] == Str(f.status))
      && (f.priority != "" ==> "priority" in m && m["priority"] == Str(f.priority))
      && (f.issueType != "" ==> "type" in m && m["type"] == Str(f.issueType))
      && (ProjectSet(f) ==> "project_id" in m && m["project_id"] == Num(f.project.value))
      && (f.sprint.Some? ==> "sprint_id" in m && m["sprint_id"] == Num(f.sprint.value))
      && (f.assignee.Some? ==> "assignee_id" in m && m["assignee_id"] == Num(f.assignee.value))
    ensures var m := FilterLayer(f);
      && (f.search == "" ==> "search" !in m)
      && (!ProjectSet(f) ==> "project_id" !in m)
      && (f.sprint.None? ==> "sprint_id" !in m)
      && (f.assignee.None? ==> "assignee_id" !in m)
      && "page" !in m && "size" !in m
  {
    assert "page" !in FilterKeys && "size" !in FilterKeys;
  }

  class Store {
    var issues: seq<Issue>
    var currentIssue: Option<Issue>
    var isLoading: bool
    var error: Option<string>
    var currentPage: int
    var pageSize: int
    var totalCount: int
    var filters: IssueFilters

    constructor ()
      ensures issues == [] && currentIssue == None && !isLoading && error == None
      ensures currentPage == 1 && pageSize == 20 && totalCount == 0 && filters == NoFilters
    {
      issues := [];
      currentIssue := None;
      isLoading := false;
      error := None;
      currentPage := 1;
      pageSize := 20;
      totalCount := 0;
      filters := NoFilters;
    }

    /** The `queryParams` object `fetchIssues` builds from the store's state. */
    method BuildQueryParams(params: map<string, Value>) returns (sent: map<string, Value>)
      ensures sent == IssueQueryParams(currentPage, pageSize, params, filters)
    {
      sent := IssueQueryParams(currentPage, pageSize, params, filters);
    }

    /** What `fetchIssues` does with the response: items, total, page and size are copied. */
    method ApplyPage(outcome: Api<Paginated<Issue>>) returns (result: Api<Paginated<Issue>>)
      modifies this`issues, this`totalCount, this`currentPage, this`pageSize, this`isLoading, this`error
      ensures result == outcome && !isLoading && error == FailureMessage(outcome, "Failed to fetch issues")
      ensures outcome.Ok? ==> issues == outcome.value.items && totalCount == outcome.value.total
      ensures outcome.Ok? ==> currentPage == outcome.value.page && pageSize == outcome.value.size
      ensures outcome.Err? ==> issues == old(issues) && totalCount == old(totalCount)
      ensures outcome.Err? ==> currentPage == old(currentPage) && pageSize == old(pageSize)
    {
      isLoading := true;
      error := None;
      match outcome {
        case Ok(response) =>
          issues := response.items;
          totalCount := response.total;
          currentPage := response.page;
          pageSize := response.size;
        case Err(thrown) =>
          error := Some(ErrorMessage(thrown, "Failed to fetch issues"));
      }
      isLoading := false;
      result := outcome;
    }

    /** `fetchIssues(params)`: sends the layered parameters and copies items, total, page and size from the response. */
    method FetchIssues(params: map<string, Value>, outcome: Api<Paginated<Issue>>) returns (sent: map<string, Value>, result: Api<Paginated<Issue>>)
      modifies this`issues, this`totalCount, this`currentPage, this`pageSize, this`isLoading, this`error
      ensures sent == IssueQueryParams(old(currentPage), old(pageSize), params, filters)
      ensures result == outcome && !isLoading && error == FailureMessage(outcome, "Failed to fetch issues")
      ensures outcome.Ok? ==> issues == outcome.value.items && totalCount == outcome.value.total
      ensures outcome.Ok? ==> currentPage == outcome.value.page && pageSize == outcome.value.size
      ensures outcome.Err? ==> issues == old(issues) && totalCount == old(totalCount)
      ensures outcome.Err? ==> currentPage == old(currentPage) && pageSize == old(pageSize)
    {
      sent := BuildQueryParams(params);
      result := ApplyPage(outcome);
    }

    /** `fetchIssue(id)`: the fetched issue becomes the current one. */
    method FetchIssue(id: int, outcome: Api<Issue>) returns (result: Api<Issue>)
      modifies this`currentIssue, this`isLoading, this`error
      ensures result == outcome && !isLoading && error == FailureMessage(outcome, "Failed to fetch issue")
      ensures outcome.Ok? ==> currentIssue == Some(outcome.value)
      ensures outcome.Err? ==> currentIssue == old(currentIssue)
    {
      isLoading := true;
      error := None;
      match outcome {
        case Ok(issue) =>
          currentIssue := Some(issue);
        case Err(thrown) =>
          error := Some(ErrorMessage(thrown, "Failed to fetch issue"));
      }
      isLoading := false;
      result := outcome;
    }

    /** `createIssue(data)`: the new issue goes first and the total grows by one. */
    method CreateIssue(outcome: Api<Issue>) returns (result: Api<Issue>)
      modifies this`issues, this`totalCount, this`isLoading, this`error
      ensures result == outcome && !isLoading && error == FailureMessage(outcome, "Failed to create issue")
      ensures outcome.Ok? ==> issues == [outcome.value] + old(issues) && totalCount == old(totalCount) + 1
      ensures outcome.Err? ==> issues == old(issues) && totalCount == old(totalCount)
    {
      isLoading := true;
      error := None;
      match outcome {
        case Ok(issue) =>
          issues := [issue] + issues;
          totalCount := totalCount + 1;
        case Err(thrown) =>
          error := Some(ErrorMessage(thrown, "Failed to create issue"));
      }
      isLoading := false;
      result := outcome;
    }

    /**
     * The update shared by `updateIssue`, `updateStatus`, `assignIssue` and
     * `moveToSprint`: the first issue with the id, and the current issue when
     * its id matches, become the returned issue.
     */
    method ApplyUpdate(id: int, outcome: Api<Issue>, fallback: string) returns (result: Api<Issue>)
      modifies this`issues, this`currentIssue, this`isLoading, this`error
      ensures result == outcome && !isLoading && error == FailureMessage(outcome, fallback)
      ensures outcome.Ok? ==> issues == ReplaceFirst(old(issues), IssueId, id, outcome.value)
      ensures outcome.Ok? ==> currentIssue == PatchCurrent(old(currentIssue), IssueId, id, outcome.value)
      ensures outcome.Err? ==> issues == old(issues) && currentIssue == old(currentIssue)
    {
      isLoading := true;
      error := None;
      match outcome {
        case Ok(issue) =>
          issues := ReplaceFirst(issues, IssueId, id, issue);
          currentIssue := PatchCurrent(currentIssue, IssueId, id, issue);
        case Err(thrown) =>
          error := Some(ErrorMessage(thrown, fallback));
      }
      isLoading := false;
      result := outcome;
    }

    /** `updateIssue(id, data)` */
    method UpdateIssue(id: int, outcome: Api<Issue>) returns (result: Api<Issue>)
      modifies this`issues, this`currentIssue, this`isLoading, this`error
      ensures result == outcome && !isLoading && error == FailureMessage(outcome, "Failed to update issue")
      ensures outcome.Ok? ==> issues == ReplaceFirst(old(issues), IssueId, id, outcome.value)
      ensures outcome.Ok? ==> currentIssue == PatchCurrent(old(currentIssue), IssueId, id, outcome.value)
      ensures outcome.Err? ==> issues == old(issues) && currentIssue == old(currentIssue)
    {
      result := ApplyUpdate(id, outcome, "Failed to update issue");
    }

    /** `updateStatus(id, status)` */
    method UpdateStatus(id: int, outcome: Api<Issue>) returns (result: Api<Issue>)
      modifies this`issues, this`currentIssue, this`isLoading, this`error
      ensures result == outcome && !isLoading && error == FailureMessage(outcome, "Failed to update issue status")
      ensures outcome.Ok? ==> issues == ReplaceFirst(old(issues), IssueId, id, outcome.value)
      ensures outcome.Ok? ==> currentIssue == PatchCurrent(old(currentIssue), IssueId, id, outcome.value)
      ensures outcome.Err? ==> issues == old(issues) && currentIssue == old(currentIssue)
    {
      result := ApplyUpdate(id, outcome, "Failed to update issue status");
    }

    /** `assignIssue(id, assigneeId)` */
    method AssignIssue(id: int, outcome: Api<Issue>) returns (result: Api<Issue>)
      modifies this`issues, this`currentIssue, this`isLoading, this`error
      ensures result == outcome && !isLoading && error == FailureMessage(outcome, "Failed to assign issue")
      ensures outcome.Ok? ==> issues == ReplaceFirst(old(issues), IssueId, id, outcome.value)
      ensures outcome.Ok? ==> currentIssue == PatchCurrent(old(currentIssue), IssueId, id, outcome.value)
      ensures outcome.Err? ==> issues == old(issues) && currentIssue == old(currentIssue)
    {
      result := ApplyUpdate(id, outcome, "Failed to assign issue");
    }

    /** `moveToSprint(id, sprintId)` */
    method MoveToSprint(id: int, outcome: Api<Issue>) returns (result: Api<Issue>)
      modifies this`issues, this`currentIssue, this`isLoading, this`error
      ensures result == outcome && !isLoading && error == FailureMessage(outcome, "Failed to move issue to sprint")
      ensures outcome.Ok? ==> issues == ReplaceFirst(old(issues), IssueId, id, outcome.value)
      ensures outcome.Ok? ==> currentIssue == PatchCurrent(old(currentIssue), IssueId, id, outcome.value)
      ensures outcome.Err? ==> issues == old(issues) && currentIssue == old(currentIssue)
    {
      result := ApplyUpdate(id, outcome, "Failed to move issue to sprint");
    }

    /** `deleteIssue(id)`: every issue with the id goes, the total drops by one whether or not one was loaded, and a matching current issue is cleared. */
    method DeleteIssue(id: int, outcome: Api<()>) returns (result: Api<()>)
      modifies this`issues, this`totalCount, this`currentIssue, this`isLoading, this`error
      ensures result == outcome && !isLoading && error == FailureMessage(outcome, "Failed to delete issue")
      ensures outcome.Ok? ==> issues == RemoveId(old(issues), IssueId, id) && totalCount == old(totalCount) - 1
      ensures outcome.Ok? ==> currentIssue == DropCurrent(old(currentIssue), IssueId, id)
      ensures outcome.Err? ==> issues == old(issues) && totalCount == old(totalCount) && currentIssue == old(currentIssue)
    {
      isLoading := true;
      error := None;
      match outcome {
        case Ok(_) =>
          issues := RemoveId(issues, IssueId, id);
          totalCount := totalCount - 1;
          currentIssue := DropCurrent(currentIssue, IssueId, id);
        case Err(thrown) =>
          error := Some(ErrorMessage(thrown, "Failed to delete issue"));
      }
      isLoading := false;
      result := outcome;
    }

    /** The list-only fetch of `fetchIssuesByProject`, `fetchIssuesBySprint` and `fetchMyIssues`: items and total, not page and size. */
    method ApplyListOnly(outcome: Api<Paginated<Issue>>, fallback: string) returns (result: Api<Paginated<Issue>>)
      modifies this`issues, this`totalCount, this`isLoading, this`error
      ensures result == outcome && !isLoading && error == FailureMessage(outcome, fallback)
      ensures outcome.Ok? ==> issues == outcome.value.items && totalCount == outcome.value.total
      ensures outcome.Err? ==> issues == old(issues) && totalCount == old(totalCount)
    {
      isLoading := true;
      error := None;
      match outcome {
        case Ok(response) =>
          issues := response.items;
          totalCount := response.total;
        case Err(thrown) =>
          error := Some(ErrorMessage(thrown, fallback));
      }
      isLoading := false;
      result := outcome;
    }

    /** `fetchIssuesByProject(projectId, params)` */
    method FetchIssuesByProject(projectId: int, outcome: Api<Paginated<Issue>>) returns (result: Api<Paginated<Issue>>)
      modifies this`issues, this`totalCount, this`isLoading, this`error
      ensures result == outcome && !isLoading && error == FailureMessage(outcome, "Failed to fetch project issues")
      ensures outcome.Ok? ==> issues == outcome.value.items && totalCount == outcome.value.total
      ensures outcome.Err? ==> issues == old(issues) && totalCount == old(totalCount)
    {
      result := ApplyListOnly(outcome, "Failed to fetch project issues");
    }

    /** `fetchIssuesBySprint(sprintId, params)` */
    method FetchIssuesBySprint(sprintId: int, outcome: Api<Paginated<Issue>>) returns (result: Api<Paginated<Issue>>)
      modifies this`issues, this`totalCount, this`isLoading, this`error
      ensures result == outcome && !isLoading && error == FailureMessage(outcome, "Failed to fetch sprint issues")
      ensures outcome.Ok? ==> issues == outcome.value.items && totalCount == outcome.value.total
      ensures outcome.Err? ==> issues == old(issues) && totalCount == old(totalCount)
    {
      result := ApplyListOnly(outcome, "Failed to fetch sprint issues");
    }

    /** `fetchMyIssues(params)` */
    method FetchMyIssues(outcome: Api<Paginated<Issue>>) returns (result: Api<Paginated<Issue>>)
      modifies this`issues, this`totalCount, this`isLoading, this`error
      ensures result == outcome && !isLoading && error == FailureMessage(outcome, "Failed to fetch my issues")
      ensures outcome.Ok? ==> issues == outcome.value.items && totalCount == outcome.value.total
      ensures outcome.Err? ==> issues == old(issues) && totalCount == old(totalCount)
    {
      result := ApplyListOnly(outcome, "Failed to fetch my issues");
    }

    /** `setSearchQuery`, `setStatusFilter`, `setPriorityFilter`, `setTypeFilter`, `setProjectFilter`, `setSprintFilter` and `setAssigneeFilter`: one filter changes and the page returns to 1. */
    method SetFilters(f: IssueFilters)
      modifies this`filters, this`currentPage
      ensures filters == f && currentPage == 1
    {
      filters := f;
      currentPage := 1;
    }

    /** `setSearchQuery(query)` */
    method SetSearchQuery(query: string)
      modifies this`filters, this`currentPage
      ensures filters == old(filters).(search := query) && currentPage == 1
    {
      SetFilters(filters.(search := query));
    }

    /** `setStatusFilter(status)` */
    method SetStatusFilter(status: string)
      modifies this`filters, this`currentPage
      ensures filters == old(filters).(status := status) && currentPage == 1
    {
      SetFilters(filters.(status := status));
    }

    /** `setPriorityFilter(priority)` */
    method SetPriorityFilter(priority: string)
      modifies this`filters, this`currentPage
      ensures filters == old(filters).(priority := priority) && currentPage == 1
    {
      SetFilters(filters.(priority := priority));
    }

    /** `setTypeFilter(type)` */
    method SetTypeFilter(issueType: string)
      modifies this`filters, this`currentPage
      ensures filters == old(filters).(issueType := issueType) && currentPage == 1
    {
      SetFilters(filters.(issueType := issueType));
    }

    /** `setProjectFilter(projectId)` */
    method SetProjectFilter(project: Option<int>)
      modifies this`filters, this`currentPage
      ensures filters == old(filters).(project := project) && currentPage == 1
    {
      SetFilters(filters.(project := project));
    }

    /** `setSprintFilter(sprintId)` */
    method SetSprintFilter(sprint: Option<int>)
      modifies this`filters, this`currentPage
      ensures filters == old(filters).(sprint := sprint) && currentPage == 1
    {
      SetFilters(filters.(sprint := sprint));
    }

    /** `setAssigneeFilter(assigneeId)` */
    method SetAssigneeFilter(assignee: Option<int>)
      modifies this`filters, this`currentPage
      ensures filters == old(filters).(assignee := assignee) && currentPage == 1
    {
      SetFilters(filters.(assignee := assignee));
    }

    /** `setPage(page)`: stored as given. */
    method SetPage(page: int)
      modifies this`currentPage
      ensures currentPage == page
    {
      currentPage := page;
    }

    /** `setPageSize(size)`: the page returns to 1. */
    method SetPageSize(size: int)
      modifies this`pageSize, this`currentPage
      ensures pageSize == size && currentPage == 1
    {
      pageSize := size;
      currentPage := 1;
    }

    /** `clearFilters()` */
    method ClearFilters()
      modifies this`filters, this`currentPage
      ensures filters == NoFilters && currentPage == 1
    {
      SetFilters(NoFilters);
    }

    /** `clearCurrentIssue()` */
    method ClearCurrentIssue()
      modifies this`currentIssue
      ensures currentIssue == None
    {
      currentIssue := None;
    }

    /** `clearAll()`: the state the store starts in. */
    method ClearAll()
      modifies this
      ensures issues == [] && currentIssue == None && !isLoading && error == None
      ensures currentPage == 1 && pageSize == 20 && totalCount == 0 && filters == NoFilters
    {
      issues := [];
      currentIssue := None;
      isLoading := false;
      error := None;
      currentPage := 1;
      pageSize := 20;
      totalCount := 0;
      ClearFilters();
    }
  }

  /** With no active filter the filtered list is the whole list. */
  lemma NoFiltersKeepAll(issues: seq<Issue>)
    ensures FilteredIssues(issues, NoFilters) == issues
  {
    FilteredIssuesExactly(issues, NoFilters);
    KeepEverything(issues, MatchesTest(NoFilters));
  }
}
