/**
 * The sprint store: the loaded sprints, the selected sprint, loading and
 * error flags, pagination counters and three filters; the status subsets and
 * the filtered list; the query parameters a fetch sends; and the actions,
 * `startSprint` and `completeSprint` among them, each given the outcome of
 * its API call. The three filter refs are kept together in one
 * `SprintFilters` value.
 */
module SprintStore {
  import opened Wrappers
  import opened Text
  import opened JsValues
  import opened ListPatch
  import opened Models
  import opened StoreQuery

  datatype SprintFilters = SprintFilters(
    search: string,
    status: string,
    project: Option<int>)

  /** The filters `clearFilters` restores. */
  const NoFilters := SprintFilters("", "", None)

  /** The search test: the name, or the goal when there is one, contains the lowercased query. */
  predicate SearchHit(s: Sprint, query: string) {
    Contains(Lower(s.name), query) || (s.goal.Some? && Contains(Lower(s.goal.value), query))
  }

  /** `projectFilter.value` is truthy: set and not 0. */
  predicate ProjectSet(f: SprintFilters) { f.project.Some? && f.project.value != 0 }

  /** The tests of the getter's stages. */
  function SearchTest(f: SprintFilters): Sprint -> bool { (s: Sprint) => SearchHit(s, Lower(f.search)) }
  function StatusTest(f: SprintFilters): Sprint -> bool { (s: Sprint) => s.status == f.status }
  function ProjectTest(f: SprintFilters): Sprint -> bool { (s: Sprint) => Some(s.projectId) == f.project }

  /** `filteredSprints`, stage by stage as the getter narrows it. */
  function FilteredSprints(sprints: seq<Sprint>, f: SprintFilters): seq<Sprint> {
    var s1 := Stage(sprints, f.search != "", SearchTest(f));
    var s2 := Stage(s1, f.status != "", StatusTest(f));
    Stage(s2, ProjectSet(f), ProjectTest(f))
  }

  /** A sprint passes the first `n` of the getter's three stages. */
  predicate PassesFirst(f: SprintFilters, s: Sprint, n: nat) {
    && (n >= 1 ==> f.search == "" || SearchHit(s, Lower(f.search)))
    && (n >= 2 ==> f.status == "" || s.status == f.status)
    && (n >= 3 ==> !ProjectSet(f) || Some(s.projectId) == f.project)
  }

  function PassesTest(f: SprintFilters, n: nat): Sprint -> bool { (s: Sprint) => PassesFirst(f, s, n) }

  /** A sprint passes every active filter; empty strings, a null project and project 0 are inactive. */
  predicate Matches(f: SprintFilters, s: Sprint) {
    && (f.search == "" || SearchHit(s, Lower(f.search)))
    && (f.status == "" || s.status == f.status)
    && (!ProjectSet(f) || Some(s.projectId) == f.project)
  }

  function MatchesTest(f: SprintFilters): Sprint -> bool { (s: Sprint) => Matches(f, s) }

  /** The staged getter keeps, in order, exactly the sprints that pass every active filter. */
  lemma FilteredSprintsExactly(sprints: seq<Sprint>, f: SprintFilters)
    ensures FilteredSprints(sprints, f) == Keep(sprints, MatchesTest(f))
  {
    var s1 := Stage(sprints, f.search != "", SearchTest(f));
    assert s1 == Keep(sprints, PassesTest(f, 1)) by { StageFirst(sprints, f.search != "", SearchTest(f), PassesTest(f, 1)); }
    var s2 := Stage(s1, f.status != "", StatusTest(f));
    assert s2 == Keep(sprints, PassesTest(f, 2)) by { StageAfterKeep(sprints, PassesTest(f, 1), f.status != "", StatusTest(f), PassesTest(f, 2)); }
    StageAfterKeep(sprints, PassesTest(f, 2), ProjectSet(f), ProjectTest(f), PassesTest(f, 3));
    KeepExtensional(sprints, PassesTest(f, 3), MatchesTest(f));
  }

  /** A project filter of 0 filters nothing: the list is the one with no project filter. */
  lemma ProjectZeroIgnored(sprints: seq<Sprint>, f: SprintFilters)
    requires f.project == Some(0)
    ensures FilteredSprints(sprints, f) == FilteredSprints(sprints, f.(project := None))
  {
    FilteredSprintsExactly(sprints, f);
    FilteredSprintsExactly(sprints, f.(project := None));
    KeepExtensional(sprints, MatchesTest(f), MatchesTest(f.(project := None)));
  }

  /** With no active filter the filtered list is the whole list. */
  lemma NoFiltersKeepAll(sprints: seq<Sprint>)
    ensures FilteredSprints(sprints, NoFilters) == sprints
  {
    FilteredSprintsExactly(sprints, NoFilters);
    KeepEverything(sprints, MatchesTest(NoFilters));
  }

  /** The sprints with a given status (`activeSprints` 'active', `plannedSprints` 'planning', `completedSprints` 'completed'). */
  function WithStatus(sprints: seq<Sprint>, status: string): (r: seq<Sprint>)
    ensures forall i :: 0 <= i < |r| ==> r[i].status == status
    ensures forall i :: 0 <= i < |sprints| && sprints[i].status == status ==> sprints[i] in r
  {
    Keep(sprints, (s: Sprint) => s.status == status)
  }

  /** The three subsets the store exposes, together: a cancelled sprint is in none, and every other sprint of the four statuses is in exactly one. */
  lemma {:induction false} StatusSubsetsCount(sprints: seq<Sprint>)
    requires forall k :: 0 <= k < |sprints| ==> sprints[k].status in {"planning", "active", "completed", "cancelled"}
    ensures |WithStatus(sprints, "active")| + |WithStatus(sprints, "planning")| + |WithStatus(sprints, "completed")|
            == |sprints| - |WithStatus(sprints, "cancelled")|
  {
    if |sprints| > 0 {
      StatusSubsetsCount(sprints[1..]);
    }
  }

  /** The keys a set filter writes. */
  const FilterKeys: set<string> := {"search", "status", "project_id"}

  /** Whether `fetchSprints` assigns a filter key: each filter when truthy. */
  predicate FilterSet(f: SprintFilters, key: string) {
    if key == "search" then f.search != ""
    else if key == "status" then f.status != ""
    else if key == "project_id" then ProjectSet(f)
    else false
  }

  /** The value `fetchSprints` assigns to a filter key. */
  function FilterValue(f: SprintFilters, key: string): Value {
    if key == "search" then Str(f.search)
    else if key == "status" then Str(f.status)
    else Num(if f.project.Some? then f.project.value else 0)
  }

  /** The assignments `fetchSprints` makes after spreading the caller's params, one per set filter. */
  function FilterLayer(f: SprintFilters): (m: map<string, Value>)
    ensures m.Keys <= FilterKeys
    ensures forall k :: k in m <==> k in FilterKeys && FilterSet(f, k)
  {
    map k | k in FilterKeys && FilterSet(f, k) :: FilterValue(f, k)
  }

  /** The parameters `fetchSprints` sends. */
  function SprintQueryParams(currentPage: int, pageSize: int, params: map<string, Value>, f: SprintFilters): map<string, Value> {
    QueryParams(currentPage, pageSize, params, FilterLayer(f))
  }

  /** Every truthy filter sends its own value, another leaves its key to the caller, and the store's page and size are sent unless the caller gives them. */
  lemma SprintQueryParamsLayers(currentPage: int, pageSize: int, params: map<string, Value>, f: SprintFilters)
    ensures var r := SprintQueryParams(currentPage, pageSize, params, f);
      && (f.search != "" ==> r["search"] == Str(f.search))
      && (f.status != "" ==> r["status"] == Str(f.status))
      && (ProjectSet(f) ==> r["project_id"] == Num(f.project.value))
    ensures var r := SprintQueryParams(currentPage, pageSize, params, f);
      && (f.search == "" ==> ("search" in r <==> "search" in params))
      && (f.status == "" ==> ("status" in r <==> "status" in params))
      && (!ProjectSet(f) ==> ("project_id" in r <==> "project_id" in params))
    ensures var r := SprintQueryParams(currentPage, pageSize, params, f);
      && ("page" !in params ==> r["page"] == Num(currentPage))
      && ("size" !in params ==> r["size"] == Num(pageSize))
  {
    assert "page" !in FilterKeys && "size" !in FilterKeys;
  }

  class Store {
    var sprints: seq<Sprint>
    var currentSprint: Option<Sprint>
    var isLoading: bool
    var error: Option<string>
    var currentPage: int
    var pageSize: int
    var totalCount: int
    var filters: SprintFilters

    constructor ()
      ensures sprints == [] && currentSprint == None && !isLoading && error == None
      ensures currentPage == 1 && pageSize == 20 && totalCount == 0 && filters == NoFilters
    {
      sprints := [];
      currentSprint := None;
      isLoading := false;
      error := None;
      currentPage := 1;
      pageSize := 20;
      totalCount := 0;
      filters := NoFilters;
    }

    /** The `queryParams` object `fetchSprints` builds from the store's state. */
    method BuildQueryParams(params: map<string, Value>) returns (sent: map<string, Value>)
      ensures sent == SprintQueryParams(currentPage, pageSize, params, filters)
    {
      sent := SprintQueryParams(currentPage, pageSize, params, filters);
    }

    /** What `fetchSprints` does with the response: items, total, page and size are copied. */
    method ApplyPage(outcome: Api<Paginated<Sprint>>) returns (result: Api<Paginated<Sprint>>)
      modifies this`sprints, this`totalCount, this`currentPage, this`pageSize, this`isLoading, this`error
      ensures result == outcome && !isLoading && error == FailureMessage(outcome, "Failed to fetch sprints")
      ensures outcome.Ok? ==> sprints == outcome.value.items && totalCount == outcome.value.total
      ensures outcome.Ok? ==> currentPage == outcome.value.page && pageSize == outcome.value.size
      ensures outcome.Err? ==> sprints == old(sprints) && totalCount == old(totalCount)
      ensures outcome.Err? ==> currentPage == old(currentPage) && pageSize == old(pageSize)
    {
      isLoading := true;
      error := None;
      match outcome {
        case Ok(response) =>
          sprints := response.items;
          totalCount := response.total;
          currentPage := response.page;
          pageSize := response.size;
        case Err(thrown) =>
          error := Some(ErrorMessage(thrown, "Failed to fetch sprints"));
      }
      isLoading := false;
      result := outcome;
    }

    /** `fetchSprints(params)`: sends the layered parameters and copies items, total, page and size from the response. */
    method FetchSprints(params: map<string, Value>, outcome: Api<Paginated<Sprint>>) returns (sent: map<string, Value>, result: Api<Paginated<Sprint>>)
      modifies this`sprints, this`totalCount, this`currentPage, this`pageSize, this`isLoading, this`error
      ensures sent == SprintQueryParams(old(currentPage), old(pageSize), params, filters)
      ensures result == outcome && !isLoading && error == FailureMessage(outcome, "Failed to fetch sprints")
      ensures outcome.Ok? ==> sprints == outcome.value.items && totalCount == outcome.value.total
      ensures outcome.Ok? ==> currentPage == outcome.value.page && pageSize == outcome.value.size
      ensures outcome.Err? ==> sprints == old(sprints) && totalCount == old(totalCount)
      ensures outcome.Err? ==> currentPage == old(currentPage) && pageSize == old(pageSize)
    {
      sent := BuildQueryParams(params);
      result := ApplyPage(outcome);
    }

    /** `fetchSprint(id)`: the fetched record becomes the current one. */
    method FetchSprint(id: int, outcome: Api<Sprint>) returns (result: Api<Sprint>)
      modifies this`currentSprint, this`isLoading, this`error
      ensures result == outcome && !isLoading && error == FailureMessage(outcome, "Failed to fetch sprint")
      ensures outcome.Ok? ==> currentSprint == Some(outcome.value)
      ensures outcome.Err? ==> currentSprint == old(currentSprint)
    {
      isLoading := true;
      error := None;
      match outcome {
        case Ok(x) =>
          currentSprint := Some(x);
        case Err(thrown) =>
          error := Some(ErrorMessage(thrown, "Failed to fetch sprint"));
      }
      isLoading := false;
      result := outcome;
    }

    /** `createSprint(data)`: the new record goes first and the total grows by one. */
    method CreateSprint(outcome: Api<Sprint>) returns (result: Api<Sprint>)
      modifies this`sprints, this`totalCount, this`isLoading, this`error
      ensures result == outcome && !isLoading && error == FailureMessage(outcome, "Failed to create sprint")
      ensures outcome.Ok? ==> sprints == [outcome.value] + old(sprints) && totalCount == old(totalCount) + 1
      ensures outcome.Err? ==> sprints == old(sprints) && totalCount == old(totalCount)
    {
      isLoading := true;
      error := None;
      match outcome {
        case Ok(x) =>
          sprints := [x] + sprints;
          totalCount := totalCount + 1;
        case Err(thrown) =>
          error := Some(ErrorMessage(thrown, "Failed to create sprint"));
      }
      isLoading := false;
      result := outcome;
    }

    /**
     * The update shared by `updateSprint`, `startSprint` and `completeSprint`: the first record with the id,
     * and the current record when its id matches, become the returned record.
     */
    method ApplyUpdate(id: int, outcome: Api<Sprint>, fallback: string) returns (result: Api<Sprint>)
      modifies this`sprints, this`currentSprint, this`isLoading, this`error
      ensures result == outcome && !isLoading && error == FailureMessage(outcome, fallback)
      ensures outcome.Ok? ==> sprints == ReplaceFirst(old(sprints), SprintId, id, outcome.value)
      ensures outcome.Ok? ==> currentSprint == PatchCurrent(old(currentSprint), SprintId, id, outcome.value)
      ensures outcome.Err? ==> sprints == old(sprints) && currentSprint == old(currentSprint)
    {
      isLoading := true;
      error := None;
      match outcome {
        case Ok(x) =>
          sprints := ReplaceFirst(sprints, SprintId, id, x);
          currentSprint := PatchCurrent(currentSprint, SprintId, id, x);
        case Err(thrown) =>
          error := Some(ErrorMessage(thrown, fallback));
      }
      isLoading := false;
      result := outcome;
    }

    /** `updateSprint(id, data)` */
    method UpdateSprint(id: int, outcome: Api<Sprint>) returns (result: Api<Sprint>)
      modifies this`sprints, this`currentSprint, this`isLoading, this`error
      ensures result == outcome && !isLoading && error == FailureMessage(outcome, "Failed to update sprint")
      ensures outcome.Ok? ==> sprints == ReplaceFirst(old(sprints), SprintId, id, outcome.value)
      ensures outcome.Ok? ==> currentSprint == PatchCurrent(old(currentSprint), SprintId, id, outcome.value)
      ensures outcome.Err? ==> sprints == old(sprints) && currentSprint == old(currentSprint)
    {
      result := ApplyUpdate(id, outcome, "Failed to update sprint");
    }

    /** `startSprint(id)` */
    method StartSprint(id: int, outcome: Api<Sprint>) returns (result: Api<Sprint>)
      modifies this`sprints, this`currentSprint, this`isLoading, this`error
      ensures result == outcome && !isLoading && error == FailureMessage(outcome, "Failed to start sprint")
      ensures outcome.Ok? ==> sprints == ReplaceFirst(old(sprints), SprintId, id, outcome.value)
      ensures outcome.Ok? ==> currentSprint == PatchCurrent(old(currentSprint), SprintId, id, outcome.value)
      ensures outcome.Err? ==> sprints == old(sprints) && currentSprint == old(currentSprint)
    {
      result := ApplyUpdate(id, outcome, "Failed to start sprint");
    }

    /** `completeSprint(id)` */
    method CompleteSprint(id: int, outcome: Api<Sprint>) returns (result: Api<Sprint>)
      modifies this`sprints, this`currentSprint, this`isLoading, this`error
      ensures result == outcome && !isLoading && error == FailureMessage(outcome, "Failed to complete sprint")
      ensures outcome.Ok? ==> sprints == ReplaceFirst(old(sprints), SprintId, id, outcome.value)
      ensures outcome.Ok? ==> currentSprint == PatchCurrent(old(currentSprint), SprintId, id, outcome.value)
      ensures outcome.Err? ==> sprints == old(sprints) && currentSprint == old(currentSprint)
    {
      result := ApplyUpdate(id, outcome, "Failed to complete sprint");
    }

    /** `deleteSprint(id)`: every record with the id goes, the total drops by one whether or not one was loaded, and a matching current record is cleared. */
    method DeleteSprint(id: int, outcome: Api<()>) returns (result: Api<()>)
      modifies this`sprints, this`totalCount, this`currentSprint, this`isLoading, this`error
      ensures result == outcome && !isLoading && error == FailureMessage(outcome, "Failed to delete sprint")
      ensures outcome.Ok? ==> sprints == RemoveId(old(sprints), SprintId, id) && totalCount == old(totalCount) - 1
      ensures outcome.Ok? ==> currentSprint == DropCurrent(old(currentSprint), SprintId, id)
      ensures outcome.Err? ==> sprints == old(sprints) && totalCount == old(totalCount) && currentSprint == old(currentSprint)
    {
      isLoading := true;
      error := None;
      match outcome {
        case Ok(_) =>
          sprints := RemoveId(sprints, SprintId, id);
          totalCount := totalCount - 1;
          currentSprint := DropCurrent(currentSprint, SprintId, id);
        case Err(thrown) =>
          error := Some(ErrorMessage(thrown, "Failed to delete sprint"));
      }
      isLoading := false;
      result := outcome;
    }

    /** `fetchSprintsByProject(projectId, params)`: items and total are copied, page and size are not. */
    method FetchSprintsByProject(projectId: int, outcome: Api<Paginated<Sprint>>) returns (result: Api<Paginated<Sprint>>)
      modifies this`sprints, this`totalCount, this`isLoading, this`error
      ensures result == outcome && !isLoading && error == FailureMessage(outcome, "Failed to fetch project sprints")
      ensures outcome.Ok? ==> sprints == outcome.value.items && totalCount == outcome.value.total
      ensures outcome.Err? ==> sprints == old(sprints) && totalCount == old(totalCount)
    {
      isLoading := true;
      error := None;
      match outcome {
        case Ok(response) =>
          sprints := response.items;
          totalCount := response.total;
        case Err(thrown) =>
          error := Some(ErrorMessage(thrown, "Failed to fetch project sprints"));
      }
      isLoading := false;
      result := outcome;
    }

    /** `setSearchQuery`, `setStatusFilter` and `setProjectFilter`: one filter changes and the page returns to 1. */
    method SetFilters(f: SprintFilters)
      modifies this`filters, this`currentPage
      ensures filters == f && currentPage == 1
    {
      filters := f;
      currentPage := 1;
    }

    /** `setSearchQuery(query)` */
    method SetSearchQuery(search: string)
      modifies this`filters, this`currentPage
      ensures filters == old(filters).(search := search) && currentPage == 1
    {
      SetFilters(filters.(search := search));
    }

    /** `setStatusFilter(status)` */
    method SetStatusFilter(status: string)
      modifies this`filters, this`currentPage
      ensures filters == old(filters).(status := status) && currentPage == 1
    {
      SetFilters(filters.(status := status));
    }

    /** `setProjectFilter(projectId)` */
    method SetProjectFilter(project: Option<int>)
      modifies this`filters, this`currentPage
      ensures filters == old(filters).(project := project) && currentPage == 1
    {
      SetFilters(filters.(project := project));
    }

    /** `setPage(page)`: stored as given. */
    method SetPage(page: int)
      modifies this`currentPage
      ensures currentPage == page
    {
      currentPage := page;
    }

    /** `setPageSize(size)`: the page returns to 1. */
    method SetPageSize(size: int)
      modifies this`pageSize, this`currentPage
      ensures pageSize == size && currentPage == 1
    {
      pageSize := size;
      currentPage := 1;
    }

    /** `clearFilters()`: search and status back to empty, the project to null, and page 1. */
    method ClearFilters()
      modifies this`filters, this`currentPage
      ensures filters == NoFilters && currentPage == 1
    {
      SetFilters(NoFilters);
    }

    /** `clearCurrentSprint()` */
    method ClearCurrentSprint()
      modifies this`currentSprint
      ensures currentSprint == None
    {
      currentSprint := None;
    }

    /** `clearAll()`: the state the store starts in. */
    method ClearAll()
      modifies this
      ensures sprints == [] && currentSprint == None && !isLoading && error == None
      ensures currentPage == 1 && pageSize == 20 && totalCount == 0 && filters == NoFilters
    {
      sprints := [];
      currentSprint := None;
      isLoading := false;
      error := None;
      currentPage := 1;
      pageSize := 20;
      totalCount := 0;
      ClearFilters();
    }
  }
}
