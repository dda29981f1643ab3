/**
 * The project store: the loaded projects, the selected project, loading and
 * error flags, pagination counters and three filters, of which the team
 * filter is stored but never read; the active subset and the filtered list;
 * the query parameters a fetch sends; and the actions, each given the
 * outcome of its API call. The three filter refs are kept together in one
 * `ProjectFilters` value.
 */
module ProjectStore {
  import opened Wrappers
  import opened Text
  import opened JsValues
  import opened ListPatch
  import opened Models
  import opened StoreQuery

  datatype ProjectFilters = ProjectFilters(
    search: string,
    status: string,
    team: Option<int>)

  /** The filters `clearFilters` restores. */
  const NoFilters := ProjectFilters("", "", None)

  /** The search test: the name, or the description when there is one, contains the lowercased query. */
  predicate SearchHit(p: Project, query: string) {
    Contains(Lower(p.name), query) || (p.description.Some? && Contains(Lower(p.description.value), query))
  }

  /** The tests of the getter's stages. */
  function SearchTest(f: ProjectFilters): Project -> bool { (p: Project) => SearchHit(p, Lower(f.search)) }
  function StatusTest(f: ProjectFilters): Project -> bool { (p: Project) => p.status == f.status }

  /** `filteredProjects`: the search stage, then the status stage. */
  function FilteredProjects(projects: seq<Project>, f: ProjectFilters): seq<Project> {
    var s1 := Stage(projects, f.search != "", SearchTest(f));
    Stage(s1, f.status != "", StatusTest(f))
  }

  /** A project passes the first `n` of the getter's two stages. */
  predicate PassesFirst(f: ProjectFilters, p: Project, n: nat) {
    && (n >= 1 ==> f.search == "" || SearchHit(p, Lower(f.search)))
    && (n >= 2 ==> f.status == "" || p.status == f.status)
  }

  function PassesTest(f: ProjectFilters, n: nat): Project -> bool { (p: Project) => PassesFirst(f, p, n) }

  /** A project passes the search and the status filter when they are non-empty; the team filter plays no part. */
  predicate Matches(f: ProjectFilters, p: Project) {
    && (f.search == "" || SearchHit(p, Lower(f.search)))
    && (f.status == "" || p.status == f.status)
  }

  function MatchesTest(f: ProjectFilters): Project -> bool { (p: Project) => Matches(f, p) }

  /** The staged getter keeps, in order, exactly the projects that pass the search and the status filter. */
  lemma FilteredProjectsExactly(projects: seq<Project>, f: ProjectFilters)
    ensures FilteredProjects(projects, f) == Keep(projects, MatchesTest(f))
  {
    var s1 := Stage(projects, f.search != "", SearchTest(f));
    assert s1 == Keep(projects, PassesTest(f, 1)) by { StageFirst(projects, f.search != "", SearchTest(f), PassesTest(f, 1)); }
    StageAfterKeep(projects, PassesTest(f, 1), f.status != "", StatusTest(f), PassesTest(f, 2));
    KeepExtensional(projects, PassesTest(f, 2), MatchesTest(f));
  }

  /** The team filter changes nothing in the filtered list. */
  lemma FilteredProjectsIgnoreTeam(projects: seq<Project>, f: ProjectFilters, team: Option<int>)
    ensures FilteredProjects(projects, f.(team := team)) == FilteredProjects(projects, f)
  {
    FilteredProjectsExactly(projects, f);
    FilteredProjectsExactly(projects, f.(team := team));
    KeepExtensional(projects, MatchesTest(f), MatchesTest(f.(team := team)));
  }

  /** With no active filter the filtered list is the whole list. */
  lemma NoFiltersKeepAll(projects: seq<Project>)
    ensures FilteredProjects(projects, NoFilters) == projects
  {
    FilteredProjectsExactly(projects, NoFilters);
    KeepEverything(projects, MatchesTest(NoFilters));
  }

  /** `activeProjects` */
  function ActiveProjects(projects: seq<Project>): (r: seq<Project>)
    ensures forall i :: 0 <= i < |r| ==> r[i].status == "active"
    ensures forall i :: 0 <= i < |projects| && projects[i].status == "active" ==> projects[i] in r
  {
    Keep(projects, (p: Project) => p.status == "active")
  }

  /** The keys a set filter writes: search and status, never the team. */
  const FilterKeys: set<string> := {"search", "status"}

  /** Whether `fetchProjects` assigns a filter key: the search and the status when non-empty. */
  predicate FilterSet(f: ProjectFilters, key: string) {
    if key == "search" then f.search != ""
    else if key == "status" then f.status != ""
    else false
  }

  /** The value `fetchProjects` assigns to a filter key. */
  function FilterValue(f: ProjectFilters, key: string): Value {
    if key == "search" then Str(f.search) else Str(f.status)
  }

  /** The assignments `fetchProjects` makes after spreading the caller's params, one per set filter. */
  function FilterLayer(f: ProjectFilters): (m: map<string, Value>)
    ensures m.Keys <= FilterKeys
    ensures forall k :: k in m <==> k in FilterKeys && FilterSet(f, k)
  {
    map k | k in FilterKeys && FilterSet(f, k) :: FilterValue(f, k)
  }

  /** The parameters `fetchProjects` sends. */
  function ProjectQueryParams(currentPage: int, pageSize: int, params: map<string, Value>, f: ProjectFilters): map<string, Value> {
    QueryParams(currentPage, pageSize, params, FilterLayer(f))
  }

  /** A non-empty search or status sends its own value, an empty one leaves its key to the caller, the team filter is never sent, and the store's page and size are sent unless the caller gives them. */
  lemma ProjectQueryParamsLayers(currentPage: int, pageSize: int, params: map<string, Value>, f: ProjectFilters)
    ensures var r := ProjectQueryParams(currentPage, pageSize, params, f);
      && (f.search != "" ==> r["search"] == Str(f.search))
      && (f.status != "" ==> r["status"] == Str(f.status))
    ensures var r := ProjectQueryParams(currentPage, pageSize, params, f);
      && (f.search == "" ==> ("search" in r <==> "search" in params))
      && (f.status == "" ==> ("status" in r <==> "status" in params))
      && ("team_id" in r <==> "team_id" in params)
    ensures var r := ProjectQueryParams(currentPage, pageSize, params, f);
      && ("page" !in params ==> r["page"] == Num(currentPage))
      && ("size" !in params ==> r["size"] == Num(pageSize))
    ensures forall team :: ProjectQueryParams(currentPage, pageSize, params, f.(team := team)) == ProjectQueryParams(currentPage, pageSize, params, f)
  {
    assert "page" !in FilterKeys && "size" !in FilterKeys && "team_id" !in FilterKeys;
    forall team ensures FilterLayer(f.(team := team)) == FilterLayer(f) {
    }
  }

  class Store {
    var projects: seq<Project>
    var currentProject: Option<Project>
    var isLoading: bool
    var error: Option<string>
    var currentPage: int
    var pageSize: int
    var totalCount: int
    var filters: ProjectFilters

    constructor ()
      ensures projects == [] && currentProject == None && !isLoading && error == None
      ensures currentPage == 1 && pageSize == 20 && totalCount == 0 && filters == NoFilters
    {
      projects := [];
      currentProject := None;
      isLoading := false;
      error := None;
      currentPage := 1;
      pageSize := 20;
      totalCount := 0;
      filters := NoFilters;
    }

    /** The `queryParams` object `fetchProjects` builds from the store's state. */
    method BuildQueryParams(params: map<string, Value>) returns (sent: map<string, Value>)
      ensures sent == ProjectQueryParams(currentPage, pageSize, params, filters)
    {
      sent := ProjectQueryParams(currentPage, pageSize, params, filters);
    }

    /** What `fetchProjects` does with the response: items, total, page and size are copied. */
    method ApplyPage(outcome: Api<Paginated<Project>>) returns (result: Api<Paginated<Project>>)
      modifies this`projects, this`totalCount, this`currentPage, this`pageSize, this`isLoading, this`error
      ensures result == outcome && !isLoading && error == FailureMessage(outcome, "Failed to fetch projects")
      ensures outcome.Ok? ==> projects == outcome.value.items && totalCount == outcome.value.total
      ensures outcome.Ok? ==> currentPage == outcome.value.page && pageSize == outcome.value.size
      ensures outcome.Err? ==> projects == old(projects) && totalCount == old(totalCount)
      ensures outcome.Err? ==> currentPage == old(currentPage) && pageSize == old(pageSize)
    {
      isLoading := true;
      error := None;
      match outcome {
        case Ok(response) =>
          projects := response.items;
          totalCount := response.total;
          currentPage := response.page;
          pageSize := response.size;
        case Err(thrown) =>
          error := Some(ErrorMessage(thrown, "Failed to fetch projects"));
      }
      isLoading := false;
      result := outcome;
    }

    /** `fetchProjects(params)`: sends the layered parameters and copies items, total, page and size from the response. */
    method FetchProjects(params: map<string, Value>, outcome: Api<Paginated<Project>>) returns (sent: map<string, Value>, result: Api<Paginated<Project>>)
      modifies this`projects, this`totalCount, this`currentPage, this`pageSize, this`isLoading, this`error
      ensures sent == ProjectQueryParams(old(currentPage), old(pageSize), params, filters)
      ensures result == outcome && !isLoading && error == FailureMessage(outcome, "Failed to fetch projects")
      ensures outcome.Ok? ==> projects == outcome.value.items && totalCount == outcome.value.total
      ensures outcome.Ok? ==> currentPage == outcome.value.page && pageSize == outcome.value.size
      ensures outcome.Err? ==> projects == old(projects) && totalCount == old(totalCount)
      ensures outcome.Err? ==> currentPage == old(currentPage) && pageSize == old(pageSize)
    {
      sent := BuildQueryParams(params);
      result := ApplyPage(outcome);
    }

    /** `fetchProject(id)`: the fetched record becomes the current one. */
    method FetchProject(id: int, outcome: Api<Project>) returns (result: Api<Project>)
      modifies this`currentProject, this`isLoading, this`error
      ensures result == outcome && !isLoading && error == FailureMessage(outcome, "Failed to fetch project")
      ensures outcome.Ok? ==> currentProject == Some(outcome.value)
      ensures outcome.Err? ==> currentProject == old(currentProject)
    {
      isLoading := true;
      error := None;
      match outcome {
        case Ok(x) =>
          currentProject := Some(x);
        case Err(thrown) =>
          error := Some(ErrorMessage(thrown, "Failed to fetch project"));
      }
      isLoading := false;
      result := outcome;
    }

    /** `createProject(data)`: the new record goes first and the total grows by one. */
    method CreateProject(outcome: Api<Project>) returns (result: Api<Project>)
      modifies this`projects, this`totalCount, this`isLoading, this`error
      ensures result == outcome && !isLoading && error == FailureMessage(outcome, "Failed to create project")
      ensures outcome.Ok? ==> projects == [outcome.value] + old(projects) && totalCount == old(totalCount) + 1
      ensures outcome.Err? ==> projects == old(projects) && totalCount == old(totalCount)
    {
      isLoading := true;
      error := None;
      match outcome {
        case Ok(x) =>
          projects := [x] + projects;
          totalCount := totalCount + 1;
        case Err(thrown) =>
          error := Some(ErrorMessage(thrown, "Failed to create project"));
      }
      isLoading := false;
      result := outcome;
    }

    /**
     * The update shared by `updateProject`: the first record with the id,
     * and the current record when its id matches, become the returned record.
     */
    method ApplyUpdate(id: int, outcome: Api<Project>, fallback: string) returns (result: Api<Project>)
      modifies this`projects, this`currentProject, this`isLoading, this`error
      ensures result == outcome && !isLoading && error == FailureMessage(outcome, fallback)
      ensures outcome.Ok? ==> projects == ReplaceFirst(old(projects), ProjectId, id, outcome.value)
      ensures outcome.Ok? ==> currentProject == PatchCurrent(old(currentProject), ProjectId, id, outcome.value)
      ensures outcome.Err? ==> projects == old(projects) && currentProject == old(currentProject)
    {
      isLoading := true;
      error := None;
      match outcome {
        case Ok(x) =>
          projects := ReplaceFirst(projects, ProjectId, id, x);
          currentProject := PatchCurrent(currentProject, ProjectId, id, x);
        case Err(thrown) =>
          error := Some(ErrorMessage(thrown, fallback));
      }
      isLoading := false;
      result := outcome;
    }

    /** `updateProject(id, data)` */
    method UpdateProject(id: int, outcome: Api<Project>) returns (result: Api<Project>)
      modifies this`projects, this`currentProject, this`isLoading, this`error
      ensures result == outcome && !isLoading && error == FailureMessage(outcome, "Failed to update project")
      ensures outcome.Ok? ==> projects == ReplaceFirst(old(projects), ProjectId, id, outcome.value)
      ensures outcome.Ok? ==> currentProject == PatchCurrent(old(currentProject), ProjectId, id, outcome.value)
      ensures outcome.Err? ==> projects == old(projects) && currentProject == old(currentProject)
    {
      result := ApplyUpdate(id, outcome, "Failed to update project");
    }

    /** `deleteProject(id)`: every record with the id goes, the total drops by one whether or not one was loaded, and a matching current record is cleared. */
    method DeleteProject(id: int, outcome: Api<()>) returns (result: Api<()>)
      modifies this`projects, this`totalCount, this`currentProject, this`isLoading, this`error
      ensures result == outcome && !isLoading && error == FailureMessage(outcome, "Failed to delete project")
      ensures outcome.Ok? ==> projects == RemoveId(old(projects), ProjectId, id) && totalCount == old(totalCount) - 1
      ensures outcome.Ok? ==> currentProject == DropCurrent(old(currentProject), ProjectId, id)
      ensures outcome.Err? ==> projects == old(projects) && totalCount == old(totalCount) && currentProject == old(currentProject)
    {
      isLoading := true;
      error := None;
      match outcome {
        case Ok(_) =>
          projects := RemoveId(projects, ProjectId, id);
          totalCount := totalCount - 1;
          currentProject := DropCurrent(currentProject, ProjectId, id);
        case Err(thrown) =>
          error := Some(ErrorMessage(thrown, "Failed to delete project"));
      }
      isLoading := false;
      result := outcome;
    }

    /** `fetchProjectsByTeam(teamId, params)`: items and total are copied, page and size are not. */
    method FetchProjectsByTeam(teamId: int, outcome: Api<Paginated<Project>>) returns (result: Api<Paginated<Project>>)
      modifies this`projects, this`totalCount, this`isLoading, this`error
      ensures result == outcome && !isLoading && error == FailureMessage(outcome, "Failed to fetch team projects")
      ensures outcome.Ok? ==> projects == outcome.value.items && totalCount == outcome.value.total
      ensures outcome.Err? ==> projects == old(projects) && totalCount == old(totalCount)
    {
      isLoading := true;
      error := None;
      match outcome {
        case Ok(response) =>
          projects := response.items;
          totalCount := response.total;
        case Err(thrown) =>
          error := Some(ErrorMessage(thrown, "Failed to fetch team projects"));
      }
      isLoading := false;
      result := outcome;
    }

    /** `setSearchQuery`, `setStatusFilter` and `setTeamFilter`: one filter changes and the page returns to 1. */
    method SetFilters(f: ProjectFilters)
      modifies this`filters, this`currentPage
      ensures filters == f && currentPage == 1
    {
      filters := f;
      currentPage := 1;
    }

    /** `setSearchQuery(query)` */
    method SetSearchQuery(search: string)
      modifies this`filters, this`currentPage
      ensures filters == old(filters).(search := search) && currentPage == 1
    {
      SetFilters(filters.(search := search));
    }

    /** `setStatusFilter(status)` */
    method SetStatusFilter(status: string)
      modifies this`filters, this`currentPage
      ensures filters == old(filters).(status := status) && currentPage == 1
    {
      SetFilters(filters.(status := status));
    }

    /** `setTeamFilter(teamId)` */
    method SetTeamFilter(team: Option<int>)
      modifies this`filters, this`currentPage
      ensures filters == old(filters).(team := team) && currentPage == 1
    {
      SetFilters(filters.(team := team));
    }

    /** `setPage(page)`: stored as given. */
    method SetPage(page: int)
      modifies this`currentPage
      ensures currentPage == page
    {
      currentPage := page;
    }

    /** `setPageSize(size)`: the page returns to 1. */
    method SetPageSize(size: int)
      modifies this`pageSize, this`currentPage
      ensures pageSize == size && currentPage == 1
    {
      pageSize := size;
      currentPage := 1;
    }

    /** `clearFilters()`: search and status back to empty, the team to null, and page 1. */
    method ClearFilters()
      modifies this`filters, this`currentPage
      ensures filters == NoFilters && currentPage == 1
    {
      SetFilters(NoFilters);
    }

    /** `clearCurrentProject()` */
    method ClearCurrentProject()
      modifies this`currentProject
      ensures currentProject == None
    {
      currentProject := None;
    }

    /** `clearAll()`: the state the store starts in. */
    method ClearAll()
      modifies this
      ensures projects == [] && currentProject == None && !isLoading && error == None
      ensures currentPage == 1 && pageSize == 20 && totalCount == 0 && filters == NoFilters
    {
      projects := [];
      currentProject := None;
      isLoading := false;
      error := None;
      currentPage := 1;
      pageSize := 20;
      totalCount := 0;
      ClearFilters();
    }
  }
}
