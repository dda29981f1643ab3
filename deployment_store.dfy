/**
 * The deployment store: the loaded deployments, the selected deployment,
 * loading and error flags, pagination counters and five filters; the type,
 * status and environment subsets and the filtered list; the query
 * parameters a fetch sends; and the actions, each given the outcome of its
 * API call. The five filter refs are kept together in one
 * `DeploymentFilters` value.
 */
module DeploymentStore {
  import opened Wrappers
  import opened Text
  import opened JsValues
  import opened ListPatch
  import opened Models
  import opened StoreQuery

  datatype DeploymentFilters = DeploymentFilters(
    search: string,
    service: Option<int>,
    environment: string,
    deploymentType: string,
    status: string)

  /** The filters `clearFilters` restores. */
  const NoFilters := DeploymentFilters("", None, "", "", "")

  /** The search test: the version, or a truthy branch, tag or notes, contains the lowercased query. */
  predicate SearchHit(d: Deployment, query: string) {
    Contains(Lower(d.version), query) || OptionalTextHit(d.branch, query) || OptionalTextHit(d.tag, query) || OptionalTextHit(d.notes, query)
  }

  /** The tests of the getter's stages. */
  function SearchTest(f: DeploymentFilters): Deployment -> bool { (d: Deployment) => SearchHit(d, Lower(f.search)) }
  function ServiceTest(f: DeploymentFilters): Deployment -> bool { (d: Deployment) => Some(d.serviceId) == f.service }
  function EnvironmentTest(f: DeploymentFilters): Deployment -> bool { (d: Deployment) => d.environment == f.environment }
  function TypeTest(f: DeploymentFilters): Deployment -> bool { (d: Deployment) => d.deploymentType == f.deploymentType }
  function StatusTest(f: DeploymentFilters): Deployment -> bool { (d: Deployment) => d.status == f.status }

  /** `filteredDeployments`, stage by stage as the getter narrows it. */
  function FilteredDeployments(deployments: seq<Deployment>, f: DeploymentFilters): seq<Deployment> {
    var s1 := Stage(deployments, f.search != "", SearchTest(f));
    var s2 := Stage(s1, f.service.Some?, ServiceTest(f));
    var s3 := Stage(s2, f.environment != "", EnvironmentTest(f));
    var s4 := Stage(s3, f.deploymentType != "", TypeTest(f));
    Stage(s4, f.status != "", StatusTest(f))
  }

  /** A deployment passes the first `n` of the getter's five stages. */
  predicate PassesFirst(f: DeploymentFilters, d: Deployment, n: nat) {
    && (n >= 1 ==> f.search == "" || SearchHit(d, Lower(f.search)))
    && (n >= 2 ==> f.service.None? || Some(d.serviceId) == f.service)
    && (n >= 3 ==> f.environment == "" || d.environment == f.environment)
    && (n >= 4 ==> f.deploymentType == "" || d.deploymentType == f.deploymentType)
    && (n >= 5 ==> f.status == "" || d.status == f.status)
  }

  function PassesTest(f: DeploymentFilters, n: nat): Deployment -> bool { (d: Deployment) => PassesFirst(f, d, n) }

  /** A deployment passes every active filter; empty strings and a null service are inactive, while service 0 is a filter. */
  predicate Matches(f: DeploymentFilters, d: Deployment) {
    && (f.search == "" || SearchHit(d, Lower(f.search)))
    && (f.service.None? || Some(d.serviceId) == f.service)
    && (f.environment == "" || d.environment == f.environment)
    && (f.deploymentType == "" || d.deploymentType == f.deploymentType)
    && (f.status == "" || d.status == f.status)
  }

  function MatchesTest(f: DeploymentFilters): Deployment -> bool { (d: Deployment) => Matches(f, d) }

  /** The first three stages keep the deployments passing the first three tests. */
  lemma FirstThreeStages(deployments: seq<Deployment>, f: DeploymentFilters)
    ensures Stage(Stage(Stage(deployments, f.search != "", SearchTest(f)), f.service.Some?, ServiceTest(f)),
                  f.environment != "", EnvironmentTest(f))
            == Keep(deployments, PassesTest(f, 3))
  {
    var s1 := Stage(deployments, f.search != "", SearchTest(f));
    assert s1 == Keep(deployments, PassesTest(f, 1)) by { StageFirst(deployments, f.search != "", SearchTest(f), PassesTest(f, 1)); }
    var s2 := Stage(s1, f.service.Some?, ServiceTest(f));
    assert s2 == Keep(deployments, PassesTest(f, 2)) by { StageAfterKeep(deployments, PassesTest(f, 1), f.service.Some?, ServiceTest(f), PassesTest(f, 2)); }
    StageAfterKeep(deployments, PassesTest(f, 2), f.environment != "", EnvironmentTest(f), PassesTest(f, 3));
  }

  /** The staged getter keeps, in order, exactly the deployments that pass every active filter. */
  lemma FilteredDeploymentsExactly(deployments: seq<Deployment>, f: DeploymentFilters)
    ensures FilteredDeployments(deployments, f) == Keep(deployments, MatchesTest(f))
  {
    FirstThreeStages(deployments, f);
    var s4 := Stage(Keep(deployments, PassesTest(f, 3)), f.deploymentType != "", TypeTest(f));
    assert s4 == Keep(deployments, PassesTest(f, 4)) by { StageAfterKeep(deployments, PassesTest(f, 3), f.deploymentType != "", TypeTest(f), PassesTest(f, 4)); }
    StageAfterKeep(deployments, PassesTest(f, 4), f.status != "", StatusTest(f), PassesTest(f, 5));
    KeepExtensional(deployments, PassesTest(f, 5), MatchesTest(f));
  }

  /** With no active filter the filtered list is the whole list. */
  lemma NoFiltersKeepAll(deployments: seq<Deployment>)
    ensures FilteredDeployments(deployments, NoFilters) == deployments
  {
    FilteredDeploymentsExactly(deployments, NoFilters);
    KeepEverything(deployments, MatchesTest(NoFilters));
  }

  /** The deployments of a given type (`manualDeployments`, `automaticDeployments`, `rollbackDeployments`). */
  function WithType(deployments: seq<Deployment>, deploymentType: string): (r: seq<Deployment>)
    ensures forall i :: 0 <= i < |r| ==> r[i].deploymentType == deploymentType
    ensures forall i :: 0 <= i < |deployments| && deployments[i].deploymentType == deploymentType ==> deployments[i] in r
  {
    Keep(deployments, (d: Deployment) => d.deploymentType == deploymentType)
  }

  /** The deployments with a given status (`pendingDeployments` … `rolledBackDeployments`). */
  function WithStatus(deployments: seq<Deployment>, status: string): (r: seq<Deployment>)
    ensures forall i :: 0 <= i < |r| ==> r[i].status == status
    ensures forall i :: 0 <= i < |deployments| && deployments[i].status == status ==> deployments[i] in r
  {
    Keep(deployments, (d: Deployment) => d.status == status)
  }

  function EnvironmentIs(environment: string): Deployment -> bool { (d: Deployment) => d.environment == environment }

  /** The deployments to a given environment (`productionDeployments`, `stagingDeployments`). */
  function WithEnvironment(deployments: seq<Deployment>, environment: string): (r: seq<Deployment>)
    ensures forall i :: 0 <= i < |r| ==> r[i].environment == environment
    ensures forall i :: 0 <= i < |deployments| && deployments[i].environment == environment ==> deployments[i] in r
  {
    Keep(deployments, EnvironmentIs(environment))
  }

  function IsDevelopment(): Deployment -> bool { (d: Deployment) => d.environment == "dev" || d.environment == "development" }

  /** `developmentDeployments`: both spellings of the development environment. */
  function DevelopmentDeployments(deployments: seq<Deployment>): (r: seq<Deployment>)
    ensures forall i :: 0 <= i < |r| ==> r[i].environment in {"dev", "development"}
    ensures forall i :: 0 <= i < |deployments| && deployments[i].environment in {"dev", "development"} ==> deployments[i] in r
  {
    Keep(deployments, IsDevelopment())
  }

  /** The development subset holds exactly the 'dev' and the 'development' deployments, each counted once. */
  lemma DevelopmentCount(deployments: seq<Deployment>)
    ensures |DevelopmentDeployments(deployments)| == |WithEnvironment(deployments, "dev")| + |WithEnvironment(deployments, "development")|
  {
    KeepDisjointCount(deployments, EnvironmentIs("dev"), EnvironmentIs("development"), IsDevelopment());
  }

  /** The keys a set filter writes. */
  const FilterKeys: set<string> := {"search", "service_id", "environment", "type", "status"}

  /** Whether `fetchDeployments` assigns a filter key: the strings when non-empty, the service when not null. */
  predicate FilterSet(f: DeploymentFilters, key: string) {
    if key == "search" then f.search != ""
    else if key == "service_id" then f.service.Some?
    else if key == "environment" then f.environment != ""
    else if key == "type" then f.deploymentType != ""
    else if key == "status" then f.status != ""
    else false
  }

  /** The value `fetchDeployments` assigns to a filter key. */
  function FilterValue(f: DeploymentFilters, key: string): Value {
    if key == "search" then Str(f.search)
    else if key == "service_id" then Num(if f.service.Some? then f.service.value else 0)
    else if key == "environment" then Str(f.environment)
    else if key == "type" then Str(f.deploymentType)
    else Str(f.status)
  }

  /** The assignments `fetchDeployments` makes after spreading the caller's params, one per set filter. */
  function FilterLayer(f: DeploymentFilters): (m: map<string, Value>)
    ensures m.Keys <= FilterKeys
    ensures forall k :: k in m <==> k in FilterKeys && FilterSet(f, k)
  {
    map k | k in FilterKeys && FilterSet(f, k) :: FilterValue(f, k)
  }

  /** The parameters `fetchDeployments` sends. */
  function DeploymentQueryParams(currentPage: int, pageSize: int, params: map<string, Value>, f: DeploymentFilters): map<string, Value> {
    QueryParams(currentPage, pageSize, params, FilterLayer(f))
  }

  /**
   * Every set filter sends its own value (a service id of 0 included), an
   * unset filter leaves its key to the caller, and the store's page and size
   * are sent unless the caller gives them.
   */
  lemma DeploymentQueryParamsLayers(currentPage: int, pageSize: int, params: map<string, Value>, f: DeploymentFilters)
    ensures var r := DeploymentQueryParams(currentPage, pageSize, params, f);
      && (f.search != "" ==> r["search"] == Str(f.search))
      && (f.service.Some? ==> r["service_id"] == Num(f.service.value))
      && (f.environment != "" ==> r["environment"] == Str(f.environment))
      && (f.deploymentType != "" ==> r["type"] == Str(f.deploymentType))
      && (f.status != "" ==> r["status"] == Str(f.status))
    ensures var r := DeploymentQueryParams(currentPage, pageSize, params, f);
      && (f.search == "" ==> ("search" in r <==> "search" in params))
      && (f.service.None? ==> ("service_id" in r <==> "service_id" in params))
      && (f.environment == "" ==> ("environment" in r <==> "environment" in params))
    ensures var r := DeploymentQueryParams(currentPage, pageSize, params, f);
      && ("page" !in params ==> r["page"] == Num(currentPage))
      && ("size" !in params ==> r["size"] == Num(pageSize))
  {
    assert "page" !in FilterKeys && "size" !in FilterKeys;
  }

  class Store {
    var deployments: seq<Deployment>
    var currentDeployment: Option<Deployment>
    var isLoading: bool
    var error: Option<string>
    var currentPage: int
    var pageSize: int
    var totalCount: int
    var filters: DeploymentFilters

    constructor ()
      ensures deployments == [] && currentDeployment == None && !isLoading && error == None
      ensures currentPage == 1 && pageSize == 20 && totalCount == 0 && filters == NoFilters
    {
      deployments := [];
      currentDeployment := None;
      isLoading := false;
      error := None;
      currentPage := 1;
      pageSize := 20;
      totalCount := 0;
      filters := NoFilters;
    }

    /** The `queryParams` object `fetchDeployments` builds from the store's state. */
    method BuildQueryParams(params: map<string, Value>) returns (sent: map<string, Value>)
      ensures sent == DeploymentQueryParams(currentPage, pageSize, params, filters)
    {
      sent := DeploymentQueryParams(currentPage, pageSize, params, filters);
    }

    /** What `fetchDeployments` does with the response: items, total, page and size are copied. */
    method ApplyPage(outcome: Api<Paginated<Deployment>>) returns (result: Api<Paginated<Deployment>>)
      modifies this`deployments, this`totalCount, this`currentPage, this`pageSize, this`isLoading, this`error
      ensures result == outcome && !isLoading && error == FailureMessage(outcome, "Failed to fetch deployments")
      ensures outcome.Ok? ==> deployments == outcome.value.items && totalCount == outcome.value.total
      ensures outcome.Ok? ==> currentPage == outcome.value.page && pageSize == outcome.value.size
      ensures outcome.Err? ==> deployments == old(deployments) && totalCount == old(totalCount)
      ensures outcome.Err? ==> currentPage == old(currentPage) && pageSize == old(pageSize)
    {
      isLoading := true;
      error := None;
      match outcome {
        case Ok(response) =>
          deployments := response.items;
          totalCount := response.total;
          currentPage := response.page;
          pageSize := response.size;
        case Err(thrown) =>
          error := Some(ErrorMessage(thrown, "Failed to fetch deployments"));
      }
      isLoading := false;
      result := outcome;
    }

    /** `fetchDeployments(params)`: sends the layered parameters and copies items, total, page and size from the response. */
    method FetchDeployments(params: map<string, Value>, outcome: Api<Paginated<Deployment>>) returns (sent: map<string, Value>, result: Api<Paginated<Deployment>>)
      modifies this`deployments, this`totalCount, this`currentPage, this`pageSize, this`isLoading, this`error
      ensures sent == DeploymentQueryParams(old(currentPage), old(pageSize), params, filters)
      ensures result == outcome && !isLoading && error == FailureMessage(outcome, "Failed to fetch deployments")
      ensures outcome.Ok? ==> deployments == outcome.value.items && totalCount == outcome.value.total
      ensures outcome.Ok? ==> currentPage == outcome.value.page && pageSize == outcome.value.size
      ensures outcome.Err? ==> deployments == old(deployments) && totalCount == old(totalCount)
      ensures outcome.Err? ==> currentPage == old(currentPage) && pageSize == old(pageSize)
    {
      sent := BuildQueryParams(params);
      result := ApplyPage(outcome);
    }

    /** `fetchDeployment(id)`: the fetched record becomes the current one. */
    method FetchDeployment(id: int, outcome: Api<Deployment>) returns (result: Api<Deployment>)
      modifies this`currentDeployment, this`isLoading, this`error
      ensures result == outcome && !isLoading && error == FailureMessage(outcome, "Failed to fetch deployment")
      ensures outcome.Ok? ==> currentDeployment == Some(outcome.value)
      ensures outcome.Err? ==> currentDeployment == old(currentDeployment)
    {
      isLoading := true;
      error := None;
      match outcome {
        case Ok(x) =>
          currentDeployment := Some(x);
        case Err(thrown) =>
          error := Some(ErrorMessage(thrown, "Failed to fetch deployment"));
      }
      isLoading := false;
      result := outcome;
    }

    /** The insertion shared by `createDeployment` and `rollbackDeployment`: the returned deployment goes first and the total grows by one. */
    method ApplyCreate(outcome: Api<Deployment>, fallback: string) returns (result: Api<Deployment>)
      modifies this`deployments, this`totalCount, this`isLoading, this`error
      ensures result == outcome && !isLoading && error == FailureMessage(outcome, fallback)
      ensures outcome.Ok? ==> deployments == [outcome.value] + old(deployments) && totalCount == old(totalCount) + 1
      ensures outcome.Err? ==> deployments == old(deployments) && totalCount == old(totalCount)
    {
      isLoading := true;
      error := None;
      match outcome {
        case Ok(x) =>
          deployments := [x] + deployments;
          totalCount := totalCount + 1;
        case Err(thrown) =>
          error := Some(ErrorMessage(thrown, fallback));
      }
      isLoading := false;
      result := outcome;
    }

    /** `createDeployment(data)` */
    method CreateDeployment(outcome: Api<Deployment>) returns (result: Api<Deployment>)
      modifies this`deployments, this`totalCount, this`isLoading, this`error
      ensures result == outcome && !isLoading && error == FailureMessage(outcome, "Failed to create deployment")
      ensures outcome.Ok? ==> deployments == [outcome.value] + old(deployments) && totalCount == old(totalCount) + 1
      ensures outcome.Err? ==> deployments == old(deployments) && totalCount == old(totalCount)
    {
      result := ApplyCreate(outcome, "Failed to create deployment");
    }

    /** `rollbackDeployment(id, targetDeploymentId, notes)` */
    method RollbackDeployment(id: int, targetDeploymentId: int, outcome: Api<Deployment>) returns (result: Api<Deployment>)
      modifies this`deployments, this`totalCount, this`isLoading, this`error
      ensures result == outcome && !isLoading && error == FailureMessage(outcome, "Failed to rollback deployment")
      ensures outcome.Ok? ==> deployments == [outcome.value] + old(deployments) && totalCount == old(totalCount) + 1
      ensures outcome.Err? ==> deployments == old(deployments) && totalCount == old(totalCount)
    {
      result := ApplyCreate(outcome, "Failed to rollback deployment");
    }

    /**
     * The update shared by `updateDeployment` and `updateStatus`: the first record with the id,
     * and the current record when its id matches, become the returned record.
     */
    method ApplyUpdate(id: int, outcome: Api<Deployment>, fallback: string) returns (result: Api<Deployment>)
      modifies this`deployments, this`currentDeployment, this`isLoading, this`error
      ensures result == outcome && !isLoading && error == FailureMessage(outcome, fallback)
      ensures outcome.Ok? ==> deployments == ReplaceFirst(old(deployments), DeploymentId, id, outcome.value)
      ensures outcome.Ok? ==> currentDeployment == PatchCurrent(old(currentDeployment), DeploymentId, id, outcome.value)
      ensures outcome.Err? ==> deployments == old(deployments) && currentDeployment == old(currentDeployment)
    {
      isLoading := true;
      error := None;
      match outcome {
        case Ok(x) =>
          deployments := ReplaceFirst(deployments, DeploymentId, id, x);
          currentDeployment := PatchCurrent(currentDeployment, DeploymentId, id, x);
        case Err(thrown) =>
          error := Some(ErrorMessage(thrown, fallback));
      }
      isLoading := false;
      result := outcome;
    }

    /** `updateDeployment(id, data)` */
    method UpdateDeployment(id: int, outcome: Api<Deployment>) returns (result: Api<Deployment>)
      modifies this`deployments, this`currentDeployment, this`isLoading, this`error
      ensures result == outcome && !isLoading && error == FailureMessage(outcome, "Failed to update deployment")
      ensures outcome.Ok? ==> deployments == ReplaceFirst(old(deployments), DeploymentId, id, outcome.value)
      ensures outcome.Ok? ==> currentDeployment == PatchCurrent(old(currentDeployment), DeploymentId, id, outcome.value)
      ensures outcome.Err? ==> deployments == old(deployments) && currentDeployment == old(currentDeployment)
    {
      result := ApplyUpdate(id, outcome, "Failed to update deployment");
    }

    /** `updateStatus(id, status)` */
    method UpdateStatus(id: int, outcome: Api<Deployment>) returns (result: Api<Deployment>)
      modifies this`deployments, this`currentDeployment, this`isLoading, this`error
      ensures result == outcome && !isLoading && error == FailureMessage(outcome, "Failed to update deployment status")
      ensures outcome.Ok? ==> deployments == ReplaceFirst(old(deployments), DeploymentId, id, outcome.value)
      ensures outcome.Ok? ==> currentDeployment == PatchCurrent(old(currentDeployment), DeploymentId, id, outcome.value)
      ensures outcome.Err? ==> deployments == old(deployments) && currentDeployment == old(currentDeployment)
    {
      result := ApplyUpdate(id, outcome, "Failed to update deployment status");
    }

    /** `deleteDeployment(id)`: every record with the id goes, the total drops by one whether or not one was loaded, and a matching current record is cleared. */
    method DeleteDeployment(id: int, outcome: Api<()>) returns (result: Api<()>)
      modifies this`deployments, this`totalCount, this`currentDeployment, this`isLoading, this`error
      ensures result == outcome && !isLoading && error == FailureMessage(outcome, "Failed to delete deployment")
      ensures outcome.Ok? ==> deployments == RemoveId(old(deployments), DeploymentId, id) && totalCount == old(totalCount) - 1
      ensures outcome.Ok? ==> currentDeployment == DropCurrent(old(currentDeployment), DeploymentId, id)
      ensures outcome.Err? ==> deployments == old(deployments) && totalCount == old(totalCount) && currentDeployment == old(currentDeployment)
    {
      isLoading := true;
      error := None;
      match outcome {
        case Ok(_) =>
          deployments := RemoveId(deployments, DeploymentId, id);
          totalCount := totalCount - 1;
          currentDeployment := DropCurrent(currentDeployment, DeploymentId, id);
        case Err(thrown) =>
          error := Some(ErrorMessage(thrown, "Failed to delete deployment"));
      }
      isLoading := false;
      result := outcome;
    }

    /** The list-only fetch of the four `fetchDeploymentsBy…` actions: items and total, not page and size. */
    method ApplyListOnly(outcome: Api<Paginated<Deployment>>, fallback: string) returns (result: Api<Paginated<Deployment>>)
      modifies this`deployments, this`totalCount, this`isLoading, this`error
      ensures result == outcome && !isLoading && error == FailureMessage(outcome, fallback)
      ensures outcome.Ok? ==> deployments == outcome.value.items && totalCount == outcome.value.total
      ensures outcome.Err? ==> deployments == old(deployments) && totalCount == old(totalCount)
    {
      isLoading := true;
      error := None;
      match outcome {
        case Ok(response) =>
          deployments := response.items;
          totalCount := response.total;
        case Err(thrown) =>
          error := Some(ErrorMessage(thrown, fallback));
      }
      isLoading := false;
      result := outcome;
    }

    /** `fetchDeploymentsByService(serviceId, params)` */
    method FetchDeploymentsByService(serviceId: int, outcome: Api<Paginated<Deployment>>) returns (result: Api<Paginated<Deployment>>)
      modifies this`deployments, this`totalCount, this`isLoading, this`error
      ensures result == outcome && !isLoading && error == FailureMessage(outcome, "Failed to fetch deployments by service")
      ensures outcome.Ok? ==> deployments == outcome.value.items && totalCount == outcome.value.total
      ensures outcome.Err? ==> deployments == old(deployments) && totalCount == old(totalCount)
    {
      result := ApplyListOnly(outcome, "Failed to fetch deployments by service");
    }

    /** `fetchDeploymentsByEnvironment(environment, params)` */
    method FetchDeploymentsByEnvironment(environment: string, outcome: Api<Paginated<Deployment>>) returns (result: Api<Paginated<Deployment>>)
      modifies this`deployments, this`totalCount, this`isLoading, this`error
      ensures result == outcome && !isLoading && error == FailureMessage(outcome, "Failed to fetch deployments by environment")
      ensures outcome.Ok? ==> deployments == outcome.value.items && totalCount == outcome.value.total
      ensures outcome.Err? ==> deployments == old(deployments) && totalCount == old(totalCount)
    {
      result := ApplyListOnly(outcome, "Failed to fetch deployments by environment");
    }

    /** `fetchDeploymentsByStatus(status, params)` */
    method FetchDeploymentsByStatus(status: string, outcome: Api<Paginated<Deployment>>) returns (result: Api<Paginated<Deployment>>)
      modifies this`deployments, this`totalCount, this`isLoading, this`error
      ensures result == outcome && !isLoading && error == FailureMessage(outcome, "Failed to fetch deployments by status")
      ensures outcome.Ok? ==> deployments == outcome.value.items && totalCount == outcome.value.total
      ensures outcome.Err? ==> deployments == old(deployments) && totalCount == old(totalCount)
    {
      result := ApplyListOnly(outcome, "Failed to fetch deployments by status");
    }

    /** `fetchDeploymentsByType(type, params)` */
    method FetchDeploymentsByType(deploymentType: string, outcome: Api<Paginated<Deployment>>) returns (result: Api<Paginated<Deployment>>)
      modifies this`deployments, this`totalCount, this`isLoading, this`error
      ensures result == outcome && !isLoading && error == FailureMessage(outcome, "Failed to fetch deployments by type")
      ensures outcome.Ok? ==> deployments == outcome.value.items && totalCount == outcome.value.total
      ensures outcome.Err? ==> deployments == old(deployments) && totalCount == old(totalCount)
    {
      result := ApplyListOnly(outcome, "Failed to fetch deployments by type");
    }

    /** `setSearchQuery`, `setServiceFilter`, `setEnvironmentFilter`, `setTypeFilter` and `setStatusFilter`: one filter changes and the page returns to 1. */
    method SetFilters(f: DeploymentFilters)
      modifies this`filters, this`currentPage
      ensures filters == f && currentPage == 1
    {
      filters := f;
      currentPage := 1;
    }

    /** `setSearchQuery(query)` */
    method SetSearchQuery(search: string)
      modifies this`filters, this`currentPage
      ensures filters == old(filters).(search := search) && currentPage == 1
    {
      SetFilters(filters.(search := search));
    }

    /** `setServiceFilter(serviceId)` */
    method SetServiceFilter(service: Option<int>)
      modifies this`filters, this`currentPage
      ensures filters == old(filters).(service := service) && currentPage == 1
    {
      SetFilters(filters.(service := service));
    }

    /** `setEnvironmentFilter(environment)` */
    method SetEnvironmentFilter(environment: string)
      modifies this`filters, this`currentPage
      ensures filters == old(filters).(environment := environment) && currentPage == 1
    {
      SetFilters(filters.(environment := environment));
    }

    /** `setTypeFilter(type)` */
    method SetTypeFilter(deploymentType: string)
      modifies this`filters, this`currentPage
      ensures filters == old(filters).(deploymentType := deploymentType) && currentPage == 1
    {
      SetFilters(filters.(deploymentType := deploymentType));
    }

    /** `setStatusFilter(status)` */
    method SetStatusFilter(status: string)
      modifies this`filters, this`currentPage
      ensures filters == old(filters).(status := status) && currentPage == 1
    {
      SetFilters(filters.(status := status));
    }

    /** `setPage(page)`: stored as given. */
    method SetPage(page: int)
      modifies this`currentPage
      ensures currentPage == page
    {
      currentPage := page;
    }

    /** `setPageSize(size)`: the page returns to 1. */
    method SetPageSize(size: int)
      modifies this`pageSize, this`currentPage
      ensures pageSize == size && currentPage == 1
    {
      pageSize := size;
      currentPage := 1;
    }

    /** `clearFilters()`: the service filter back to null, the others to empty, and page 1. */
    method ClearFilters()
      modifies this`filters, this`currentPage
      ensures filters == NoFilters && currentPage == 1
    {
      SetFilters(NoFilters);
    }

    /** `clearCurrentDeployment()` */
    method ClearCurrentDeployment()
      modifies this`currentDeployment
      ensures currentDeployment == None
    {
      currentDeployment := None;
    }

    /** `clearAll()`: the state the store starts in. */
    method ClearAll()
      modifies this
      ensures deployments == [] && currentDeployment == None && !isLoading && error == None
      ensures currentPage == 1 && pageSize == 20 && totalCount == 0 && filters == NoFilters
    {
      deployments := [];
      currentDeployment := None;
      isLoading := false;
      error := None;
      currentPage := 1;
      pageSize := 20;
      totalCount := 0;
      ClearFilters();
    }
  }
}
