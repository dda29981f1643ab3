/**
 * The service store: the loaded services, the selected service, loading and
 * error flags, pagination counters and four filters; the type and status
 * subsets and the filtered list; the query parameters a fetch sends; and the
 * actions, each given the outcome of its API call. The four filter refs are
 * kept together in one `ServiceFilters` value.
 */
module ServiceStore {
  import opened Wrappers
  import opened Text
  import opened JsValues
  import opened ListPatch
  import opened Models
  import opened StoreQuery

  datatype ServiceFilters = ServiceFilters(
    search: string,
    server: Option<int>,
    serviceType: string,
    status: string)

  /** The filters `clearFilters` restores. */
  const NoFilters := ServiceFilters("", None, "", "")

  /** The search test: the name, or a truthy description or url, contains the lowercased query. */
  predicate SearchHit(s: Service, query: string) {
    Contains(Lower(s.name), query) || OptionalTextHit(s.description, query) || OptionalTextHit(s.url, query)
  }

  /** The tests of the getter's stages. */
  function SearchTest(f: ServiceFilters): Service -> bool { (s: Service) => SearchHit(s, Lower(f.search)) }
  function ServerTest(f: ServiceFilters): Service -> bool { (s: Service) => Some(s.serverId) == f.server }
  function TypeTest(f: ServiceFilters): Service -> bool { (s: Service) => s.serviceType == f.serviceType }
  function StatusTest(f: ServiceFilters): Service -> bool { (s: Service) => s.status == f.status }

  /** `filteredServices`, stage by stage as the getter narrows it. */
  function FilteredServices(services: seq<Service>, f: ServiceFilters): seq<Service> {
    var s1 := Stage(services, f.search != "", SearchTest(f));
    var s2 := Stage(s1, f.server.Some?, ServerTest(f));
    var s3 := Stage(s2, f.serviceType != "", TypeTest(f));
    Stage(s3, f.status != "", StatusTest(f))
  }

  /** A service passes the first `n` of the getter's four stages. */
  predicate PassesFirst(f: ServiceFilters, s: Service, n: nat) {
    && (n >= 1 ==> f.search == "" || SearchHit(s, Lower(f.search)))
    && (n >= 2 ==> f.server.None? || Some(s.serverId) == f.server)
    && (n >= 3 ==> f.serviceType == "" || s.serviceType == f.serviceType)
    && (n >= 4 ==> f.status == "" || s.status == f.status)
  }

  function PassesTest(f: ServiceFilters, n: nat): Service -> bool { (s: Service) => PassesFirst(f, s, n) }

  /** A service passes every active filter; empty strings and a null server are inactive, while server 0 is a filter. */
  predicate Matches(f: ServiceFilters, s: Service) {
    && (f.search == "" || SearchHit(s, Lower(f.search)))
    && (f.server.None? || Some(s.serverId) == f.server)
    && (f.serviceType == "" || s.serviceType == f.serviceType)
    && (f.status == "" || s.status == f.status)
  }

  function MatchesTest(f: ServiceFilters): Service -> bool { (s: Service) => Matches(f, s) }

  /** The staged getter keeps, in order, exactly the services that pass every active filter. */
  lemma FilteredServicesExactly(services: seq<Service>, f: ServiceFilters)
    ensures FilteredServices(services, f) == Keep(services, MatchesTest(f))
  {
    var s1 := Stage(services, f.search != "", SearchTest(f));
    assert s1 == Keep(services, PassesTest(f, 1)) by { StageFirst(services, f.search != "", SearchTest(f), PassesTest(f, 1)); }
    var s2 := Stage(s1, f.server.Some?, ServerTest(f));
    assert s2 == Keep(services, PassesTest(f, 2)) by { StageAfterKeep(services, PassesTest(f, 1), f.server.Some?, ServerTest(f), PassesTest(f, 2)); }
    var s3 := Stage(s2, f.serviceType != "", TypeTest(f));
    assert s3 == Keep(services, PassesTest(f, 3)) by { StageAfterKeep(services, PassesTest(f, 2), f.serviceType != "", TypeTest(f), PassesTest(f, 3)); }
    StageAfterKeep(services, PassesTest(f, 3), f.status != "", StatusTest(f), PassesTest(f, 4));
    KeepExtensional(services, PassesTest(f, 4), MatchesTest(f));
  }

  /** With no active filter the filtered list is the whole list. */
  lemma NoFiltersKeepAll(services: seq<Service>)
    ensures FilteredServices(services, NoFilters) == services
  {
    FilteredServicesExactly(services, NoFilters);
    KeepEverything(services, MatchesTest(NoFilters));
  }

  /** The services of a given type (`webServices` … `cronServices`). */
  function WithType(services: seq<Service>, serviceType: string): (r: seq<Service>)
    ensures forall i :: 0 <= i < |r| ==> r[i].serviceType == serviceType
    ensures forall i :: 0 <= i < |services| && services[i].serviceType == serviceType ==> services[i] in r
  {
    Keep(services, (s: Service) => s.serviceType == serviceType)
  }

  /** The services with a given status (`runningServices`, `stoppedServices`). */
  function WithStatus(services: seq<Service>, status: string): (r: seq<Service>)
    ensures forall i :: 0 <= i < |r| ==> r[i].status == status
    ensures forall i :: 0 <= i < |services| && services[i].status == status ==> services[i] in r
  {
    Keep(services, (s: Service) => s.status == status)
  }

  /** The keys a set filter writes. */
  const FilterKeys: set<string> := {"search", "server_id", "type", "status"}

  /** Whether `fetchServices` assigns a filter key: the strings when non-empty, the server when not null. */
  predicate FilterSet(f: ServiceFilters, key: string) {
    if key == "search" then f.search != ""
    else if key == "server_id" then f.server.Some?
    else if key == "type" then f.serviceType != ""
    else if key == "status" then f.status != ""
    else false
  }

  /** The value `fetchServices` assigns to a filter key. */
  function FilterValue(f: ServiceFilters, key: string): Value {
    if key == "search" then Str(f.search)
    else if key == "server_id" then Num(if f.server.Some? then f.server.value else 0)
    else if key == "type" then Str(f.serviceType)
    else Str(f.status)
  }

  /** The assignments `fetchServices` makes after spreading the caller's params, one per set filter. */
  function FilterLayer(f: ServiceFilters): (m: map<string, Value>)
    ensures m.Keys <= FilterKeys
    ensures forall k :: k in m <==> k in FilterKeys && FilterSet(f, k)
  {
    map k | k in FilterKeys && FilterSet(f, k) :: FilterValue(f, k)
  }

  /** The parameters `fetchServices` sends. */
  function ServiceQueryParams(currentPage: int, pageSize: int, params: map<string, Value>, f: ServiceFilters): map<string, Value> {
    QueryParams(currentPage, pageSize, params, FilterLayer(f))
  }

  /**
   * Every set filter sends its own value (a server id of 0 included), an
   * unset filter leaves its key to the caller, and the store's page and size
   * are sent unless the caller gives them.
   */
  lemma ServiceQueryParamsLayers(currentPage: int, pageSize: int, params: map<string, Value>, f: ServiceFilters)
    ensures var r := ServiceQueryParams(currentPage, pageSize, params, f);
      && (f.search != "" ==> r["search"] == Str(f.search))
      && (f.server.Some? ==> r["server_id"] == Num(f.server.value))
      && (f.serviceType != "" ==> r["type"] == Str(f.serviceType))
      && (f.status != "" ==> r["status"] == Str(f.status))
    ensures var r := ServiceQueryParams(currentPage, pageSize, params, f);
      && (f.search == "" ==> ("search" in r <==> "search" in params))
      && (f.server.None? ==> ("server_id" in r <==> "server_id" in params))
      && (f.serviceType == "" ==> ("type" in r <==> "type" in params))
      && (f.status == "" ==> ("status" in r <==> "status" in params))
    ensures var r := ServiceQueryParams(currentPage, pageSize, params, f);
      && ("page" !in params ==> r["page"] == Num(currentPage))
      && ("size" !in params ==> r["size"] == Num(pageSize))
  {
    assert "page" !in FilterKeys && "size" !in FilterKeys;
  }

  class Store {
    var services: seq<Service>
    var currentService: Option<Service>
    var isLoading: bool
    var error: Option<string>
    var currentPage: int
    var pageSize: int
    var totalCount: int
    var filters: ServiceFilters

    constructor ()
      ensures services == [] && currentService == None && !isLoading && error == None
      ensures currentPage == 1 && pageSize == 20 && totalCount == 0 && filters == NoFilters
    {
      services := [];
      currentService := None;
      isLoading := false;
      error := None;
      currentPage := 1;
      pageSize := 20;
      totalCount := 0;
      filters := NoFilters;
    }

    /** The `queryParams` object `fetchServices` builds from the store's state. */
    method BuildQueryParams(params: map<string, Value>) returns (sent: map<string, Value>)
      ensures sent == ServiceQueryParams(currentPage, pageSize, params, filters)
    {
      sent := ServiceQueryParams(currentPage, pageSize, params, filters);
    }

    /** What `fetchServices` does with the response: items, total, page and size are copied. */
    method ApplyPage(outcome: Api<Paginated<Service>>) returns (result: Api<Paginated<Service>>)
      modifies this`services, this`totalCount, this`currentPage, this`pageSize, this`isLoading, this`error
      ensures result == outcome && !isLoading && error == FailureMessage(outcome, "Failed to fetch services")
      ensures outcome.Ok? ==> services == outcome.value.items && totalCount == outcome.value.total
      ensures outcome.Ok? ==> currentPage == outcome.value.page && pageSize == outcome.value.size
      ensures outcome.Err? ==> services == old(services) && totalCount == old(totalCount)
      ensures outcome.Err? ==> currentPage == old(currentPage) && pageSize == old(pageSize)
    {
      isLoading := true;
      error := None;
      match outcome {
        case Ok(response) =>
          services := response.items;
          totalCount := response.total;
          currentPage := response.page;
          pageSize := response.size;
        case Err(thrown) =>
          error := Some(ErrorMessage(thrown, "Failed to fetch services"));
      }
      isLoading := false;
      result := outcome;
    }

    /** `fetchServices(params)`: sends the layered parameters and copies items, total, page and size from the response. */
    method FetchServices(params: map<string, Value>, outcome: Api<Paginated<Service>>) returns (sent: map<string, Value>, result: Api<Paginated<Service>>)
      modifies this`services, this`totalCount, this`currentPage, this`pageSize, this`isLoading, this`error
      ensures sent == ServiceQueryParams(old(currentPage), old(pageSize), params, filters)
      ensures result == outcome && !isLoading && error == FailureMessage(outcome, "Failed to fetch services")
      ensures outcome.Ok? ==> services == outcome.value.items && totalCount == outcome.value.total
      ensures outcome.Ok? ==> currentPage == outcome.value.page && pageSize == outcome.value.size
      ensures outcome.Err? ==> services == old(services) && totalCount == old(totalCount)
      ensures outcome.Err? ==> currentPage == old(currentPage) && pageSize == old(pageSize)
    {
      sent := BuildQueryParams(params);
      result := ApplyPage(outcome);
    }

    /** `fetchService(id)`: the fetched record becomes the current one. */
    method FetchService(id: int, outcome: Api<Service>) returns (result: Api<Service>)
      modifies this`currentService, this`isLoading, this`error
      ensures result == outcome && !isLoading && error == FailureMessage(outcome, "Failed to fetch service")
      ensures outcome.Ok? ==> currentService == Some(outcome.value)
      ensures outcome.Err? ==> currentService == old(currentService)
    {
      isLoading := true;
      error := None;
      match outcome {
        case Ok(x) =>
          currentService := Some(x);
        case Err(thrown) =>
          error := Some(ErrorMessage(thrown, "Failed to fetch service"));
      }
      isLoading := false;
      result := outcome;
    }

    /** `createService(data)`: the new record goes first and the total grows by one. */
    method CreateService(outcome: Api<Service>) returns (result: Api<Service>)
      modifies this`services, this`totalCount, this`isLoading, this`error
      ensures result == outcome && !isLoading && error == FailureMessage(outcome, "Failed to create service")
      ensures outcome.Ok? ==> services == [outcome.value] + old(services) && totalCount == old(totalCount) + 1
      ensures outcome.Err? ==> services == old(services) && totalCount == old(totalCount)
    {
      isLoading := true;
      error := None;
      match outcome {
        case Ok(x) =>
          services := [x] + services;
          totalCount := totalCount + 1;
        case Err(thrown) =>
          error := Some(ErrorMessage(thrown, "Failed to create service"));
      }
      isLoading := false;
      result := outcome;
    }

    /**
     * The update shared by `updateService` and `updateStatus`: the first record with the id,
     * and the current record when its id matches, become the returned record.
     */
    method ApplyUpdate(id: int, outcome: Api<Service>, fallback: string) returns (result: Api<Service>)
      modifies this`services, this`currentService, this`isLoading, this`error
      ensures result == outcome && !isLoading && error == FailureMessage(outcome, fallback)
      ensures outcome.Ok? ==> services == ReplaceFirst(old(services), ServiceId, id, outcome.value)
      ensures outcome.Ok? ==> currentService == PatchCurrent(old(currentService), ServiceId, id, outcome.value)
      ensures outcome.Err? ==> services == old(services) && currentService == old(currentService)
    {
      isLoading := true;
      error := None;
      match outcome {
        case Ok(x) =>
          services := ReplaceFirst(services, ServiceId, id, x);
          currentService := PatchCurrent(currentService, ServiceId, id, x);
        case Err(thrown) =>
          error := Some(ErrorMessage(thrown, fallback));
      }
      isLoading := false;
      result := outcome;
    }

    /** `updateService(id, data)` */
    method UpdateService(id: int, outcome: Api<Service>) returns (result: Api<Service>)
      modifies this`services, this`currentService, this`isLoading, this`error
      ensures result == outcome && !isLoading && error == FailureMessage(outcome, "Failed to update service")
      ensures outcome.Ok? ==> services == ReplaceFirst(old(services), ServiceId, id, outcome.value)
      ensures outcome.Ok? ==> currentService == PatchCurrent(old(currentService), ServiceId, id, outcome.value)
      ensures outcome.Err? ==> services == old(services) && currentService == old(currentService)
    {
      result := ApplyUpdate(id, outcome, "Failed to update service");
    }

    /** `updateStatus(id, status)` */
    method UpdateStatus(id: int, outcome: Api<Service>) returns (result: Api<Service>)
      modifies this`services, this`currentService, this`isLoading, this`error
      ensures result == outcome && !isLoading && error == FailureMessage(outcome, "Failed to update service status")
      ensures outcome.Ok? ==> services == ReplaceFirst(old(services), ServiceId, id, outcome.value)
      ensures outcome.Ok? ==> currentService == PatchCurrent(old(currentService), ServiceId, id, outcome.value)
      ensures outcome.Err? ==> services == old(services) && currentService == old(currentService)
    {
      result := ApplyUpdate(id, outcome, "Failed to update service status");
    }

    /** `deleteService(id)`: every record with the id goes, the total drops by one whether or not one was loaded, and a matching current record is cleared. */
    method DeleteService(id: int, outcome: Api<()>) returns (result: Api<()>)
      modifies this`services, this`totalCount, this`currentService, this`isLoading, this`error
      ensures result == outcome && !isLoading && error == FailureMessage(outcome, "Failed to delete service")
      ensures outcome.Ok? ==> services == RemoveId(old(services), ServiceId, id) && totalCount == old(totalCount) - 1
      ensures outcome.Ok? ==> currentService == DropCurrent(old(currentService), ServiceId, id)
      ensures outcome.Err? ==> services == old(services) && totalCount == old(totalCount) && currentService == old(currentService)
    {
      isLoading := true;
      error := None;
      match outcome {
        case Ok(_) =>
          services := RemoveId(services, ServiceId, id);
          totalCount := totalCount - 1;
          currentService := DropCurrent(currentService, ServiceId, id);
        case Err(thrown) =>
          error := Some(ErrorMessage(thrown, "Failed to delete service"));
      }
      isLoading := false;
      result := outcome;
    }

    /** The list-only fetch of `fetchServicesByServer` and `fetchServicesByType`: items and total, not page and size. */
    method ApplyListOnly(outcome: Api<Paginated<Service>>, fallback: string) returns (result: Api<Paginated<Service>>)
      modifies this`services, this`totalCount, this`isLoading, this`error
      ensures result == outcome && !isLoading && error == FailureMessage(outcome, fallback)
      ensures outcome.Ok? ==> services == outcome.value.items && totalCount == outcome.value.total
      ensures outcome.Err? ==> services == old(services) && totalCount == old(totalCount)
    {
      isLoading := true;
      error := None;
      match outcome {
        case Ok(response) =>
          services := response.items;
          totalCount := response.total;
        case Err(thrown) =>
          error := Some(ErrorMessage(thrown, fallback));
      }
      isLoading := false;
      result := outcome;
    }

    /** `fetchServicesByServer(serverId, params)` */
    method FetchServicesByServer(serverId: int, outcome: Api<Paginated<Service>>) returns (result: Api<Paginated<Service>>)
      modifies this`services, this`totalCount, this`isLoading, this`error
      ensures result == outcome && !isLoading && error == FailureMessage(outcome, "Failed to fetch services by server")
      ensures outcome.Ok? ==> services == outcome.value.items && totalCount == outcome.value.total
      ensures outcome.Err? ==> services == old(services) && totalCount == old(totalCount)
    {
      result := ApplyListOnly(outcome, "Failed to fetch services by server");
    }

    /** `fetchServicesByType(type, params)` */
    method FetchServicesByType(serviceType: string, outcome: Api<Paginated<Service>>) returns (result: Api<Paginated<Service>>)
      modifies this`services, this`totalCount, this`isLoading, this`error
      ensures result == outcome && !isLoading && error == FailureMessage(outcome, "Failed to fetch services by type")
      ensures outcome.Ok? ==> services == outcome.value.items && totalCount == outcome.value.total
      ensures outcome.Err? ==> services == old(services) && totalCount == old(totalCount)
    {
      result := ApplyListOnly(outcome, "Failed to fetch services by type");
    }

    /** `setSearchQuery`, `setServerFilter`, `setTypeFilter` and `setStatusFilter`: one filter changes and the page returns to 1. */
    method SetFilters(f: ServiceFilters)
      modifies this`filters, this`currentPage
      ensures filters == f && currentPage == 1
    {
      filters := f;
      currentPage := 1;
    }

    /** `setSearchQuery(query)` */
    method SetSearchQuery(search: string)
      modifies this`filters, this`currentPage
      ensures filters == old(filters).(search := search) && currentPage == 1
    {
      SetFilters(filters.(search := search));
    }

    /** `setServerFilter(serverId)` */
    method SetServerFilter(server: Option<int>)
      modifies this`filters, this`currentPage
      ensures filters == old(filters).(server := server) && currentPage == 1
    {
      SetFilters(filters.(server := server));
    }

    /** `setTypeFilter(type)` */
    method SetTypeFilter(serviceType: string)
      modifies this`filters, this`currentPage
      ensures filters == old(filters).(serviceType := serviceType) && currentPage == 1
    {
      SetFilters(filters.(serviceType := serviceType));
    }

    /** `setStatusFilter(status)` */
    method SetStatusFilter(status: string)
      modifies this`filters, this`currentPage
      ensures filters == old(filters).(status := status) && currentPage == 1
    {
      SetFilters(filters.(status := status));
    }

    /** `setPage(page)`: stored as given. */
    method SetPage(page: int)
      modifies this`currentPage
      ensures currentPage == page
    {
      currentPage := page;
    }

    /** `setPageSize(size)`: the page returns to 1. */
    method SetPageSize(size: int)
      modifies this`pageSize, this`currentPage
      ensures pageSize == size && currentPage == 1
    {
      pageSize := size;
      currentPage := 1;
    }

    /** `clearFilters()`: the server filter back to null, the others to empty, and page 1. */
    method ClearFilters()
      modifies this`filters, this`currentPage
      ensures filters == NoFilters && currentPage == 1
    {
      SetFilters(NoFilters);
    }

    /** `clearCurrentService()` */
    method ClearCurrentService()
      modifies this`currentService
      ensures currentService == None
    {
      currentService := None;
    }

    /** `clearAll()`: the state the store starts in. */
    method ClearAll()
      modifies this
      ensures services == [] && currentService == None && !isLoading && error == None
      ensures currentPage == 1 && pageSize == 20 && totalCount == 0 && filters == NoFilters
    {
      services := [];
      currentService := None;
      isLoading := false;
      error := None;
      currentPage := 1;
      pageSize := 20;
      totalCount := 0;
      ClearFilters();
    }
  }
}
