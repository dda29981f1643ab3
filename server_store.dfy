/**
 * The server store: the loaded servers, the selected server, loading and
 * error flags, pagination counters and four filters; the environment and
 * status subsets and the filtered list; the query parameters a fetch sends;
 * and the actions, each given the outcome of its API call. The four filter
 * refs are kept together in one `ServerFilters` value.
 */
module ServerStore {
  import opened Wrappers
  import opened Text
  import opened JsValues
  import opened ListPatch
  import opened Models
  import opened StoreQuery

  datatype ServerFilters = ServerFilters(
    search: string,
    environment: string,
    serverType: string,
    status: string)

  /** The filters `clearFilters` restores. */
  const NoFilters := ServerFilters("", "", "", "")

  /** The search test: the name or the hostname, lowercased, contains the query; the IP address is searched as it is, without lowercasing. */
  predicate SearchHit(s: Server, query: string) {
    Contains(Lower(s.name), query) || Contains(Lower(s.hostname), query) || Contains(s.ipAddress, query)
  }

  /** The tests of the getter's stages. */
  function SearchTest(f: ServerFilters): Server -> bool { (s: Server) => SearchHit(s, Lower(f.search)) }
  function EnvironmentTest(f: ServerFilters): Server -> bool { (s: Server) => s.environment == f.environment }
  function TypeTest(f: ServerFilters): Server -> bool { (s: Server) => s.serverType == f.serverType }
  function StatusTest(f: ServerFilters): Server -> bool { (s: Server) => s.status == f.status }

  /** `filteredServers`, stage by stage as the getter narrows it. */
  function FilteredServers(servers: seq<Server>, f: ServerFilters): seq<Server> {
    var s1 := Stage(servers, f.search != "", SearchTest(f));
    var s2 := Stage(s1, f.environment != "", EnvironmentTest(f));
    var s3 := Stage(s2, f.serverType != "", TypeTest(f));
    Stage(s3, f.status != "", StatusTest(f))
  }

  /** A server passes the first `n` of the getter's four stages. */
  predicate PassesFirst(f: ServerFilters, s: Server, n: nat) {
    && (n >= 1 ==> f.search == "" || SearchHit(s, Lower(f.search)))
    && (n >= 2 ==> f.environment == "" || s.environment == f.environment)
    && (n >= 3 ==> f.serverType == "" || s.serverType == f.serverType)
    && (n >= 4 ==> f.status == "" || s.status == f.status)
  }

  function PassesTest(f: ServerFilters, n: nat): Server -> bool { (s: Server) => PassesFirst(f, s, n) }

  /** A server passes every non-empty filter. */
  predicate Matches(f: ServerFilters, s: Server) {
    && (f.search == "" || SearchHit(s, Lower(f.search)))
    && (f.environment == "" || s.environment == f.environment)
    && (f.serverType == "" || s.serverType == f.serverType)
    && (f.status == "" || s.status == f.status)
  }

  function MatchesTest(f: ServerFilters): Server -> bool { (s: Server) => Matches(f, s) }

  /** The staged getter keeps, in order, exactly the servers that pass every non-empty filter. */
  lemma FilteredServersExactly(servers: seq<Server>, f: ServerFilters)
    ensures FilteredServers(servers, f) == Keep(servers, MatchesTest(f))
  {
    var s1 := Stage(servers, f.search != "", SearchTest(f));
    assert s1 == Keep(servers, PassesTest(f, 1)) by { StageFirst(servers, f.search != "", SearchTest(f), PassesTest(f, 1)); }
    var s2 := Stage(s1, f.environment != "", EnvironmentTest(f));
    assert s2 == Keep(servers, PassesTest(f, 2)) by { StageAfterKeep(servers, PassesTest(f, 1), f.environment != "", EnvironmentTest(f), PassesTest(f, 2)); }
    var s3 := Stage(s2, f.serverType != "", TypeTest(f));
    assert s3 == Keep(servers, PassesTest(f, 3)) by { StageAfterKeep(servers, PassesTest(f, 2), f.serverType != "", TypeTest(f), PassesTest(f, 3)); }
    StageAfterKeep(servers, PassesTest(f, 3), f.status != "", StatusTest(f), PassesTest(f, 4));
    KeepExtensional(servers, PassesTest(f, 4), MatchesTest(f));
  }

  /** With no active filter the filtered list is the whole list. */
  lemma NoFiltersKeepAll(servers: seq<Server>)
    ensures FilteredServers(servers, NoFilters) == servers
  {
    FilteredServersExactly(servers, NoFilters);
    KeepEverything(servers, MatchesTest(NoFilters));
  }

  /** The search lowercases the query but not the IP address: a query with an upper-case letter never matches through the address. */
  lemma IpSearchIsCaseSensitive()
    ensures var s := Server(1, "db", "db", "FE80::1", "production", "database", "running");
      !SearchHit(s, Lower("FE80")) && Contains(s.ipAddress, "FE80")
  {
    var s := Server(1, "db", "db", "FE80::1", "production", "database", "running");
    var q := Lower("FE80");
    assert q == "fe80";
    assert !OccursAt(s.ipAddress, q, 0);
    assert OccursAt(s.ipAddress, "FE80", 0);
  }

  /** The servers in a given environment (`productionServers`, `stagingServers`, `developmentServers`). */
  function WithEnvironment(servers: seq<Server>, environment: string): (r: seq<Server>)
    ensures forall i :: 0 <= i < |r| ==> r[i].environment == environment
    ensures forall i :: 0 <= i < |servers| && servers[i].environment == environment ==> servers[i] in r
  {
    Keep(servers, (s: Server) => s.environment == environment)
  }

  /** The servers with a given status (`runningServers`, `stoppedServers`). */
  function WithStatus(servers: seq<Server>, status: string): (r: seq<Server>)
    ensures forall i :: 0 <= i < |r| ==> r[i].status == status
    ensures forall i :: 0 <= i < |servers| && servers[i].status == status ==> servers[i] in r
  {
    Keep(servers, (s: Server) => s.status == status)
  }

  /** The keys a set filter writes. */
  const FilterKeys: set<string> := {"search", "environment", "type", "status"}

  /** Whether `fetchServers` assigns a filter key: each filter when non-empty. */
  predicate FilterSet(f: ServerFilters, key: string) {
    if key == "search" then f.search != ""
    else if key == "environment" then f.environment != ""
    else if key == "type" then f.serverType != ""
    else if key == "status" then f.status != ""
    else false
  }

  /** The value `fetchServers` assigns to a filter key. */
  function FilterValue(f: ServerFilters, key: string): Value {
    if key == "search" then Str(f.search)
    else if key == "environment" then Str(f.environment)
    else if key == "type" then Str(f.serverType)
    else Str(f.status)
  }

  /** The assignments `fetchServers` makes after spreading the caller's params, one per set filter. */
  function FilterLayer(f: ServerFilters): (m: map<string, Value>)
    ensures m.Keys <= FilterKeys
    ensures forall k :: k in m <==> k in FilterKeys && FilterSet(f, k)
  {
    map k | k in FilterKeys && FilterSet(f, k) :: FilterValue(f, k)
  }

  /** The parameters `fetchServers` sends. */
  function ServerQueryParams(currentPage: int, pageSize: int, params: map<string, Value>, f: ServerFilters): map<string, Value> {
    QueryParams(currentPage, pageSize, params, FilterLayer(f))
  }

  /** Every non-empty filter sends its own value, an empty one leaves its key to the caller, and the store's page and size are sent unless the caller gives them. */
  lemma ServerQueryParamsLayers(currentPage: int, pageSize: int, params: map<string, Value>, f: ServerFilters)
    ensures var r := ServerQueryParams(currentPage, pageSize, params, f);
      && (f.search != "" ==> r["search"] == Str(f.search))
      && (f.environment != "" ==> r["environment"] == Str(f.environment))
      && (f.serverType != "" ==> r["type"] == Str(f.serverType))
      && (f.status != "" ==> r["status"] == Str(f.status))
    ensures var r := ServerQueryParams(currentPage, pageSize, params, f);
      && (f.search == "" ==> ("search" in r <==> "search" in params))
      && (f.environment == "" ==> ("environment" in r <==> "environment" in params))
      && (f.serverType == "" ==> ("type" in r <==> "type" in params))
      && (f.status == "" ==> ("status" in r <==> "status" in params))
    ensures var r := ServerQueryParams(currentPage, pageSize, params, f);
      && ("page" !in params ==> r["page"] == Num(currentPage))
      && ("size" !in params ==> r["size"] == Num(pageSize))
  {
    assert "page" !in FilterKeys && "size" !in FilterKeys;
  }

  class Store {
    var servers: seq<Server>
    var currentServer: Option<Server>
    var isLoading: bool
    var error: Option<string>
    var currentPage: int
    var pageSize: int
    var totalCount: int
    var filters: ServerFilters

    constructor ()
      ensures servers == [] && currentServer == None && !isLoading && error == None
      ensures currentPage == 1 && pageSize == 20 && totalCount == 0 && filters == NoFilters
    {
      servers := [];
      currentServer := None;
      isLoading := false;
      error := None;
      currentPage := 1;
      pageSize := 20;
      totalCount := 0;
      filters := NoFilters;
    }

    /** The `queryParams` object `fetchServers` builds from the store's state. */
    method BuildQueryParams(params: map<string, Value>) returns (sent: map<string, Value>)
      ensures sent == ServerQueryParams(currentPage, pageSize, params, filters)
    {
      sent := ServerQueryParams(currentPage, pageSize, params, filters);
    }

    /** What `fetchServers` does with the response: items, total, page and size are copied. */
    method ApplyPage(outcome: Api<Paginated<Server>>) returns (result: Api<Paginated<Server>>)
      modifies this`servers, this`totalCount, this`currentPage, this`pageSize, this`isLoading, this`error
      ensures result == outcome && !isLoading && error == FailureMessage(outcome, "Failed to fetch servers")
      ensures outcome.Ok? ==> servers == outcome.value.items && totalCount == outcome.value.total
      ensures outcome.Ok? ==> currentPage == outcome.value.page && pageSize == outcome.value.size
      ensures outcome.Err? ==> servers == old(servers) && totalCount == old(totalCount)
      ensures outcome.Err? ==> currentPage == old(currentPage) && pageSize == old(pageSize)
    {
      isLoading := true;
      error := None;
      match outcome {
        case Ok(response) =>
          servers := response.items;
          totalCount := response.total;
          currentPage := response.page;
          pageSize := response.size;
        case Err(thrown) =>
          error := Some(ErrorMessage(thrown, "Failed to fetch servers"));
      }
      isLoading := false;
      result := outcome;
    }

    /** `fetchServers(params)`: sends the layered parameters and copies items, total, page and size from the response. */
    method FetchServers(params: map<string, Value>, outcome: Api<Paginated<Server>>) returns (sent: map<string, Value>, result: Api<Paginated<Server>>)
      modifies this`servers, this`totalCount, this`currentPage, this`pageSize, this`isLoading, this`error
      ensures sent == ServerQueryParams(old(currentPage), old(pageSize), params, filters)
      ensures result == outcome && !isLoading && error == FailureMessage(outcome, "Failed to fetch servers")
      ensures outcome.Ok? ==> servers == outcome.value.items && totalCount == outcome.value.total
      ensures outcome.Ok? ==> currentPage == outcome.value.page && pageSize == outcome.value.size
      ensures outcome.Err? ==> servers == old(servers) && totalCount == old(totalCount)
      ensures outcome.Err? ==> currentPage == old(currentPage) && pageSize == old(pageSize)
    {
      sent := BuildQueryParams(params);
      result := ApplyPage(outcome);
    }

    /** `fetchServer(id)`: the fetched record becomes the current one. */
    method FetchServer(id: int, outcome: Api<Server>) returns (result: Api<Server>)
      modifies this`currentServer, this`isLoading, this`error
      ensures result == outcome && !isLoading && error == FailureMessage(outcome, "Failed to fetch server")
      ensures outcome.Ok? ==> currentServer == Some(outcome.value)
      ensures outcome.Err? ==> currentServer == old(currentServer)
    {
      isLoading := true;
      error := None;
      match outcome {
        case Ok(x) =>
          currentServer := Some(x);
        case Err(thrown) =>
          error := Some(ErrorMessage(thrown, "Failed to fetch server"));
      }
      isLoading := false;
      result := outcome;
    }

    /** `createServer(data)`: the new record goes first and the total grows by one. */
    method CreateServer(outcome: Api<Server>) returns (result: Api<Server>)
      modifies this`servers, this`totalCount, this`isLoading, this`error
      ensures result == outcome && !isLoading && error == FailureMessage(outcome, "Failed to create server")
      ensures outcome.Ok? ==> servers == [outcome.value] + old(servers) && totalCount == old(totalCount) + 1
      ensures outcome.Err? ==> servers == old(servers) && totalCount == old(totalCount)
    {
      isLoading := true;
      error := None;
      match outcome {
        case Ok(x) =>
          servers := [x] + servers;
          totalCount := totalCount + 1;
        case Err(thrown) =>
          error := Some(ErrorMessage(thrown, "Failed to create server"));
      }
      isLoading := false;
      result := outcome;
    }

    /**
     * The update shared by `updateServer` and `updateStatus`: the first record with the id,
     * and the current record when its id matches, become the returned record.
     */
    method ApplyUpdate(id: int, outcome: Api<Server>, fallback: string) returns (result: Api<Server>)
      modifies this`servers, this`currentServer, this`isLoading, this`error
      ensures result == outcome && !isLoading && error == FailureMessage(outcome, fallback)
      ensures outcome.Ok? ==> servers == ReplaceFirst(old(servers), ServerId, id, outcome.value)
      ensures outcome.Ok? ==> currentServer == PatchCurrent(old(currentServer), ServerId, id, outcome.value)
      ensures outcome.Err? ==> servers == old(servers) && currentServer == old(currentServer)
    {
      isLoading := true;
      error := None;
      match outcome {
        case Ok(x) =>
          servers := ReplaceFirst(servers, ServerId, id, x);
          currentServer := PatchCurrent(currentServer, ServerId, id, x);
        case Err(thrown) =>
          error := Some(ErrorMessage(thrown, fallback));
      }
      isLoading := false;
      result := outcome;
    }

    /** `updateServer(id, data)` */
    method UpdateServer(id: int, outcome: Api<Server>) returns (result: Api<Server>)
      modifies this`servers, this`currentServer, this`isLoading, this`error
      ensures result == outcome && !isLoading && error == FailureMessage(outcome, "Failed to update server")
      ensures outcome.Ok? ==> servers == ReplaceFirst(old(servers), ServerId, id, outcome.value)
      ensures outcome.Ok? ==> currentServer == PatchCurrent(old(currentServer), ServerId, id, outcome.value)
      ensures outcome.Err? ==> servers == old(servers) && currentServer == old(currentServer)
    {
      result := ApplyUpdate(id, outcome, "Failed to update server");
    }

    /** `updateStatus(id, status)` */
    method UpdateStatus(id: int, outcome: Api<Server>) returns (result: Api<Server>)
      modifies this`servers, this`currentServer, this`isLoading, this`error
      ensures result == outcome && !isLoading && error == FailureMessage(outcome, "Failed to update server status")
      ensures outcome.Ok? ==> servers == ReplaceFirst(old(servers), ServerId, id, outcome.value)
      ensures outcome.Ok? ==> currentServer == PatchCurrent(old(currentServer), ServerId, id, outcome.value)
      ensures outcome.Err? ==> servers == old(servers) && currentServer == old(currentServer)
    {
      result := ApplyUpdate(id, outcome, "Failed to update server status");
    }

    /** `deleteServer(id)`: every record with the id goes, the total drops by one whether or not one was loaded, and a matching current record is cleared. */
    method DeleteServer(id: int, outcome: Api<()>) returns (result: Api<()>)
      modifies this`servers, this`totalCount, this`currentServer, this`isLoading, this`error
      ensures result == outcome && !isLoading && error == FailureMessage(outcome, "Failed to delete server")
      ensures outcome.Ok? ==> servers == RemoveId(old(servers), ServerId, id) && totalCount == old(totalCount) - 1
      ensures outcome.Ok? ==> currentServer == DropCurrent(old(currentServer), ServerId, id)
      ensures outcome.Err? ==> servers == old(servers) && totalCount == old(totalCount) && currentServer == old(currentServer)
    {
      isLoading := true;
      error := None;
      match outcome {
        case Ok(_) =>
          servers := RemoveId(servers, ServerId, id);
          totalCount := totalCount - 1;
          currentServer := DropCurrent(currentServer, ServerId, id);
        case Err(thrown) =>
          error := Some(ErrorMessage(thrown, "Failed to delete server"));
      }
      isLoading := false;
      result := outcome;
    }

    /** `setSearchQuery`, `setEnvironmentFilter`, `setTypeFilter` and `setStatusFilter`: one filter changes and the page returns to 1. */
    method SetFilters(f: ServerFilters)
      modifies this`filters, this`currentPage
      ensures filters == f && currentPage == 1
    {
      filters := f;
      currentPage := 1;
    }

    /** `setSearchQuery(query)` */
    method SetSearchQuery(search: string)
      modifies this`filters, this`currentPage
      ensures filters == old(filters).(search := search) && currentPage == 1
    {
      SetFilters(filters.(search := search));
    }

    /** `setEnvironmentFilter(environment)` */
    method SetEnvironmentFilter(environment: string)
      modifies this`filters, this`currentPage
      ensures filters == old(filters).(environment := environment) && currentPage == 1
    {
      SetFilters(filters.(environment := environment));
    }

    /** `setTypeFilter(type)` */
    method SetTypeFilter(serverType: string)
      modifies this`filters, this`currentPage
      ensures filters == old(filters).(serverType := serverType) && currentPage == 1
    {
      SetFilters(filters.(serverType := serverType));
    }

    /** `setStatusFilter(status)` */
    method SetStatusFilter(status: string)
      modifies this`filters, this`currentPage
      ensures filters == old(filters).(status := status) && currentPage == 1
    {
      SetFilters(filters.(status := status));
    }

    /** `setPage(page)`: stored as given. */
    method SetPage(page: int)
      modifies this`currentPage
      ensures currentPage == page
    {
      currentPage := page;
    }

    /** `setPageSize(size)`: the page returns to 1. */
    method SetPageSize(size: int)
      modifies this`pageSize, this`currentPage
      ensures pageSize == size && currentPage == 1
    {
      pageSize := size;
      currentPage := 1;
    }

    /** `clearFilters()`: every filter back to empty, and page 1. */
    method ClearFilters()
      modifies this`filters, this`currentPage
      ensures filters == NoFilters && currentPage == 1
    {
      SetFilters(NoFilters);
    }

    /** `clearCurrentServer()` */
    method ClearCurrentServer()
      modifies this`currentServer
      ensures currentServer == None
    {
      currentServer := None;
    }

    /** `clearAll()`: the state the store starts in. */
    method ClearAll()
      modifies this
      ensures servers == [] && currentServer == None && !isLoading && error == None
      ensures currentPage == 1 && pageSize == 20 && totalCount == 0 && filters == NoFilters
    {
      servers := [];
      currentServer := None;
      isLoading := false;
      error := None;
      currentPage := 1;
      pageSize := 20;
      totalCount := 0;
      ClearFilters();
    }
  }
}
