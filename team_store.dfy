/**
 * The team store: the loaded teams, the selected team, its member list and
 * its statistics, loading and error flags, pagination counters and a search
 * query; the filtered list; and the team and team-member actions, each given
 * the outcome of its API call. Member actions touch only the member list.
 */
module TeamStore {
  import opened Wrappers
  import opened Text
  import opened JsValues
  import opened ListPatch
  import opened Models
  import opened StoreQuery

  /** The search test: the name, or the description when there is one, contains the lowercased query. */
  predicate SearchHit(t: Team, query: string) {
    Contains(Lower(t.name), query) || (t.description.Some? && Contains(Lower(t.description.value), query))
  }

  function SearchTest(search: string): Team -> bool { (t: Team) => SearchHit(t, Lower(search)) }

  /** `filteredTeams`: one search stage. */
  function FilteredTeams(teams: seq<Team>, search: string): seq<Team> {
    Stage(teams, search != "", SearchTest(search))
  }

  /** A team passes the search when the query is empty or is found in it. */
  predicate Matches(search: string, t: Team) { search == "" || SearchHit(t, Lower(search)) }

  function MatchesTest(search: string): Team -> bool { (t: Team) => Matches(search, t) }

  /** The getter keeps, in order, exactly the teams the search finds, and every team when the query is empty. */
  lemma FilteredTeamsExactly(teams: seq<Team>, search: string)
    ensures FilteredTeams(teams, search) == Keep(teams, MatchesTest(search))
    ensures search == "" ==> FilteredTeams(teams, search) == teams
  {
    StageFirst(teams, search != "", SearchTest(search), MatchesTest(search));
  }

  /** The parameters `fetchTeams` sends. */
  function TeamQueryParams(currentPage: int, pageSize: int, params: map<string, Value>, search: string): map<string, Value> {
    QueryParams(currentPage, pageSize, params, SearchLayer(search))
  }

  class Store {
    var teams: seq<Team>
    var currentTeam: Option<Team>
    var teamMembers: seq<TeamMember>
    var isLoading: bool
    var error: Option<string>
    var currentPage: int
    var pageSize: int
    var totalCount: int
    var searchQuery: string
    var currentTeamStats: Option<TeamStats>

    constructor ()
      ensures teams == [] && currentTeam == None && teamMembers == [] && !isLoading && error == None
      ensures currentPage == 1 && pageSize == 20 && totalCount == 0 && searchQuery == "" && currentTeamStats == None
    {
      teams := [];
      currentTeam := None;
      teamMembers := [];
      isLoading := false;
      error := None;
      currentPage := 1;
      pageSize := 20;
      totalCount := 0;
      searchQuery := "";
      currentTeamStats := None;
    }

    /** The `queryParams` object `fetchTeams` builds from the store's state. */
    method BuildQueryParams(params: map<string, Value>) returns (sent: map<string, Value>)
      ensures sent == TeamQueryParams(currentPage, pageSize, params, searchQuery)
    {
      sent := TeamQueryParams(currentPage, pageSize, params, searchQuery);
    }

    /** What `fetchTeams` does with the response: items, total, page and size are copied. */
    method ApplyPage(outcome: Api<Paginated<Team>>) returns (result: Api<Paginated<Team>>)
      modifies this`teams, this`totalCount, this`currentPage, this`pageSize, this`isLoading, this`error
      ensures result == outcome && !isLoading && error == FailureMessage(outcome, "Failed to fetch teams")
      ensures outcome.Ok? ==> teams == outcome.value.items && totalCount == outcome.value.total
      ensures outcome.Ok? ==> currentPage == outcome.value.page && pageSize == outcome.value.size
      ensures outcome.Err? ==> teams == old(teams) && totalCount == old(totalCount)
      ensures outcome.Err? ==> currentPage == old(currentPage) && pageSize == old(pageSize)
    {
      isLoading := true;
      error := None;
      match outcome {
        case Ok(response) =>
          teams := response.items;
          totalCount := response.total;
          currentPage := response.page;
          pageSize := response.size;
        case Err(thrown) =>
          error := Some(ErrorMessage(thrown, "Failed to fetch teams"));
      }
      isLoading := false;
      result := outcome;
    }

    /** `fetchTeams(params)`: sends the layered parameters and copies items, total, page and size from the response. */
    method FetchTeams(params: map<string, Value>, outcome: Api<Paginated<Team>>) returns (sent: map<string, Value>, result: Api<Paginated<Team>>)
      modifies this`teams, this`totalCount, this`currentPage, this`pageSize, this`isLoading, this`error
      ensures sent == TeamQueryParams(old(currentPage), old(pageSize), params, searchQuery)
      ensures result == outcome && !isLoading && error == FailureMessage(outcome, "Failed to fetch teams")
      ensures outcome.Ok? ==> teams == outcome.value.items && totalCount == outcome.value.total
      ensures outcome.Ok? ==> currentPage == outcome.value.page && pageSize == outcome.value.size
      ensures outcome.Err? ==> teams == old(teams) && totalCount == old(totalCount)
      ensures outcome.Err? ==> currentPage == old(currentPage) && pageSize == old(pageSize)
    {
      sent := BuildQueryParams(params);
      result := ApplyPage(outcome);
    }

    /** `fetchTeam(id)`: the fetched team becomes the current one. */
    method FetchTeam(id: int, outcome: Api<Team>) returns (result: Api<Team>)
      modifies this`currentTeam, this`isLoading, this`error
      ensures result == outcome && !isLoading && error == FailureMessage(outcome, "Failed to fetch team")
      ensures outcome.Ok? ==> currentTeam == Some(outcome.value)
      ensures outcome.Err? ==> currentTeam == old(currentTeam)
    {
      isLoading := true;
      error := None;
      match outcome {
        case Ok(x) =>
          currentTeam := Some(x);
        case Err(thrown) =>
          error := Some(ErrorMessage(thrown, "Failed to fetch team"));
      }
      isLoading := false;
      result := outcome;
    }

    /** `createTeam(data)`: the new team goes first and the total grows by one. */
    method CreateTeam(outcome: Api<Team>) returns (result: Api<Team>)
      modifies this`teams, this`totalCount, this`isLoading, this`error
      ensures result == outcome && !isLoading && error == FailureMessage(outcome, "Failed to create team")
      ensures outcome.Ok? ==> teams == [outcome.value] + old(teams) && totalCount == old(totalCount) + 1
      ensures outcome.Err? ==> teams == old(teams) && totalCount == old(totalCount)
    {
      isLoading := true;
      error := None;
      match outcome {
        case Ok(x) =>
          teams := [x] + teams;
          totalCount := totalCount + 1;
        case Err(thrown) =>
          error := Some(ErrorMessage(thrown, "Failed to create team"));
      }
      isLoading := false;
      result := outcome;
    }

    /** `updateTeam(id, data)`: the first team with the id, and the current team when its id matches, become the returned team. */
    method UpdateTeam(id: int, outcome: Api<Team>) returns (result: Api<Team>)
      modifies this`teams, this`currentTeam, this`isLoading, this`error
      ensures result == outcome && !isLoading && error == FailureMessage(outcome, "Failed to update team")
      ensures outcome.Ok? ==> teams == ReplaceFirst(old(teams), TeamId, id, outcome.value)
      ensures outcome.Ok? ==> currentTeam == PatchCurrent(old(currentTeam), TeamId, id, outcome.value)
      ensures outcome.Err? ==> teams == old(teams) && currentTeam == old(currentTeam)
    {
      isLoading := true;
      error := None;
      match outcome {
        case Ok(x) =>
          teams := ReplaceFirst(teams, TeamId, id, x);
          currentTeam := PatchCurrent(currentTeam, TeamId, id, x);
        case Err(thrown) =>
          error := Some(ErrorMessage(thrown, "Failed to update team"));
      }
      isLoading := false;
      result := outcome;
    }

    /** `deleteTeam(id)`: every team with the id goes, the total drops by one whether or not one was loaded, and a matching current team is cleared. */
    method DeleteTeam(id: int, outcome: Api<()>) returns (result: Api<()>)
      modifies this`teams, this`totalCount, this`currentTeam, this`isLoading, this`error
      ensures result == outcome && !isLoading && error == FailureMessage(outcome, "Failed to delete team")
      ensures outcome.Ok? ==> teams == RemoveId(old(teams), TeamId, id) && totalCount == old(totalCount) - 1
      ensures outcome.Ok? ==> currentTeam == DropCurrent(old(currentTeam), TeamId, id)
      ensures outcome.Err? ==> teams == old(teams) && totalCount == old(totalCount) && currentTeam == old(currentTeam)
    {
      isLoading := true;
      error := None;
      match outcome {
        case Ok(_) =>
          teams := RemoveId(teams, TeamId, id);
          totalCount := totalCount - 1;
          currentTeam := DropCurrent(currentTeam, TeamId, id);
        case Err(thrown) =>
          error := Some(ErrorMessage(thrown, "Failed to delete team"));
      }
      isLoading := false;
      result := outcome;
    }

    /** `fetchMyTeams(params)`: items and total are copied, page and size are not. */
    method FetchMyTeams(outcome: Api<Paginated<Team>>) returns (result: Api<Paginated<Team>>)
      modifies this`teams, this`totalCount, this`isLoading, this`error
      ensures result == outcome && !isLoading && error == FailureMessage(outcome, "Failed to fetch my teams")
      ensures outcome.Ok? ==> teams == outcome.value.items && totalCount == outcome.value.total
      ensures outcome.Err? ==> teams == old(teams) && totalCount == old(totalCount)
    {
      isLoading := true;
      error := None;
      match outcome {
        case Ok(response) =>
          teams := response.items;
          totalCount := response.total;
        case Err(thrown) =>
          error := Some(ErrorMessage(thrown, "Failed to fetch my teams"));
      }
      isLoading := false;
      result := outcome;
    }

    /** `fetchTeamMembers(teamId, params)`: only the member list is replaced; the total is the teams' total and stays. */
    method FetchTeamMembers(teamId: int, outcome: Api<Paginated<TeamMember>>) returns (result: Api<Paginated<TeamMember>>)
      modifies this`teamMembers, this`isLoading, this`error
      ensures result == outcome && !isLoading && error == FailureMessage(outcome, "Failed to fetch team members")
      ensures outcome.Ok? ==> teamMembers == outcome.value.items
      ensures outcome.Err? ==> teamMembers == old(teamMembers)
    {
      isLoading := true;
      error := None;
      match outcome {
        case Ok(response) =>
          teamMembers := response.items;
        case Err(thrown) =>
          error := Some(ErrorMessage(thrown, "Failed to fetch team members"));
      }
      isLoading := false;
      result := outcome;
    }

    /** `addTeamMember(teamId, data)`: the new member goes first; the teams and their total do not change. */
    method AddTeamMember(teamId: int, outcome: Api<TeamMember>) returns (result: Api<TeamMember>)
      modifies this`teamMembers, this`isLoading, this`error
      ensures result == outcome && !isLoading && error == FailureMessage(outcome, "Failed to add team member")
      ensures outcome.Ok? ==> teamMembers == [outcome.value] + old(teamMembers)
      ensures outcome.Err? ==> teamMembers == old(teamMembers)
    {
      isLoading := true;
      error := None;
      match outcome {
        case Ok(member) =>
          teamMembers := [member] + teamMembers;
        case Err(thrown) =>
          error := Some(ErrorMessage(thrown, "Failed to add team member"));
      }
      isLoading := false;
      result := outcome;
    }

    /** `updateTeamMemberRole(teamId, memberId, data)`: the first member with `memberId` becomes the returned member. */
    method UpdateTeamMemberRole(teamId: int, memberId: int, outcome: Api<TeamMember>) returns (result: Api<TeamMember>)
      modifies this`teamMembers, this`isLoading, this`error
      ensures result == outcome && !isLoading && error == FailureMessage(outcome, "Failed to update team member")
      ensures outcome.Ok? ==> teamMembers == ReplaceFirst(old(teamMembers), MemberId, memberId, outcome.value)
      ensures outcome.Err? ==> teamMembers == old(teamMembers)
    {
      isLoading := true;
      error := None;
      match outcome {
        case Ok(member) =>
          teamMembers := ReplaceFirst(teamMembers, MemberId, memberId, member);
        case Err(thrown) =>
          error := Some(ErrorMessage(thrown, "Failed to update team member"));
      }
      isLoading := false;
      result := outcome;
    }

    /** `removeTeamMember(teamId, memberId)`: every member with `memberId` goes; the teams and their total do not change. */
    method RemoveTeamMember(teamId: int, memberId: int, outcome: Api<()>) returns (result: Api<()>)
      modifies this`teamMembers, this`isLoading, this`error
      ensures result == outcome && !isLoading && error == FailureMessage(outcome, "Failed to remove team member")
      ensures outcome.Ok? ==> teamMembers == RemoveId(old(teamMembers), MemberId, memberId)
      ensures outcome.Err? ==> teamMembers == old(teamMembers)
    {
      isLoading := true;
      error := None;
      match outcome {
        case Ok(_) =>
          teamMembers := RemoveId(teamMembers, MemberId, memberId);
        case Err(thrown) =>
          error := Some(ErrorMessage(thrown, "Failed to remove team member"));
      }
      isLoading := false;
      result := outcome;
    }

    /** `fetchTeamStats(teamId)` */
    method FetchTeamStats(teamId: int, outcome: Api<TeamStats>) returns (result: Api<TeamStats>)
      modifies this`currentTeamStats, this`isLoading, this`error
      ensures result == outcome && !isLoading && error == FailureMessage(outcome, "Failed to fetch team stats")
      ensures outcome.Ok? ==> currentTeamStats == Some(outcome.value)
      ensures outcome.Err? ==> currentTeamStats == old(currentTeamStats)
    {
      isLoading := true;
      error := None;
      match outcome {
        case Ok(stats) =>
          currentTeamStats := Some(stats);
        case Err(thrown) =>
          error := Some(ErrorMessage(thrown, "Failed to fetch team stats"));
      }
      isLoading := false;
      result := outcome;
    }

    /** `setSearchQuery(query)`: the page returns to 1. */
    method SetSearchQuery(query: string)
      modifies this`searchQuery, this`currentPage
      ensures searchQuery == query && currentPage == 1
    {
      searchQuery := query;
      currentPage := 1;
    }

    /** `setPage(page)`: stored as given. */
    method SetPage(page: int)
      modifies this`currentPage
      ensures currentPage == page
    {
      currentPage := page;
    }

    /** `setPageSize(size)`: the page returns to 1. */
    method SetPageSize(size: int)
      modifies this`pageSize, this`currentPage
      ensures pageSize == size && currentPage == 1
    {
      pageSize := size;
      currentPage := 1;
    }

    /** `clearCurrentTeam()`: the selected team, its members and its statistics go; the team list stays. */
    method ClearCurrentTeam()
      modifies this`currentTeam, this`teamMembers, this`currentTeamStats
      ensures currentTeam == None && teamMembers == [] && currentTeamStats == None
    {
      currentTeam := None;
      teamMembers := [];
      currentTeamStats := None;
    }

    /** `clearAll()`: the state the store starts in. */
    method ClearAll()
      modifies this
      ensures teams == [] && currentTeam == None && teamMembers == [] && !isLoading && error == None
      ensures currentPage == 1 && pageSize == 20 && totalCount == 0 && searchQuery == "" && currentTeamStats == None
    {
      teams := [];
      currentTeam := None;
      teamMembers := [];
      isLoading := false;
      error := None;
      currentPage := 1;
      pageSize := 20;
      totalCount := 0;
      searchQuery := "";
      currentTeamStats := None;
    }
  }
}
