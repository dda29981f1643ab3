/**
 * The user store: the loaded users, the signed-in user's profile, loading
 * and error flags, pagination counters and a search query, and its actions,
 * each given the outcome of its API call. Unlike the other stores,
 * `createUser`, `updateUser` and `deleteUser` do not clear `error` when they
 * start, so an earlier error survives their success. The profile's own type
 * is not part of this model; the profile is a `User` here.
 */
module UserStore {
  import opened Wrappers
  import opened JsValues
  import opened ListPatch
  import opened Models
  import opened StoreQuery

  /** The parameters `fetchUsers` sends. */
  function UserQueryParams(currentPage: int, pageSize: int, params: map<string, Value>, search: string): map<string, Value> {
    QueryParams(currentPage, pageSize, params, SearchLayer(search))
  }

  /** The error after an action that does not clear it first: the earlier one on success, the failure's message otherwise. */
  function KeptOrFailure<T>(before: Option<string>, outcome: Api<T>, fallback: string): (e: Option<string>)
    ensures outcome.Ok? ==> e == before
    ensures outcome.Err? ==> e == FailureMessage(outcome, fallback) && e.Some?
  {
    match outcome
    case Ok(_) => before
    case Err(thrown) => Some(ErrorMessage(thrown, fallback))
  }

  class Store {
    var users: seq<User>
    var isLoading: bool
    var error: Option<string>
    var userProfile: Option<User>
    var currentPage: int
    var pageSize: int
    var totalCount: int
    var searchQuery: string

    constructor ()
      ensures users == [] && !isLoading && error == None && userProfile == None
      ensures currentPage == 1 && pageSize == 20 && totalCount == 0 && searchQuery == ""
    {
      users := [];
      isLoading := false;
      error := None;
      userProfile := None;
      currentPage := 1;
      pageSize := 20;
      totalCount := 0;
      searchQuery := "";
    }

    /** The `queryParams` object `fetchUsers` builds from the store's state. */
    method BuildQueryParams(params: map<string, Value>) returns (sent: map<string, Value>)
      ensures sent == UserQueryParams(currentPage, pageSize, params, searchQuery)
    {
      sent := UserQueryParams(currentPage, pageSize, params, searchQuery);
    }

    /** What `fetchUsers` does with the response: items and total are copied, page and size are not. */
    method ApplyListOnly(outcome: Api<Paginated<User>>) returns (result: Api<Paginated<User>>)
      modifies this`users, this`totalCount, this`isLoading, this`error
      ensures result == outcome && !isLoading && error == FailureMessage(outcome, "Failed to fetch users")
      ensures outcome.Ok? ==> users == outcome.value.items && totalCount == outcome.value.total
      ensures outcome.Err? ==> users == old(users) && totalCount == old(totalCount)
    {
      isLoading := true;
      error := None;
      match outcome {
        case Ok(response) =>
          users := response.items;
          totalCount := response.total;
        case Err(thrown) =>
          error := Some(ErrorMessage(thrown, "Failed to fetch users"));
      }
      isLoading := false;
      result := outcome;
    }

    /** `fetchUsers(params)`: sends the layered parameters; copies items and total, but not page and size. */
    method FetchUsers(params: map<string, Value>, outcome: Api<Paginated<User>>) returns (sent: map<string, Value>, result: Api<Paginated<User>>)
      modifies this`users, this`totalCount, this`isLoading, this`error
      ensures sent == UserQueryParams(currentPage, pageSize, params, searchQuery)
      ensures result == outcome && !isLoading && error == FailureMessage(outcome, "Failed to fetch users")
      ensures outcome.Ok? ==> users == outcome.value.items && totalCount == outcome.value.total
      ensures outcome.Err? ==> users == old(users) && totalCount == old(totalCount)
    {
      sent := BuildQueryParams(params);
      result := ApplyListOnly(outcome);
    }

    /** `createUser(data)`: the new user goes first and the total grows by one; an earlier error is kept on success. */
    method CreateUser(outcome: Api<User>) returns (result: Api<User>)
      modifies this`users, this`totalCount, this`isLoading, this`error
      ensures result == outcome && !isLoading && error == KeptOrFailure(old(error), outcome, "Failed to create user")
      ensures outcome.Ok? ==> users == [outcome.value] + old(users) && totalCount == old(totalCount) + 1
      ensures outcome.Err? ==> users == old(users) && totalCount == old(totalCount)
    {
      isLoading := true;
      match outcome {
        case Ok(user) =>
          users := [user] + users;
          totalCount := totalCount + 1;
        case Err(thrown) =>
          error := Some(ErrorMessage(thrown, "Failed to create user"));
      }
      isLoading := false;
      result := outcome;
    }

    /** `updateUser(id, data)`: the first user with the id becomes the returned user; an earlier error is kept on success. */
    method UpdateUser(id: int, outcome: Api<User>) returns (result: Api<User>)
      modifies this`users, this`isLoading, this`error
      ensures result == outcome && !isLoading && error == KeptOrFailure(old(error), outcome, "Failed to update user")
      ensures outcome.Ok? ==> users == ReplaceFirst(old(users), UserId, id, outcome.value)
      ensures outcome.Err? ==> users == old(users)
    {
      isLoading := true;
      match outcome {
        case Ok(user) =>
          users := ReplaceFirst(users, UserId, id, user);
        case Err(thrown) =>
          error := Some(ErrorMessage(thrown, "Failed to update user"));
      }
      isLoading := false;
      result := outcome;
    }

    /** `deleteUser(id)`: every user with the id goes and the total drops by one whether or not one was loaded; an earlier error is kept on success. */
    method DeleteUser(id: int, outcome: Api<()>) returns (result: Api<()>)
      modifies this`users, this`totalCount, this`isLoading, this`error
      ensures result == outcome && !isLoading && error == KeptOrFailure(old(error), outcome, "Failed to delete user")
      ensures outcome.Ok? ==> users == RemoveId(old(users), UserId, id) && totalCount == old(totalCount) - 1
      ensures outcome.Err? ==> users == old(users) && totalCount == old(totalCount)
    {
      isLoading := true;
      match outcome {
        case Ok(_) =>
          users := RemoveId(users, UserId, id);
          totalCount := totalCount - 1;
        case Err(thrown) =>
          error := Some(ErrorMessage(thrown, "Failed to delete user"));
      }
      isLoading := false;
      result := outcome;
    }

    /** `fetchUserProfile()` */
    method FetchUserProfile(outcome: Api<User>) returns (result: Api<User>)
      modifies this`userProfile, this`isLoading, this`error
      ensures result == outcome && !isLoading && error == FailureMessage(outcome, "Failed to fetch profile")
      ensures outcome.Ok? ==> userProfile == Some(outcome.value)
      ensures outcome.Err? ==> userProfile == old(userProfile)
    {
      isLoading := true;
      error := None;
      match outcome {
        case Ok(profile) =>
          userProfile := Some(profile);
        case Err(thrown) =>
          error := Some(ErrorMessage(thrown, "Failed to fetch profile"));
      }
      isLoading := false;
      result := outcome;
    }

    /** `setPage(page)`: stored as given. */
    method SetPage(page: int)
      modifies this`currentPage
      ensures currentPage == page
    {
      currentPage := page;
    }

    /** `setPageSize(size)`: the page returns to 1. */
    method SetPageSize(size: int)
      modifies this`pageSize, this`currentPage
      ensures pageSize == size && currentPage == 1
    {
      pageSize := size;
      currentPage := 1;
    }
  }
}
