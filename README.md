# DevFlow ERP front end: a verified model of its client-side state

This project models the client-side logic of the DevFlow ERP web front end, a Vue and Pinia
application for projects, teams, sprints, issues, servers, services and deployments. It covers:

- **Entity stores.** Each store holds a list, a selected record, loading and error flags,
  pagination counters and filters. Each store is a Dafny `class`.
- **Store actions.** Every action awaits one API call and then patches the list in place. Each
  action is a method that is handed that call's outcome (`Ok(value)` or `Err(thrown)`).
- **Shared list edits.** The edits all stores share are written once in `ListPatch`: put the
  new record first, replace the first record with the id, and filter out an id.
- **Mock back end.** `MockApi` models the in-browser tables and their paginated, searched and
  filtered query.
- **Composables.** `Pagination` models `usePagination` and `Filters` models `useFilters`. Both
  are classes whose methods change their fields.
- **Auth.** `AuthStore` models the auth store together with its two development backdoors.
  `Guards` models the router guards and `UseAuth` the role checks.
- **UI store.** `UiStore` models the loading overlay, the sidebar flag and the notification list.
- **Pure rules.** `Validators` and `Formatters` model the form validators and the display
  formatters.
- **API client.** `Client` models:
  - the mock routing, a first-match `switch (true)` over urls and `url.match` patterns;
  - the Bearer-token request hook;
  - the 401 handling that refreshes the token and retries, and the way the refresh request
    passes back through the same hook;
  - the normalised `ApiError`.

Supporting modules:

- `Wrappers`: `Option` and the API outcome.
- `JsValues`: truthiness, loose equality and `String(v)`.
- `JsMath`: JavaScript's floor, ceiling and truncating remainder.
- `Text`: ASCII case mapping, `split`/`join` and integer printing.
- `Storage`: `localStorage` as an object with a string map.
- `StoreQuery`: the three-layer query parameters every `fetch…` action sends.
- `Models`: the records, reduced to the fields the stores read.

The mock GET override replaces `apiClient.get` itself. It therefore sees only the config its
caller passes, and the request hook's header is added later, if at all. `verifyAuth` passes no
config, so the mock's backdoor check on '/auth/verify' never sees a token. The auth store
answers the backdoor token itself before any call is made.

## Model

| member | source | states |
|---|---|---|
| Client.DigitRun | src/api/client.ts:87 | the length of the longest digit prefix: every character before it is a digit and the one after it is not, so `(\d+)` matches greedily |
| Client.FirstTail | src/api/client.ts:208 | the first alternative of a regex group such as `(start\|complete)` that the remaining text begins with, or -1 when none does |
| Client.MatchAt | src/api/client.ts:87-93 | a match found at one index captures one or more digits and names an existing tail |
| Client.FirstMatchAt | src/api/client.ts:123 | the first start index at which the pattern matches, and no match at any earlier index; -1 only when no index matches |
| Client.MatchFromFirst | src/api/client.ts:123 | the recursive scan returns the match at the index `FirstMatchAt` picks |
| Client.MatchFromLeftmost | src/api/client.ts:123 | `url.match` finds nothing exactly when no start index matches; otherwise it returns the match at the first index that matches |
| Client.UrlMatch | src/api/client.ts:87-93 | a match of `/<name>/(\d+)` captures a non-empty run of digits |
| Client.DigitRunOf | src/api/client.ts:87 | digits followed by a non-digit, or by nothing, are captured whole |
| Client.MatchAtStart | src/api/client.ts:123 | a url made of the pattern head, digits and a tail of the pattern matches at index 0 and captures exactly those digits |
| Client.TailedMatchShadowed | src/api/client.ts:123-133 | wherever `/projects/(\d+)/issues` matches, `/projects/(\d+)` matches too, so the item route shadows the nested one |
| Client.RouteGetRest | src/api/client.ts:156-177 | the teams, servers, services and deployments cases in order: the item route when its pattern matches, the list route on an exact path, and the real request only when no route of these collections applies |
| Client.ExactGet | src/api/client.ts:97-120 | the dashboard and auth cases: the real request is chosen here only for '/auth/verify', these cases never give an item, list or nested route, and a url whose second character is neither 'd' nor 'a' is left to the collection cases |
| Client.CollectionGet | src/api/client.ts:122-183 | the collection cases in source order: an item route is taken only when its pattern matches and gets the id matched, a list route only on its exact path, and the real request only when no collection route applies |
| Client.CollectionGetFallsThrough | src/api/client.ts:180-183 | the default branch is reached only by a url that no collection's item pattern matches and that is no collection's list path |
| Client.RouteGet | src/api/client.ts:82-184 | the GET override: an item route carries the id the regex captured, a list route is taken only on the exact list path |
| Client.RealGetOnlyUnrouted | src/api/client.ts:115-120 | the GET override falls back to the real request only for '/auth/verify' or for a url no collection route applies to |
| Client.NestedGetRoutesUnreachable | src/api/client.ts:129-133 | as written, the project-issues and project-sprints routes are never chosen for any url |
| Client.ProjectIssuesCaptured | src/api/client.ts:123-124 | GET `/projects/<id>/issues` and `/projects/<id>/sprints` return project `id` itself |
| Client.ProjectUrlRoutes | src/api/client.ts:123 | those urls match both the project item pattern and their own nested pattern, with the same id |
| Client.RouteGetFixed | src/api/client.ts:129-149 | the corrected order: the nested project routes are tried before the project item route |
| Client.RouteGetFixedReachesNested | src/api/client.ts:129-149 | with the corrected order, `/projects/<id>/issues` lists the issues of project `id` and `/projects/<id>/sprints` its sprints |
| Client.RouteGetFixedElsewhere | src/api/client.ts:82-184 | the corrected order routes every other url exactly as the original does |
| Client.SprintsUrlNotIssues | src/api/client.ts:129 | the sprints url of a project does not match the project-issues pattern |
| Client.NoLaterProjectHead | src/api/client.ts:123 | '/projects/' occurs in a nested project url only at its start |
| Client.RoutePost | src/api/client.ts:187-260 | the POST override: the auth paths go to the real back end; a create route only on an exact list path, with deployments separate; sprint actions and rollbacks carry the matched id |
| Client.SprintActionStatuses | src/api/client.ts:208-211 | POST `/sprints/<id>/start` activates sprint `id` and `/sprints/<id>/complete` completes it |
| Client.SprintUrlMatches | src/api/client.ts:208 | the sprint action pattern matches those urls at their start, with the id and the action |
| Client.FirstById | src/api/client.ts:266-295 | the index of the first collection whose item pattern matches, with every earlier pattern unmatched, or -1 when none matches |
| Client.RouteItem | src/api/client.ts:263-340 | the PATCH and DELETE overrides: the first collection in source order (issues first) whose item pattern matches, with the matched id, and the real request exactly when none matches |
| Client.RollbackRecord | src/api/client.ts:235-252 | the new deployment's version is the target's followed by '-ROLLBACK'; it is a successful rollback by user 2 that names the target in `rollback_from_id`; its notes are the request's, defaulting to 'Rolled back' |
| Client.WithDeployer | src/api/client.ts:227 | the created deployment keeps the request body with `deployed_by` set to 2 |
| Client.MockRollback | src/api/client.ts:228-253 | a 404 when no deployment has the id; otherwise the rollback record is prepended with the next id and returned |
| Client.RollbackRefersBack | src/api/client.ts:240-244 | the created deployment is a successful rollback whose `rollback_from_id` is the target's id |
| Client.MockSprintAction | src/api/client.ts:208-211 | the sprint's status becomes the given one and every other sprint is kept; without the sprint, a 404 and no change |
| Client.RequestConfig.constructor | src/api/client.ts:347 | a request config with or without headers |
| Client.BearerFor | src/api/client.ts:352-353 | a header exists exactly for a truthy token, and it is 'Bearer ' followed by the token |
| Client.AttachedAuthorization | src/api/client.ts:349-354 | the header is replaced only when a token is stored and the config has headers; otherwise it is kept |
| Client.AttachToken | src/api/client.ts:346-370 | the request hook sets the config's authorization from the stored access token and changes nothing else |
| Client.BackdoorHeaderVerifies | src/api/client.ts:115-119 | the route's header check, as written: a config carrying the Bearer header built from the stored backdoor token is answered by the mock '/auth/verify' route without the back end; no caller in the stores passes such a config, since the request hook attaches the header after routing |
| Client.NormalizeError | src/api/client.ts:519-527 | the rejection's message is the body's message, else the error's, else the fallback, and never empty; the status is the response status or 0; detail and field errors are copied from the body |
| Client.ErrorObject | src/api/client.ts:420 | `new Error(message)` is an object marked as an error whose message is the one given |
| Client.ApiErrorObject | src/api/client.ts:43-55 | `new ApiErrorClass(e)` is an `Error` whose message is that of `e` and whose own `status` property is the status of `e` |
| Client.HandleApiError | src/api/client.ts:540-556 | an ApiError comes back unchanged; another `Error` becomes its message with status 0; anything else becomes the fixed message with status 0 |
| Client.IsApiErrorCases | src/api/client.ts:561-563 | `isApiError` holds exactly for a non-null object in which 'message' and 'status' are found, and never for a primitive |
| Client.HandleApiErrorIdempotent | src/api/client.ts:540-563 | what `handleApiError` returns always passes `isApiError`, and applying `handleApiError` again changes nothing |
| Client.AsThrown | src/api/client.ts:527 | a store's `catch` sees a thrown value as an `Error` exactly when it is one |
| Client.NormalizedErrorPassesThrough | src/api/client.ts:519-527 | the hook's normalised rejection passes `handleApiError` unchanged, and a store sees its non-empty message |
| Client.RefreshError | src/api/client.ts:456-458 | a failed refresh always rejects with an `Error`: what was thrown when it is one |
| Client.RefreshReentersHook | src/api/client.ts:412-430 | a 401 on the unmarked refresh POST is itself refreshed: the hook treats it like any other first 401 and sends a further refresh POST |
| Client.RefreshLoopsAsWritten | src/api/client.ts:76-459 | with a refresh token stored and every refresh answered 401, no number of hook runs settles the request: each run posts another refresh |
| Client.ErrorHandlingFixed | src/api/client.ts:412-459 | a failure of the refresh request itself is rejected with its normalised error; any other failure is handled as before; a retry happens exactly for a 401 on an unmarked request other than the refresh, with a token stored and a successful refresh |
| Client.RefreshBoundedFixed | src/api/client.ts:412-459 | with the refresh request excluded, every failure settles after at most one refresh POST, and a 401 with a stored token sends exactly one |
| Client.ErrorHandling | src/api/client.ts:411-459 | anything but a 401 on an unmarked request rejects with the normalised `ApiErrorClass`; the request is retried exactly when it is such a 401, a refresh token is stored and the refresh succeeds |
| Client.StorageAfterError | src/api/client.ts:432-449 | after a refresh the new access token is stored; after a failed refresh the three session keys are removed; otherwise the storage is unchanged |
| Client.OnResponseError | src/api/client.ts:396-528 | the response hook: its result and the new storage are those of `ErrorHandling` and `StorageAfterError`; a 401 marks the request; a retry carries the new bearer header |
| Client.AtMostOneRefresh | src/api/client.ts:412-413 | a request the hook has already marked is not refreshed again: a second 401 rejects and leaves the storage alone |
| Client.RejectionsAreErrors | src/api/client.ts:445-459 | every rejection of the hook is an `Error`, so a store's `catch` never uses its fallback message |
| Client.RefreshThenAttach | src/api/client.ts:432-449 | after a successful refresh, the next request carries the new token; after a failed one, the request hook attaches nothing and no session remains stored |
| MockApi.JsonCopyValue | src/api/_mockApi.ts:18 | `JSON.parse(JSON.stringify(v))` on one value: the copy is `undefined` exactly when the value is |
| MockApi.JsonCopyElements | src/api/_mockApi.ts:18 | the copy of an array keeps its length and has no `undefined` element |
| MockApi.JsonCopyRecord | src/api/_mockApi.ts:18 | the copy of an object keeps exactly the keys whose value is not `undefined`, each copied in turn |
| MockApi.JsonCopyPage | src/api/_mockApi.ts:18 | the copy of a paginated response copies every item and keeps `total`, `page`, `size` and `pages` |
| MockApi.JsonCopy | src/api/_mockApi.ts:18 | the deep copy fails (throws) exactly for a payload that is `undefined` |
| MockApi.JsonCopyValueIdempotent | src/api/_mockApi.ts:18 | copying a copied value changes nothing more |
| MockApi.JsonCopyElementsIdempotent | src/api/_mockApi.ts:18 | copying a copied array changes nothing more |
| MockApi.JsonCopyRecordIdempotent | src/api/_mockApi.ts:18 | copying a copied object changes nothing more |
| MockApi.MockResponse | src/api/_mockApi.ts:13-24 | a status outside 200-299 rejects with `Mock API Error: <status>`; a 2xx status resolves with the deep copy and the status, except that an `undefined` payload leaves the promise pending because the copy throws inside the timer |
| MockApi.MockSuccessResponse | src/api/_mockApi.ts:158-160 | resolves with status 200 and the copied data, or with `{ message: 'Success' }` when no data is given |
| MockApi.RowIndex | src/api/_mockApi.ts:124 | `findIndex` by id: the first row with that id, no earlier row has it, -1 when none does |
| MockApi.MaxId | src/api/_mockApi.ts:102 | `Math.max(0, ...ids)`: at least 0, at least every id, and equal to 0 or to some row's id |
| MockApi.GetResponse | src/api/_mockApi.ts:85-94 | rejects with `Mock API Error: 404` exactly when no row has the id; otherwise resolves with the copy of a row that has it |
| MockApi.NewRecord | src/api/_mockApi.ts:105-110 | the created item has the new id and both timestamps set to now, keeps every submitted key and adds nothing else |
| MockApi.Merge | src/api/_mockApi.ts:129-133 | the updated item takes every submitted field, keeps every other old field, and its `updated_at` is now |
| MockApi.MockTable.constructor | src/api/_mockApi.ts:29-30 | a mock table starts with the given rows, all with numeric ids |
| MockApi.MockTable.Create | src/api/_mockApi.ts:99-114 | puts the new item first with an id larger than every existing id, keeps ids unique, and resolves with the copy a GET of that id would return |
| MockApi.MockTable.Update | src/api/_mockApi.ts:119-137 | an unknown id changes nothing and rejects with 404; otherwise replaces that row by the merged item and resolves with its copy, which a GET of the id then returns |
| MockApi.MockTable.Delete | src/api/_mockApi.ts:142-153 | an unknown id changes nothing and rejects with 404; otherwise splices the row out, keeps ids unique so a later GET of it fails, and leaves the promise pending |
| MockApi.MockTable.DeleteSettling | src/api/_mockApi.ts:142-153 | the same removal, resolving with status 200 and no data |
| MockApi.UniqueAfterSplice | src/api/_mockApi.ts:151 | splicing out a row keeps ids numeric and unique, and no remaining row has the removed id |
| MockApi.SettledResponse | src/api/_mockApi.ts:13-24 | agrees with `mockResponse` for every defined payload and every error status, and resolves for every 2xx status |
| MockApi.UndefinedNeverSettles | src/api/_mockApi.ts:152 | `mockResponse(undefined)` with status 200 never settles, while the settling version resolves |
| MockApi.NumberParam | src/api/_mockApi.ts:65-66 | `Number(filters[key] \|\| fallback)` is never 0 when the fallback is not 0 |
| MockApi.FilterByNoKeys | src/api/_mockApi.ts:58-62 | with no filter keys left, the exact-value filtering keeps every item |
| MockApi.FilterByOneMoreKey | src/api/_mockApi.ts:58-62 | one more loop pass filters by `item[key] == filters[key]` when the filter value is truthy and skips it otherwise |
| MockApi.SliceIndex | src/api/_mockApi.ts:69 | `slice` clamps a non-negative index to the length |
| MockApi.JsSlice | src/api/_mockApi.ts:69 | `items.slice(start, end)` is the clamped sub-list for `0 <= start <= end`, never longer than the list |
| MockApi.ExactFilters | src/api/_mockApi.ts:54-62 | the loop over the filter keys leaves exactly the items that loosely equal every truthy filter value |
| MockApi.PaginatedResponse | src/api/_mockApi.ts:29-80 | resolves with status 200 and the copy of the page built from the searched and filtered items |
| MockApi.SelectedExactly | src/api/_mockApi.ts:41-62 | an item is kept exactly when it matches every truthy exact filter and, when a search is given, has a name, title, description or version containing the lowercased query |
| MockApi.PageWindow | src/api/_mockApi.ts:65-69 | the page holds the items from `(page - 1) * size` to `page * size`, clamped, and at most `size` of them |
| MockApi.PageCountHolds | src/api/_mockApi.ts:67-68 | `total` counts every filtered item, `pages` is at least 1 and `pages * size` covers `total` |
| AuthStore.IsAuthenticated | src/stores/auth.store.ts:29 | signed in exactly when a non-empty access token and a user are held |
| AuthStore.IsSuperuser | src/stores/auth.store.ts:31 | a superuser exactly when a user is held who is an admin or whose `is_superuser` is true |
| AuthStore.FullName | src/stores/auth.store.ts:33-36 | the full name, else the username, else the email; empty with no user, or when all three are empty |
| AuthStore.Initials | src/stores/auth.store.ts:38-46 | empty with no user; never more than two characters and never a lowercase letter |
| AuthStore.TwoWordInitials | src/stores/auth.store.ts:41-44 | for a name of two or more words, the uppercased first letters of the first two words |
| AuthStore.OneWordInitials | src/stores/auth.store.ts:45 | for a one-word name, its first two characters uppercased |
| AuthStore.Restore | src/stores/auth.store.ts:55-70 | with no stored token or user nothing changes; an unreadable stored user signs out; otherwise the stored token, refresh token and user are taken, and the store is signed in exactly when a user was read |
| AuthStore.PersistedSessionRestores | src/stores/auth.store.ts:55-70 | what a login stores is read back by `initAuth` as the same signed-in session |
| AuthStore.BackdoorSignsInSuperuser | src/stores/auth.store.ts:82-122 | the backdoor password signs in user 999 with the given email, as a superuser named '개발자 (Backdoor)' with initials '개(' |
| AuthStore.VerifyResult | src/stores/auth.store.ts:285-305 | false without a token, true for the backdoor token, otherwise whether the back end answered true |
| AuthStore.Store.constructor | src/stores/auth.store.ts:19-23 | signed out, not loading and no error |
| AuthStore.Store.ClearAuth | src/stores/auth.store.ts:310-319 | signed out with no error, and the three session keys removed from storage and nothing else |
| AuthStore.Store.InitAuth | src/stores/auth.store.ts:55-70 | the session becomes `Restore` of the stored keys; an unreadable user also clears the storage and the error |
| AuthStore.Store.Login | src/stores/auth.store.ts:75-152 | the backdoor password stores and returns the backdoor session; a failed login changes neither the session nor the storage and records the message; a failed user fetch keeps the tokens alone; a success stores tokens and user and returns the reply |
| AuthStore.Store.Logout | src/stores/auth.store.ts:157-171 | signed out and the session keys removed, whether or not the back end call failed |
| AuthStore.Store.Refresh | src/stores/auth.store.ts:176-202 | without a refresh token, rejects and changes nothing; a success replaces the access token in the store and in storage; a failure signs out, and the error is left empty, as written |
| AuthStore.Store.RefreshKeepingError | src/stores/auth.store.ts:194-198 | the corrected refresh: as `Refresh`, but a failure leaves its message in `error` |
| AuthStore.Store.FetchCurrentUser | src/stores/auth.store.ts:207-227 | rejects without a token and changes nothing; a success stores the user in the store and in storage; a failure records the message and keeps the user |
| AuthStore.Store.GetAuthUrl | src/stores/auth.store.ts:232-246 | returns the back end's answer, with the failure message recorded |
| AuthStore.Store.HandleAuthCallback | src/stores/auth.store.ts:251-280 | a success takes and stores both tokens, and the user when the reply has one; a failure changes nothing but the error |
| AuthStore.Store.VerifyAuth | src/stores/auth.store.ts:285-305 | the result is `VerifyResult`: false with no token, true for the backdoor token, otherwise what the check resolved to; only a check that throws signs out and clears the storage, and otherwise nothing changes |
| AuthStore.VerifyCallNeverSignsOut | src/api/auth.api.ts:102-109 | `authApi.verifyAuth` always resolves to a boolean, so `verifyAuth` never reaches its sign-out: a real token the back end rejects gives false and stays stored |
| Guards.AuthDecision | src/router/guards.ts:28-50 | navigation goes ahead exactly for a signed-in user whose token verifies; otherwise it goes to the login page with the requested path as `redirect` |
| Guards.GuestDecision | src/router/guards.ts:73-81 | guests go ahead; a signed-in user is sent to the dashboard |
| Guards.RoleDecision | src/router/guards.ts:105-126 | a signed-out user goes to the login page; a signed-in one is sent to the unauthorized page exactly when 'superuser' is listed and they are not one, and goes ahead otherwise |
| Guards.RoleGuardIgnoresOtherRoles | src/router/guards.ts:114-119 | without 'superuser' listed, every signed-in user goes ahead whatever their roles |
| Guards.GuardSession | src/router/guards.ts:23-26 | a signed-in store is left alone; otherwise the stored session is restored, and the user is signed in afterwards exactly when either held |
| Guards.BackdoorPassesGuards | src/router/guards.ts:16-137 | the backdoor session passes the authentication guard and the superuser guard |
| Guards.RestoreIfSignedOut | src/router/guards.ts:23-26 | the store becomes `GuardSession` of its session and storage; an unreadable stored user also clears the storage |
| Guards.AuthGuard | src/router/guards.ts:16-51 | the decision is `AuthDecision` of the restored session and its verification; a real token whose check throws is signed out, and one the check merely rejects is redirected to login while staying stored |
| Guards.GuestGuard | src/router/guards.ts:61-82 | the decision is `GuestDecision` of the restored session |
| Guards.RoleGuard | src/router/guards.ts:92-128 | the decision is `RoleDecision` of the restored session, its superuser flag and the allowed roles |
| Guards.SuperuserGuard | src/router/guards.ts:137 | a signed-in user goes ahead exactly when a superuser |
| UseAuth.HasRole | src/composables/useAuth.ts:125-131 | 'superuser' holds exactly for a superuser; every other role is never held |
| UseAuth.HasAnyRole | src/composables/useAuth.ts:136-138 | some listed role is held |
| UseAuth.HasAllRoles | src/composables/useAuth.ts:143-145 | every listed role is held |
| UseAuth.HasAnyRoleCharacterized | src/composables/useAuth.ts:125-138 | false for no roles; otherwise true exactly for a superuser with 'superuser' listed |
| UseAuth.HasAllRolesCharacterized | src/composables/useAuth.ts:125-145 | true for no roles; otherwise true exactly for a superuser when every listed role is 'superuser' |
| UseAuth.LoginTarget | src/composables/useAuth.ts:39-40 | after signing in, the non-empty `redirect` query, else '/dashboard' |
| UseAuth.LoginReturnsToGuardedPage | src/composables/useAuth.ts:39-40 | signing in returns to the page the authentication guard sent to the login page |
| UiStore.Notification.constructor | src/stores/ui.store.ts:59 | a notification object with its kind, message, caption and timeout |
| UiStore.BoolText | src/stores/ui.store.ts:40 | `String(b)` is 'true' exactly for true, and otherwise 'false' |
| UiStore.InitialSidebar | src/stores/ui.store.ts:48-53 | with nothing stored, the state is kept; otherwise the sidebar is open exactly when 'true' is stored |
| UiStore.SidebarRoundTrip | src/stores/ui.store.ts:37-53 | the state `toggleSidebar` or `setSidebarOpen` stores is the state `initSidebar` reads back |
| UiStore.IndexOf | src/stores/ui.store.ts:71 | the first position holding this very notification object, or -1 exactly when it is not shown |
| UiStore.WithoutFirstRemovesOne | src/stores/ui.store.ts:70-75 | removing a notification takes out exactly one copy of a shown notification and keeps the rest; an absent one leaves the list unchanged |
| UiStore.AddThenRemove | src/stores/ui.store.ts:59-75 | adding a new notification and then removing it gives the list back |
| UiStore.Store.constructor | src/stores/ui.store.ts:14-17 | not loading, an empty message, the sidebar open and no notifications |
| UiStore.Store.ShowLoading | src/stores/ui.store.ts:23-26 | loading, with the given message, '로딩 중...' by default |
| UiStore.Store.HideLoading | src/stores/ui.store.ts:28-31 | not loading, with an empty message |
| UiStore.Store.ToggleSidebar | src/stores/ui.store.ts:37-41 | the sidebar flips, and its new state is stored under 'sidebarOpen' |
| UiStore.Store.SetSidebarOpen | src/stores/ui.store.ts:43-46 | the sidebar takes the given state, which is stored under 'sidebarOpen' |
| UiStore.Store.InitSidebar | src/stores/ui.store.ts:48-53 | the sidebar becomes `InitialSidebar` of what is stored |
| UiStore.Store.AddNotification | src/stores/ui.store.ts:59-61 | the notification is appended at the end |
| UiStore.Store.RemoveNotification | src/stores/ui.store.ts:70-75 | the list loses the first occurrence of this very object |
| UiStore.Store.ClearNotifications | src/stores/ui.store.ts:77-79 | no notifications remain |
| Pagination.Pager.constructor | src/composables/usePagination.ts:13-26 | the page and size start at the given values, which `reset` restores, and `total` at 0 |
| Pagination.Pager.TotalPages | src/composables/usePagination.ts:32 | `Math.ceil(total / size) \|\| 1` is never 0; for a non-negative total it is the fewest pages holding every item, and at least 1 |
| Pagination.Pager.StartIndex | src/composables/usePagination.ts:38 | the 1-based position of the page's first item lies within the page's window, and a full page spans exactly `size` items |
| Pagination.Pager.EndIndex | src/composables/usePagination.ts:40-43 | the last position shown is `page * size` capped at `total` |
| Pagination.Pager.SetPage | src/composables/usePagination.ts:60-64 | takes the new page only when it lies between 1 and `totalPages`, otherwise keeps the page; a page in range stays in range |
| Pagination.Pager.SetSize | src/composables/usePagination.ts:66-70 | takes the new size and goes back to page 1, which lies in range |
| Pagination.Pager.SetTotal | src/composables/usePagination.ts:72-74 | takes the new total and changes nothing else |
| Pagination.Pager.NextPage | src/composables/usePagination.ts:76-80 | moves one page on exactly when a next page exists; a page in range stays in range |
| Pagination.Pager.PrevPage | src/composables/usePagination.ts:82-86 | moves one page back exactly when the page is past 1; a page in range stays in range |
| Pagination.Pager.FirstPage | src/composables/usePagination.ts:88-90 | goes to page 1, which lies in range |
| Pagination.Pager.LastPage | src/composables/usePagination.ts:92-94 | goes to the last page, which lies in range |
| Pagination.Pager.Reset | src/composables/usePagination.ts:96-100 | restores the initial page and size and a total of 0, so a single page remains |
| Filters.CountedIffNotNullish | src/composables/useFilters.ts:37-42 | the `if`/`else if` chain of `activeFilterCount` counts exactly the values that are neither null nor undefined, every active value among them |
| Filters.ActiveKeys | src/composables/useFilters.ts:25-33 | the keys whose value is a non-empty array or string, a nonzero number or another non-nullish value |
| Filters.CountedKeys | src/composables/useFilters.ts:35-44 | the keys `activeFilterCount` counts are exactly those whose value is neither null nor undefined |
| Filters.KeysWhereOneMore | src/composables/useFilters.ts:37 | counting one more key adds one exactly when its value passes the test |
| Filters.ParamValue | src/composables/useFilters.ts:56-60 | a filter is left out of the parameters exactly when it is null, undefined or ''; a non-empty array becomes its values joined by ','; any other value is passed as it is |
| Filters.SearchPart | src/composables/useFilters.ts:50-52 | the `search` parameter is present exactly when the search is not empty, and holds it |
| Filters.FilterParamsKeys | src/composables/useFilters.ts:46-64 | a key is a parameter exactly when it is a filter with a value or it is `search` with a non-empty search; a filter named `search` overrides the search |
| Filters.ParamsOneMore | src/composables/useFilters.ts:55-61 | one more entry adds its parameter value, or nothing when it has none |
| Filters.ClearedValue | src/composables/useFilters.ts:74-82 | an array clears to [], a string to '', anything else, a missing key included, to null |
| Filters.ClearedNotActive | src/composables/useFilters.ts:74-82 | a cleared value is never active, and is still counted exactly when it was an array or a string |
| Filters.ClearedAll | src/composables/useFilters.ts:84-89 | every key kept and every value cleared |
| Filters.ClearedOn | src/composables/useFilters.ts:85-87 | the keys cleared so far, over the same key set |
| Filters.ClearedOnStep | src/composables/useFilters.ts:86 | clearing one more key extends the cleared keys by it |
| Filters.ClearedOnAll | src/composables/useFilters.ts:85-87 | once every key is cleared the map is the fully cleared one |
| Filters.ClearedAllNoneActive | src/composables/useFilters.ts:84-89 | after clearing all filters none is active |
| Filters.CountWithoutActiveFilter | src/composables/useFilters.ts:25-44 | a single '' filter is not active, yet the count is 1 |
| Filters.ClearedFiltersStillCounted | src/composables/useFilters.ts:35-44 | after `clearAllFilters` no key is active, yet every string and array filter is still counted |
| Filters.FilterState.constructor | src/composables/useFilters.ts:18-19 | a copy of the initial filters and an empty search |
| Filters.FilterState.ActiveFilterCount | src/composables/useFilters.ts:35-44 | the loop counts exactly the non-nullish filters, so the count is positive whenever a filter is active |
| Filters.FilterState.ActiveFilterCountCorrected | src/composables/useFilters.ts:25-44 | counting with the test of `hasActiveFilters`: the count is nonzero exactly when a filter is active |
| Filters.FilterState.FilterParams | src/composables/useFilters.ts:46-64 | the loop over the entries builds exactly the search part overridden by every filter's parameter value |
| Filters.FilterState.SetFilter | src/composables/useFilters.ts:70-72 | only that key takes the new value |
| Filters.FilterState.ClearFilter | src/composables/useFilters.ts:74-82 | only that key changes, to its cleared value, which is not active |
| Filters.FilterState.ClearAllFilters | src/composables/useFilters.ts:84-89 | every filter cleared and the search emptied, so no filter is active |
| Filters.FilterState.SetSearch | src/composables/useFilters.ts:91-93 | the search takes the value |
| Filters.FilterState.ClearSearch | src/composables/useFilters.ts:95-97 | the search is empty |
| Filters.FilterState.Reset | src/composables/useFilters.ts:99-102 | the initial filters again and an empty search |
| Filters.FilterState.UpdateFilters | src/composables/useFilters.ts:104-106 | the given keys take their new values, every other key keeps its own, and no key is lost |
| Validators.Required | src/utils/validators.ts:8-15 | fails, with the message, exactly for null, undefined, a blank string and an empty array |
| Validators.RequiredKeepsFalsyValues | src/utils/validators.ts:8-15 | 0 and false pass; a string of only whitespace fails |
| Validators.MinLength | src/utils/validators.ts:46-52 | the empty string passes; otherwise passes exactly at `min` characters or more; a failure carries the given message or '최소 {min}자 이상 입력해주세요.' |
| Validators.MaxLength | src/utils/validators.ts:57-63 | the empty string passes; otherwise passes exactly at `max` characters or fewer; a failure carries the given message or '최대 {max}자까지 입력 가능합니다.' |
| Validators.ExactLength | src/utils/validators.ts:68-74 | the empty string passes; otherwise passes exactly at `length` characters; a failure carries the given message or '정확히 {length}자를 입력해주세요.' |
| Validators.ExactIsMinAndMax | src/utils/validators.ts:46-74 | an exact length passes exactly when the minimum and the maximum of that length both pass |
| Validators.MinValue | src/utils/validators.ts:79-85 | null passes; otherwise passes exactly at `min` or more; a failure carries the given message or '최소값은 {min}입니다.' |
| Validators.MaxValue | src/utils/validators.ts:90-96 | null passes; otherwise passes exactly at `max` or less; a failure carries the given message or '최대값은 {max}입니다.' |
| Validators.PortNumber | src/utils/validators.ts:189-194 | null passes; otherwise passes exactly from 1 to 65535 |
| Validators.PortIsRange | src/utils/validators.ts:189-194 | the port check is the minimum 1 and the maximum 65535 together |
| Validators.Numeric | src/utils/validators.ts:101-106 | passes exactly for a string of digits, the empty one included |
| Validators.Alphanumeric | src/utils/validators.ts:111-116 | passes exactly when every character is an ASCII letter or digit |
| Validators.NumericIsAlphanumeric | src/utils/validators.ts:101-116 | everything `numeric` accepts `alphanumeric` accepts too |
| Validators.PhoneNumber | src/utils/validators.ts:121-128 | the empty string passes; otherwise passes exactly for 2-3 digits, '-', 3-4 digits, '-', 4 digits |
| Validators.PhoneNumberAccepts | src/utils/validators.ts:125 | every number of that shape passes |
| Validators.PhoneNumberShape | src/utils/validators.ts:125 | every non-empty number that passes has that shape |
| Validators.Password | src/utils/validators.ts:135-146 | the empty string passes; otherwise passes exactly for 8 or more characters with a lowercase letter, an uppercase letter and a digit |
| Validators.PasswordExamples | src/utils/validators.ts:135-146 | 'Passw0rd' passes and 'password1' fails |
| Validators.PasswordConfirm | src/utils/validators.ts:151-158 | passes exactly when the value equals the password |
| Validators.OctetIsSmallNumber | src/utils/validators.ts:181 | an octet of the IPv4 pattern is exactly one to three digits whose value is at most 255 |
| Validators.NumberIsOctet | src/utils/validators.ts:181 | every number up to 255, written in decimal, is an octet |
| Validators.IpAddress | src/utils/validators.ts:177-184 | the empty string passes; otherwise passes exactly for four octets separated by dots |
| Validators.IpAddressAccepts | src/utils/validators.ts:181 | every four octets joined by dots pass |
| Validators.IpAddressRejects | src/utils/validators.ts:181 | an address whose first part is not an octet fails |
| Validators.IpAddressExamples | src/utils/validators.ts:177-184 | '192.168.0.1' passes and '256.0.0.1' fails |
| Validators.FirstFailure | src/utils/validators.ts:211-219 | passes exactly when every rule passes; otherwise the first failing rule's message |
| Validators.Combine | src/utils/validators.ts:211-219 | the loop returns `FirstFailure` of the rules |
| Formatters.DurationParts | src/utils/formatters.ts:170-177 | at least one part is always shown |
| Formatters.DurationPartsExact | src/utils/formatters.ts:170-172 | the hours, minutes and seconds shown add up to the duration, and minutes and seconds are below 60 |
| Formatters.HourMinuteSecondShown | src/utils/formatters.ts:175-179 | 3661 seconds are shown as '1h 1m 1s' |
| Formatters.WholeMinutesShown | src/utils/formatters.ts:175-179 | 120 seconds are shown as '2m', with no seconds |
| Formatters.WholeHoursShown | src/utils/formatters.ts:175-179 | 7200 seconds are shown as '2h' |
| Formatters.FormatDuration | src/utils/formatters.ts:167-180 | '-' for null; for a non-negative duration, its parts joined by spaces; for a negative one, only its truncated remainder in seconds; '0s' for zero |
| Formatters.Truncate | src/utils/formatters.ts:189-196 | '' for a missing or empty string, the string itself when it fits, otherwise its first `maxLength` characters followed by '...' |
| Formatters.TruncateKeepsPrefix | src/utils/formatters.ts:189-196 | the result is a prefix of the input, possibly followed by '...', and at most three characters longer than `maxLength` |
| Formatters.Capitalize | src/utils/formatters.ts:201-204 | '' for a missing or empty string; otherwise the same length, with the first character uppercased and the rest kept |
| Formatters.CapitalizeIdempotent | src/utils/formatters.ts:201-204 | capitalizing twice is capitalizing once |
| Formatters.CapitalizeWords | src/utils/formatters.ts:214 | each word capitalized, in place |
| Formatters.JoinTitledIsTitleFrom | src/utils/formatters.ts:211-215 | splitting on spaces, capitalizing and joining again is the character-by-character reading |
| Formatters.TitleFromAt | src/utils/formatters.ts:211-215 | in that reading, spaces are kept, a letter that starts a word is uppercased, and every other character is kept |
| Formatters.TitleCaseCharacters | src/utils/formatters.ts:209-216 | title case keeps the length and every space, uppercases the first letter of each word and lowercases every other letter |
| Text.LowerChar | src/utils/formatters.ts:212 | `toLowerCase` on one character maps A-Z to a-z and keeps everything else, and never leaves an uppercase letter |
| Text.UpperChar | src/utils/formatters.ts:203 | `toUpperCase` on one character maps a-z to A-Z and keeps everything else, and never leaves a lowercase letter |
| Text.Lower | src/api/_mockApi.ts:43 | `toLowerCase` keeps the length and lowercases every character |
| Text.Upper | src/stores/auth.store.ts:43-45 | `toUpperCase` keeps the length and uppercases every character |
| Text.TrimStart | src/utils/validators.ts:11 | drops exactly the leading whitespace: what is left is a suffix that starts with a non-blank, and only whitespace was dropped |
| Text.TrimEnd | src/utils/validators.ts:11 | drops exactly the trailing whitespace: what is left is a prefix that ends with a non-blank, and only whitespace was dropped |
| Text.TrimEmptyIffWhitespace | src/utils/validators.ts:11 | `val.trim().length === 0` holds exactly when the string is all whitespace |
| Text.Split | src/utils/formatters.ts:213 | `split(sep)` always gives at least one part |
| Text.JoinConsHead | src/utils/formatters.ts:215 | a character in front of the first part stays in front of the joined text |
| Text.JoinSplit | src/utils/formatters.ts:213-215 | joining the parts of a split by the same separator gives the string back |
| Text.SplitPartsFree | src/utils/formatters.ts:213 | no part of a split holds the separator |
| Text.SplitFreePrefix | src/stores/auth.store.ts:41 | a separator-free prefix is glued to the first part of the split of the rest |
| Text.SplitLeadingSeparator | src/stores/auth.store.ts:41 | a leading separator makes an empty first part |
| Text.SplitFirstPartHead | src/stores/auth.store.ts:42-43 | a string that does not start with the separator has a non-empty first part starting with its first character |
| Text.SplitJoin | src/utils/validators.ts:182 | splitting a join of separator-free parts gives the parts back |
| Text.DigitChar | src/api/_mockApi.ts:20 | the character of a decimal digit is a digit with that value |
| Text.NatToString | src/api/_mockApi.ts:20 | the decimal text of a natural number is non-empty and all digits |
| Text.IntToString | src/api/_mockApi.ts:20 | the decimal text of an integer is non-empty, all digits exactly when the integer is not negative, and starts with '-' otherwise |
| Text.NatToStringValue | src/api/client.ts:87 | reading the decimal text of a natural number back gives the number |
| Text.NatToStringShort | src/utils/validators.ts:181-182 | numbers below 10, 100 and 1000 take at most one, two and three digits |
| ListPatch.Keep | src/stores/project.store.ts:43 | `filter` keeps only elements of the list that pass the test, keeps every element that does, and never adds or duplicates one |
| ListPatch.KeepMultiset | src/stores/project.store.ts:43 | `filter` keeps every copy of a passing element and no copy of a failing one |
| ListPatch.KeepSingle | src/stores/project.store.ts:43 | a one-element list keeps its element exactly when it passes |
| ListPatch.KeepAppend | src/stores/project.store.ts:43 | filtering a concatenation is the concatenation of the filtered parts, so the kept elements stay in their original order |
| ListPatch.KeepThenKeep | src/api/_mockApi.ts:58-62 | filtering twice in a row is filtering once by both tests |
| ListPatch.KeepEverything | src/stores/project.store.ts:46-63 | a filter that every element passes gives the list back unchanged |
| ListPatch.KeepDisjointCount | src/stores/deployment.store.ts:94-96 | filtering by either of two tests that never both hold keeps as many elements as the two filters together |
| ListPatch.Stage | src/stores/project.store.ts:49-61 | a guarded filtering step: the list unchanged when its filter is off, the list filtered when it is on |
| ListPatch.KeepExtensional | src/stores/project.store.ts:46-63 | two tests that agree on every element filter alike |
| ListPatch.StageFirst | src/stores/project.store.ts:49-55 | a first guarded step is a single filter by "off, or passes" |
| ListPatch.StageAfterKeep | src/stores/project.store.ts:58-60 | a guarded step after a filter is a single filter by both tests |
| ListPatch.FindFirst | src/api/_mockApi.ts:124 | `findIndex(p)`: the first position that passes, no earlier one does, and -1 only when none does |
| ListPatch.FindIndex | src/stores/project.store.ts:163 | `findIndex(x => x.id === id)`: the first position with that id, no earlier one has it, and -1 only when none does |
| ListPatch.Find | src/api/client.ts:230 | `find(x => x.id === id)`: nothing exactly when no element has the id, else an element of the list with it |
| ListPatch.ReplaceFirst | src/stores/project.store.ts:163-166 | `list[index] = x` after `findIndex`: the length is kept, a list without the id is unchanged, and only the first element with the id is replaced by `x` |
| ListPatch.ReplaceFirstKeepsIds | src/stores/project.store.ts:162-166 | replacing by a record with the same id keeps every position's id, and the id is then found as the new record |
| ListPatch.RemoveId | src/stores/project.store.ts:194 | `filter(x => x.id !== id)` keeps every element with another id and none with this id; the list gets shorter exactly when the id was present |
| ListPatch.KeepUnlessId | src/stores/project.store.ts:194 | dropping an id shortens the list exactly when the id is present and otherwise gives it back unchanged |
| ListPatch.PatchCurrent | src/stores/project.store.ts:169-171 | the current record becomes the updated one exactly when it has the id, else it is kept |
| ListPatch.DropCurrent | src/stores/project.store.ts:198-200 | the current record is cleared when it has the id, else it is kept |
| JsValues.Or | src/api/_mockApi.ts:65-66 | `a \|\| b` is `a` when `a` is truthy and `b` otherwise |
| JsValues.ParseInteger | src/api/_mockApi.ts:60 | a decimal integer literal, optionally signed, is read exactly when the text is one |
| JsValues.StringToNumber | src/api/_mockApi.ts:60 | `Number(s)` on integer text: blank text is 0, otherwise the trimmed text must be an integer literal |
| JsValues.IntToStringParses | src/api/_mockApi.ts:60 | `Number(String(i))` is `i` |
| JsValues.TrimUnchanged | src/api/_mockApi.ts:60 | text that neither starts nor ends with whitespace is its own trim |
| JsValues.LooseEqProperties | src/api/_mockApi.ts:60 | `==` is symmetric and reflexive on primitives, agrees with `===` within strings, numbers and booleans, and equates null and undefined only with each other |
| JsValues.LooseEqNumString | src/api/_mockApi.ts:60 | a number is loosely equal to its decimal text, so a numeric id filter matches a query parameter given as text |
| JsValues.JoinValuesOfStrings | src/composables/useFilters.ts:57 | `join(',')` of string values is the join of the strings |
| Wrappers.ErrorMessage | src/stores/project.store.ts:103 | `err instanceof Error ? err.message : fallback` |
| Wrappers.FailureMessage | src/stores/project.store.ts:102-105 | a failed call yields the error message or the fallback, and a successful one yields none |
| JsMath.FloorDiv | src/utils/formatters.ts:170-171 | `Math.floor(a / b)`: the greatest multiple of `b` not above `a` |
| JsMath.CeilDiv | src/api/_mockApi.ts:68 | `Math.ceil(a / b)`: the least multiple of `b` not below `a` |
| JsMath.TruncRem | src/utils/formatters.ts:171-172 | JavaScript's `%` rounds toward zero: the Euclidean remainder for a non-negative dividend, and its negation on the magnitude, between `-b` and 0, otherwise |
| JsMath.PageCount | src/api/_mockApi.ts:68 | `Math.ceil(total / size) \|\| 1` is never 0: the ceiling, or 1 in its place when the ceiling is 0 |
| JsMath.PageCountBounds | src/composables/usePagination.ts:32 | for a non-negative total and a positive size, at least one page, the fewest pages that hold every item |
| Storage.Lookup | src/stores/auth.store.ts:56-58 | `localStorage.getItem(key)`: null exactly when the key is not stored, else the stored text |
| Storage.LocalStorage.constructor | src/stores/auth.store.ts:56-58 | the stored keys and texts are the given ones |
| Storage.LocalStorage.GetItem | src/api/client.ts:349-354 | reads the stored text of the key, or null |
| Storage.LocalStorage.SetItem | src/stores/auth.store.ts:136-137 | stores the text under the key and changes no other key |
| Storage.LocalStorage.RemoveItem | src/stores/auth.store.ts:316-318 | deletes the key and changes no other key |
| StoreQuery.QueryParams | src/stores/project.store.ts:78-92 | `{ page, size, ...params }` with the store's own layer on top: every layer entry wins, every other caller parameter is kept, and page and size fall back to the store's own |
| StoreQuery.SearchLayer | src/stores/project.store.ts:85-87 | the `search` entry, added only when the search text is not empty |
| StoreQuery.SearchQueryParamsLayers | src/stores/team.store.ts:77-86 | a non-empty search overrides the caller's `search`; an empty one leaves the caller's parameters as given; page and size fall back to the store's |
| ProjectStore.FilteredProjectsExactly | src/stores/project.store.ts:46-63 | `filteredProjects` keeps, in order, exactly the projects whose name or description contains the lowercased search and whose status is the status filter, each filter applying only when it is not empty |
| ProjectStore.FilteredProjectsIgnoreTeam | src/stores/project.store.ts:33 | the team filter has no effect on the filtered list |
| ProjectStore.NoFiltersKeepAll | src/stores/project.store.ts:46-63 | with every filter cleared the filtered list is the whole list |
| ProjectStore.ActiveProjects | src/stores/project.store.ts:42-44 | only and every project whose status is 'active' |
| ProjectStore.FilterLayer | src/stores/project.store.ts:84-92 | the assignments after the spread: one key per set filter, search and status only |
| ProjectStore.ProjectQueryParamsLayers | src/stores/project.store.ts:78-92 | a non-empty search or status is sent as set, an empty one leaves its key to the caller, the team filter is never sent, and page and size come from the store unless the caller gives them |
| ProjectStore.Store.constructor | src/stores/project.store.ts:20-33 | an empty list, no current project, not loading, no error, page 1 of size 20, a total of 0 and no filters |
| ProjectStore.Store.BuildQueryParams | src/stores/project.store.ts:78-92 | the parameters sent are the three layers built from the store's page, size and filters |
| ProjectStore.Store.ApplyPage | src/stores/project.store.ts:95-105 | on success the items, total, page and size are copied from the response; on failure they are kept and the error message is set; loading ends either way |
| ProjectStore.Store.FetchProjects | src/stores/project.store.ts:73-109 | sends the layered parameters, then copies the four response fields on success or keeps them and sets the error on failure, and the result is the call's outcome |
| ProjectStore.Store.FetchProject | src/stores/project.store.ts:114-129 | on success the fetched project becomes the current one; on failure the current project is kept and the error is set |
| ProjectStore.Store.CreateProject | src/stores/project.store.ts:134-150 | on success the new project is put first and the total grows by 1; on failure list and total are kept |
| ProjectStore.Store.ApplyUpdate | src/stores/project.store.ts:162-171 | on success the first project with the id and a current project with that id become the returned project; on failure nothing but the error changes |
| ProjectStore.Store.UpdateProject | src/stores/project.store.ts:155-181 | `updateProject`: the first project with the id is replaced, the current project is replaced when its id matches, and the list length is kept |
| ProjectStore.Store.DeleteProject | src/stores/project.store.ts:186-208 | on success every project with the id is dropped, the total shrinks by 1 whether or not one was listed, and a current project with the id is cleared |
| ProjectStore.Store.FetchProjectsByTeam | src/stores/project.store.ts:213-230 | on success only the items and the total are copied; page and size stay |
| ProjectStore.Store.SetFilters | src/stores/project.store.ts:235-254 | a filter change goes back to page 1 |
| ProjectStore.Store.SetSearchQuery | src/stores/project.store.ts:235-238 | only the search changes, and the page is 1 |
| ProjectStore.Store.SetStatusFilter | src/stores/project.store.ts:243-246 | only the status filter changes, and the page is 1 |
| ProjectStore.Store.SetTeamFilter | src/stores/project.store.ts:251-254 | only the team filter changes, and the page is 1 |
| ProjectStore.Store.SetPage | src/stores/project.store.ts:259-261 | the page is stored as given |
| ProjectStore.Store.SetPageSize | src/stores/project.store.ts:266-269 | the size is stored and the page is 1 |
| ProjectStore.Store.ClearFilters | src/stores/project.store.ts:274-279 | every filter cleared and the page is 1 |
| ProjectStore.Store.ClearCurrentProject | src/stores/project.store.ts:284-286 | no current project |
| ProjectStore.Store.ClearAll | src/stores/project.store.ts:291-300 | the state of a new store |
| StoreQuery.StoreTotalPages | src/stores/project.store.ts:39 | `Math.ceil(totalCount / pageSize)`: the fewest pages holding the total for a positive size, and no finite value for size 0; the same getter appears in every entity store |
| StoreQuery.StoreTotalPagesVersusPageCount | src/stores/project.store.ts:39 | with no items a store shows 0 pages where the pagination composable shows 1; with items they agree |
| TeamStore.FilteredTeamsExactly | src/stores/team.store.ts:50-63 | `filteredTeams` keeps, in order, exactly the teams whose name or description contains the lowercased search, and every team when the search is empty |
| TeamStore.Store.constructor | src/stores/team.store.ts:20-35 | no teams, no current team, no members and no stats, not loading, no error, page 1 of size 20, a total of 0 and an empty search |
| TeamStore.Store.BuildQueryParams | src/stores/team.store.ts:77-86 | the store's page and size, the caller's parameters over them and a non-empty search over both |
| TeamStore.Store.ApplyPage | src/stores/team.store.ts:88-102 | on success the items, total, page and size are copied from the response; on failure they are kept and the error is set; loading ends either way |
| TeamStore.Store.FetchTeams | src/stores/team.store.ts:72-103 | sends the layered parameters and copies the four response fields on success, keeping them and setting the error on failure |
| TeamStore.Store.FetchTeam | src/stores/team.store.ts:108-123 | on success the fetched team becomes the current one; on failure it is kept and the error is set |
| TeamStore.Store.CreateTeam | src/stores/team.store.ts:128-144 | on success the new team is put first and the total grows by 1; on failure list and total are kept |
| TeamStore.Store.UpdateTeam | src/stores/team.store.ts:149-175 | on success the first team with the id, and the current team when its id matches, become the returned team |
| TeamStore.Store.DeleteTeam | src/stores/team.store.ts:180-202 | on success every team with the id is dropped, the total shrinks by 1 unconditionally, and a current team with the id is cleared |
| TeamStore.Store.FetchMyTeams | src/stores/team.store.ts:207-223 | on success only the items and total are copied; page and size stay |
| TeamStore.Store.FetchTeamMembers | src/stores/team.store.ts:232-247 | on success the member list becomes the response's items; teams and counters are out of its frame |
| TeamStore.Store.AddTeamMember | src/stores/team.store.ts:252-267 | on success the new member is put first; the teams and the total are out of its frame |
| TeamStore.Store.UpdateTeamMemberRole | src/stores/team.store.ts:272-293 | on success only the first member with `memberId` is replaced |
| TeamStore.Store.RemoveTeamMember | src/stores/team.store.ts:298-314 | on success every member with `memberId` is removed, and the teams and total are untouched |
| TeamStore.Store.FetchTeamStats | src/stores/team.store.ts:319-334 | on success the stats are the fetched ones; on failure they are kept |
| TeamStore.Store.SetSearchQuery | src/stores/team.store.ts:343-346 | the search is stored and the page is 1 |
| TeamStore.Store.SetPage | src/stores/team.store.ts:351-353 | the page is stored as given |
| TeamStore.Store.SetPageSize | src/stores/team.store.ts:358-361 | the size is stored and the page is 1 |
| TeamStore.Store.ClearCurrentTeam | src/stores/team.store.ts:366-370 | no current team, no members and no stats; the teams are untouched |
| TeamStore.Store.ClearAll | src/stores/team.store.ts:375-386 | the state of a new store |
| UserStore.KeptOrFailure | src/stores/user.store.ts:57-102 | the error after an action that does not reset it: the earlier error survives a success, and a failure sets the message or the fallback |
| UserStore.Store.constructor | src/stores/user.store.ts:11-22 | no users, not loading, no error, no profile, page 1 of size 20, a total of 0 and an empty search |
| UserStore.Store.BuildQueryParams | src/stores/user.store.ts:32-43 | the store's page and size, the caller's parameters over them and a non-empty search over both |
| UserStore.Store.ApplyListOnly | src/stores/user.store.ts:45-54 | on success only the items and total are copied; on failure they are kept and the error is set |
| UserStore.Store.FetchUsers | src/stores/user.store.ts:28-55 | sends the layered parameters; on success copies the items and total but leaves page and size as they were |
| UserStore.Store.CreateUser | src/stores/user.store.ts:57-71 | on success the new user is put first and the total grows by 1, and an earlier error is kept |
| UserStore.Store.UpdateUser | src/stores/user.store.ts:73-88 | on success the first user with the id is replaced, and an earlier error is kept |
| UserStore.Store.DeleteUser | src/stores/user.store.ts:90-102 | on success every user with the id is dropped and the total shrinks by 1 unconditionally, and an earlier error is kept |
| UserStore.Store.FetchUserProfile | src/stores/user.store.ts:104-117 | on success the profile is the fetched one; on failure it is kept and the error is set |
| UserStore.Store.SetPage | src/stores/user.store.ts:120-122 | the page is stored as given |
| UserStore.Store.SetPageSize | src/stores/user.store.ts:124-127 | the size is stored and the page is 1 |
| SprintStore.FilteredSprintsExactly | src/stores/sprint.store.ts:55-76 | `filteredSprints` keeps, in order, exactly the sprints whose name or goal contains the lowercased search, whose status is the status filter, and whose project is the project filter, each filter applying only when set |
| SprintStore.ProjectZeroIgnored | src/stores/sprint.store.ts:71-73 | a project filter of 0 is falsy and filters nothing, as if no project were chosen |
| SprintStore.NoFiltersKeepAll | src/stores/sprint.store.ts:55-76 | with every filter cleared the filtered list is the whole list |
| SprintStore.WithStatus | src/stores/sprint.store.ts:43-53 | only and every sprint with the given status |
| SprintStore.StatusSubsetsCount | src/stores/sprint.store.ts:43-53 | the active, planned and completed subsets together hold every sprint that is not cancelled; a cancelled sprint is in none of them |
| SprintStore.FilterLayer | src/stores/sprint.store.ts:96-109 | the assignments after the spread: one key per set filter, the project only when truthy |
| SprintStore.SprintQueryParamsLayers | src/stores/sprint.store.ts:90-109 | a set search, status or project is sent as set, an unset one leaves its key to the caller, and page and size come from the store unless the caller gives them |
| SprintStore.Store.constructor | src/stores/sprint.store.ts:20-33 | no sprints, no current sprint, not loading, no error, page 1 of size 20, a total of 0 and no filters |
| SprintStore.Store.BuildQueryParams | src/stores/sprint.store.ts:90-109 | the parameters sent are the three layers built from the store's page, size and filters |
| SprintStore.Store.ApplyPage | src/stores/sprint.store.ts:111-125 | on success the items, total, page and size are copied; on failure they are kept and the error is set; loading ends either way |
| SprintStore.Store.FetchSprints | src/stores/sprint.store.ts:85-126 | sends the layered parameters and copies the four response fields on success |
| SprintStore.Store.FetchSprint | src/stores/sprint.store.ts:131-146 | on success the fetched sprint becomes the current one; on failure it is kept and the error is set |
| SprintStore.Store.CreateSprint | src/stores/sprint.store.ts:151-167 | on success the new sprint is put first and the total grows by 1 |
| SprintStore.Store.ApplyUpdate | src/stores/sprint.store.ts:172-287 | the update shared by update, start and complete: the first sprint with the id and a matching current sprint become the returned sprint |
| SprintStore.Store.UpdateSprint | src/stores/sprint.store.ts:172-198 | `updateSprint`: only the first sprint with the id is replaced, and the current sprint when its id matches |
| SprintStore.Store.StartSprint | src/stores/sprint.store.ts:230-256 | `startSprint`: only the first sprint with the id is replaced by the returned one, and the current sprint when its id matches |
| SprintStore.Store.CompleteSprint | src/stores/sprint.store.ts:261-287 | `completeSprint`: the same replacement with the completed sprint |
| SprintStore.Store.DeleteSprint | src/stores/sprint.store.ts:203-225 | on success every sprint with the id is dropped, the total shrinks by 1 unconditionally, and a matching current sprint is cleared |
| SprintStore.Store.FetchSprintsByProject | src/stores/sprint.store.ts:292-309 | on success only the items and total are copied |
| SprintStore.Store.SetFilters | src/stores/sprint.store.ts:314-333 | a filter change goes back to page 1 |
| SprintStore.Store.SetSearchQuery | src/stores/sprint.store.ts:314-317 | only the search changes, and the page is 1 |
| SprintStore.Store.SetStatusFilter | src/stores/sprint.store.ts:322-325 | only the status filter changes, and the page is 1 |
| SprintStore.Store.SetProjectFilter | src/stores/sprint.store.ts:330-333 | only the project filter changes, and the page is 1 |
| SprintStore.Store.SetPage | src/stores/sprint.store.ts:338-340 | the page is stored as given |
| SprintStore.Store.SetPageSize | src/stores/sprint.store.ts:345-348 | the size is stored and the page is 1 |
| SprintStore.Store.ClearFilters | src/stores/sprint.store.ts:353-358 | every filter cleared and the page is 1 |
| SprintStore.Store.ClearCurrentSprint | src/stores/sprint.store.ts:363-365 | no current sprint |
| SprintStore.Store.ClearAll | src/stores/sprint.store.ts:370-379 | the state of a new store |
| ServerStore.FilteredServersExactly | src/stores/server.store.ts:70-96 | `filteredServers` keeps, in order, exactly the servers whose lowercased name or hostname, or raw IP address, contains the search, and whose environment, type and status equal the filters that are not empty |
| ServerStore.NoFiltersKeepAll | src/stores/server.store.ts:70-96 | with every filter cleared the filtered list is the whole list |
| ServerStore.IpSearchIsCaseSensitive | src/stores/server.store.ts:79 | the IP address is searched without case folding: an uppercase IPv6 address is missed by its own uppercase text, because the query is lowercased |
| ServerStore.WithEnvironment | src/stores/server.store.ts:52-62 | only and every server with the given environment: the production, staging and development subsets |
| ServerStore.WithStatus | src/stores/server.store.ts:65-67 | only and every server with the given status: the running and stopped subsets |
| ServerStore.FilterLayer | src/stores/server.store.ts:116-132 | the assignments after the spread: one key per non-empty filter |
| ServerStore.ServerQueryParamsLayers | src/stores/server.store.ts:110-132 | a non-empty search, environment, type or status is sent as set, an empty one leaves its key to the caller, and page and size come from the store unless the caller gives them |
| ServerStore.Store.constructor | src/stores/server.store.ts:27-41 | no servers, no current server, not loading, no error, page 1 of size 20, a total of 0 and no filters |
| ServerStore.Store.BuildQueryParams | src/stores/server.store.ts:110-132 | the parameters sent are the three layers built from the store's page, size and filters |
| ServerStore.Store.ApplyPage | src/stores/server.store.ts:134-148 | on success the items, total, page and size are copied; on failure they are kept and the error is set; loading ends either way |
| ServerStore.Store.FetchServers | src/stores/server.store.ts:105-149 | sends the layered parameters and copies the four response fields on success |
| ServerStore.Store.FetchServer | src/stores/server.store.ts:154-169 | on success the fetched server becomes the current one; on failure it is kept and the error is set |
| ServerStore.Store.CreateServer | src/stores/server.store.ts:174-190 | on success the new server is put first and the total grows by 1 |
| ServerStore.Store.ApplyUpdate | src/stores/server.store.ts:195-279 | the update shared by `updateServer` and `updateStatus`: the first server with the id and a matching current server become the returned server |
| ServerStore.Store.UpdateServer | src/stores/server.store.ts:195-221 | `updateServer`: only the first server with the id is replaced, and the current server when its id matches |
| ServerStore.Store.UpdateStatus | src/stores/server.store.ts:253-279 | `updateStatus`: the same replacement with the server the status call returns |
| ServerStore.Store.DeleteServer | src/stores/server.store.ts:226-248 | on success every server with the id is dropped, the total shrinks by 1 unconditionally, and a matching current server is cleared |
| ServerStore.Store.SetFilters | src/stores/server.store.ts:284-311 | a filter change goes back to page 1 |
| ServerStore.Store.SetSearchQuery | src/stores/server.store.ts:284-287 | only the search changes, and the page is 1 |
| ServerStore.Store.SetEnvironmentFilter | src/stores/server.store.ts:292-295 | only the environment filter changes, and the page is 1 |
| ServerStore.Store.SetTypeFilter | src/stores/server.store.ts:300-303 | only the type filter changes, and the page is 1 |
| ServerStore.Store.SetStatusFilter | src/stores/server.store.ts:308-311 | only the status filter changes, and the page is 1 |
| ServerStore.Store.SetPage | src/stores/server.store.ts:316-318 | the page is stored as given |
| ServerStore.Store.SetPageSize | src/stores/server.store.ts:323-326 | the size is stored and the page is 1 |
| ServerStore.Store.ClearFilters | src/stores/server.store.ts:331-337 | every filter cleared and the page is 1 |
| ServerStore.Store.ClearCurrentServer | src/stores/server.store.ts:342-344 | no current server |
| ServerStore.Store.ClearAll | src/stores/server.store.ts:349-358 | the state of a new store |
| ServiceStore.FilteredServicesExactly | src/stores/service.store.ts:71-97 | `filteredServices` keeps, in order, exactly the services whose lowercased name, description or url contains the search, whose server is the server filter when it is not null, and whose type and status equal the filters that are not empty |
| ServiceStore.NoFiltersKeepAll | src/stores/service.store.ts:71-97 | with every filter cleared the filtered list is the whole list |
| ServiceStore.WithType | src/stores/service.store.ts:51-63 | only and every service of the given type: the web, api, database, cache, queue, worker and cron subsets |
| ServiceStore.WithStatus | src/stores/service.store.ts:66-68 | only and every service with the given status: the running and stopped subsets |
| ServiceStore.FilterLayer | src/stores/service.store.ts:117-133 | the assignments after the spread: the server id whenever it is not null, the strings when not empty |
| ServiceStore.ServiceQueryParamsLayers | src/stores/service.store.ts:111-133 | a set search, server (0 included), type or status is sent as set, an unset one leaves its key to the caller, and page and size come from the store unless the caller gives them |
| ServiceStore.Store.constructor | src/stores/service.store.ts:26-40 | no services, no current service, not loading, no error, page 1 of size 20, a total of 0 and no filters |
| ServiceStore.Store.BuildQueryParams | src/stores/service.store.ts:111-133 | the parameters sent are the three layers built from the store's page, size and filters |
| ServiceStore.Store.ApplyPage | src/stores/service.store.ts:135-149 | on success the items, total, page and size are copied; on failure they are kept and the error is set; loading ends either way |
| ServiceStore.Store.FetchServices | src/stores/service.store.ts:106-150 | sends the layered parameters and copies the four response fields on success |
| ServiceStore.Store.FetchService | src/stores/service.store.ts:155-170 | on success the fetched service becomes the current one; on failure it is kept and the error is set |
| ServiceStore.Store.CreateService | src/stores/service.store.ts:175-191 | on success the new service is put first and the total grows by 1 |
| ServiceStore.Store.ApplyUpdate | src/stores/service.store.ts:196-280 | the update shared by `updateService` and `updateStatus`: the first service with the id and a matching current service become the returned service |
| ServiceStore.Store.UpdateService | src/stores/service.store.ts:196-222 | `updateService`: only the first service with the id is replaced, and the current service when its id matches |
| ServiceStore.Store.UpdateStatus | src/stores/service.store.ts:254-280 | `updateStatus`: the same replacement with the service the status call returns |
| ServiceStore.Store.DeleteService | src/stores/service.store.ts:227-249 | on success every service with the id is dropped, the total shrinks by 1 unconditionally, and a matching current service is cleared |
| ServiceStore.Store.ApplyListOnly | src/stores/service.store.ts:285-322 | what `fetchServicesByServer` and `fetchServicesByType` do with the response: only the items and total are copied |
| ServiceStore.Store.FetchServicesByServer | src/stores/service.store.ts:285-301 | on success only the items and total are copied; page and size stay |
| ServiceStore.Store.FetchServicesByType | src/stores/service.store.ts:306-322 | on success only the items and total are copied; page and size stay |
| ServiceStore.Store.SetFilters | src/stores/service.store.ts:327-354 | a filter change goes back to page 1 |
| ServiceStore.Store.SetSearchQuery | src/stores/service.store.ts:327-330 | only the search changes, and the page is 1 |
| ServiceStore.Store.SetServerFilter | src/stores/service.store.ts:335-338 | only the server filter changes, and the page is 1 |
| ServiceStore.Store.SetTypeFilter | src/stores/service.store.ts:343-346 | only the type filter changes, and the page is 1 |
| ServiceStore.Store.SetStatusFilter | src/stores/service.store.ts:351-354 | only the status filter changes, and the page is 1 |
| ServiceStore.Store.SetPage | src/stores/service.store.ts:359-361 | the page is stored as given |
| ServiceStore.Store.SetPageSize | src/stores/service.store.ts:366-369 | the size is stored and the page is 1 |
| ServiceStore.Store.ClearFilters | src/stores/service.store.ts:374-380 | the server filter null, the other filters empty, and the page 1 |
| ServiceStore.Store.ClearCurrentService | src/stores/service.store.ts:385-387 | no current service |
| ServiceStore.Store.ClearAll | src/stores/service.store.ts:392-401 | the state of a new store |
| DeploymentStore.FirstThreeStages | src/stores/deployment.store.ts:99-119 | the search, service and environment stages together keep exactly the deployments that pass those three tests |
| DeploymentStore.FilteredDeploymentsExactly | src/stores/deployment.store.ts:99-130 | `filteredDeployments` keeps, in order, exactly the deployments whose lowercased version, branch, tag or notes contains the search, whose service is the service filter when it is not null, and whose environment, type and status equal the filters that are not empty |
| DeploymentStore.NoFiltersKeepAll | src/stores/deployment.store.ts:99-130 | with every filter cleared the filtered list is the whole list |
| DeploymentStore.WithType | src/stores/deployment.store.ts:52-62 | only and every deployment of the given type: the manual, automatic and rollback subsets |
| DeploymentStore.WithStatus | src/stores/deployment.store.ts:65-83 | only and every deployment with the given status: the pending, in-progress, success, failed and rolled-back subsets |
| DeploymentStore.WithEnvironment | src/stores/deployment.store.ts:86-92 | only and every deployment in the given environment: the production and staging subsets |
| DeploymentStore.DevelopmentDeployments | src/stores/deployment.store.ts:94-96 | only and every deployment whose environment is 'dev' or 'development' |
| DeploymentStore.DevelopmentCount | src/stores/deployment.store.ts:94-96 | the development subset has as many members as the 'dev' and 'development' subsets together |
| DeploymentStore.FilterLayer | src/stores/deployment.store.ts:150-170 | the assignments after the spread: the service id whenever it is not null, the strings when not empty |
| DeploymentStore.DeploymentQueryParamsLayers | src/stores/deployment.store.ts:144-170 | a set search, service (0 included), environment, type or status is sent as set, an unset one leaves its key to the caller, and page and size come from the store unless the caller gives them |
| DeploymentStore.Store.constructor | src/stores/deployment.store.ts:26-41 | no deployments, no current deployment, not loading, no error, page 1 of size 20, a total of 0 and no filters |
| DeploymentStore.Store.BuildQueryParams | src/stores/deployment.store.ts:144-170 | the parameters sent are the three layers built from the store's page, size and filters |
| DeploymentStore.Store.ApplyPage | src/stores/deployment.store.ts:172-186 | on success the items, total, page and size are copied; on failure they are kept and the error is set; loading ends either way |
| DeploymentStore.Store.FetchDeployments | src/stores/deployment.store.ts:139-187 | sends the layered parameters and copies the four response fields on success |
| DeploymentStore.Store.FetchDeployment | src/stores/deployment.store.ts:192-207 | on success the fetched deployment becomes the current one; on failure it is kept and the error is set |
| DeploymentStore.Store.ApplyCreate | src/stores/deployment.store.ts:212-341 | what `createDeployment` and `rollbackDeployment` share: on success the returned deployment is put first and the total grows by 1 |
| DeploymentStore.Store.CreateDeployment | src/stores/deployment.store.ts:212-228 | on success the new deployment is put first and the total grows by 1; on failure nothing but the error changes |
| DeploymentStore.Store.RollbackDeployment | src/stores/deployment.store.ts:322-341 | a rollback adds the deployment the server returns at the front and counts it, like a creation |
| DeploymentStore.Store.ApplyUpdate | src/stores/deployment.store.ts:233-317 | the update shared by `updateDeployment` and `updateStatus`: the first deployment with the id and a matching current deployment become the returned one |
| DeploymentStore.Store.UpdateDeployment | src/stores/deployment.store.ts:233-259 | only the first deployment with the id is replaced, and the current deployment when its id matches |
| DeploymentStore.Store.UpdateStatus | src/stores/deployment.store.ts:291-317 | the same replacement with the deployment the status call returns |
| DeploymentStore.Store.DeleteDeployment | src/stores/deployment.store.ts:264-286 | on success every deployment with the id is dropped, the total shrinks by 1 unconditionally, and a matching current deployment is cleared |
| DeploymentStore.Store.ApplyListOnly | src/stores/deployment.store.ts:346-428 | what the four `fetchDeploymentsBy…` actions do with the response: only the items and total are copied |
| DeploymentStore.Store.FetchDeploymentsByService | src/stores/deployment.store.ts:346-363 | on success only the items and total are copied; page and size stay |
| DeploymentStore.Store.FetchDeploymentsByEnvironment | src/stores/deployment.store.ts:368-385 | on success only the items and total are copied; page and size stay |
| DeploymentStore.Store.FetchDeploymentsByStatus | src/stores/deployment.store.ts:390-407 | on success only the items and total are copied; page and size stay |
| DeploymentStore.Store.FetchDeploymentsByType | src/stores/deployment.store.ts:412-428 | on success only the items and total are copied; page and size stay |
| DeploymentStore.Store.SetFilters | src/stores/deployment.store.ts:433-468 | a filter change goes back to page 1 |
| DeploymentStore.Store.SetSearchQuery | src/stores/deployment.store.ts:433-436 | only the search changes, and the page is 1 |
| DeploymentStore.Store.SetServiceFilter | src/stores/deployment.store.ts:441-444 | only the service filter changes, and the page is 1 |
| DeploymentStore.Store.SetEnvironmentFilter | src/stores/deployment.store.ts:449-452 | only the environment filter changes, and the page is 1 |
| DeploymentStore.Store.SetTypeFilter | src/stores/deployment.store.ts:457-460 | only the type filter changes, and the page is 1 |
| DeploymentStore.Store.SetStatusFilter | src/stores/deployment.store.ts:465-468 | only the status filter changes, and the page is 1 |
| DeploymentStore.Store.SetPage | src/stores/deployment.store.ts:473-475 | the page is stored as given |
| DeploymentStore.Store.SetPageSize | src/stores/deployment.store.ts:480-483 | the size is stored and the page is 1 |
| DeploymentStore.Store.ClearFilters | src/stores/deployment.store.ts:488-495 | the service filter null, the other filters empty, and the page 1 |
| DeploymentStore.Store.ClearCurrentDeployment | src/stores/deployment.store.ts:500-502 | no current deployment |
| DeploymentStore.Store.ClearAll | src/stores/deployment.store.ts:507-516 | the state of a new store |
| IssueStore.FirstFourStages | src/stores/issue.store.ts:78-103 | the search, status, priority and type stages together keep exactly the issues that pass those four tests |
| IssueStore.LastThreeStages | src/stores/issue.store.ts:105-115 | the project, sprint and assignee stages applied after the first four keep exactly the issues that pass all seven tests |
| IssueStore.FilteredIssuesExactly | src/stores/issue.store.ts:78-115 | `filteredIssues` keeps, in order, exactly the issues whose lowercased title or description contains the search, whose status, priority and type equal the filters that are not empty, whose project is the project filter when it is neither null nor 0, and whose sprint and assignee are the filters that are not null |
| IssueStore.PassingAllMatches | src/stores/issue.store.ts:78-115 | passing the seven stage tests in turn is the same test as matching every filter |
| IssueStore.NoFiltersKeepAll | src/stores/issue.store.ts:78-115 | with every filter cleared the filtered list is the whole list |
| IssueStore.WithStatus | src/stores/issue.store.ts:55-65 | only and every issue with the given status: the todo, in-progress, in-review, testing, done and closed subsets |
| IssueStore.WithPriority | src/stores/issue.store.ts:68-70 | only and every issue with the given priority: the urgent and high subsets |
| IssueStore.WithType | src/stores/issue.store.ts:73-75 | only and every issue of the given type: the epic and bug subsets |
| IssueStore.IssuesByStatusPartition | src/stores/issue.store.ts:118-125 | when every status is one of the six known ones, the six Kanban columns of `issuesByStatus` hold as many issues as the list |
| IssueStore.FilterLayer | src/stores/issue.store.ts:150-173 | the assignments after the spread: the strings when not empty, the project id when neither null nor 0, the sprint and assignee ids whenever not null |
| IssueStore.FilterLayerEntries | src/stores/issue.store.ts:150-173 | each set filter is present under its query key with its value, an unset one is absent, and the layer never holds page or size |
| IssueStore.IssueQueryParamsLayers | src/stores/issue.store.ts:139-173 | a set filter is sent as set, an unset one leaves its key to the caller, and page and size come from the store unless the caller gives them |
| IssueStore.Store.constructor | src/stores/issue.store.ts:27-44 | no issues, no current issue, not loading, no error, page 1 of size 20, a total of 0 and no filters |
| IssueStore.Store.BuildQueryParams | src/stores/issue.store.ts:139-173 | the parameters sent are the three layers built from the store's page, size and filters |
| IssueStore.Store.ApplyPage | src/stores/issue.store.ts:175-190 | on success the items, total, page and size are copied; on failure they are kept and the error is set; loading ends either way |
| IssueStore.Store.FetchIssues | src/stores/issue.store.ts:134-190 | sends the layered parameters and copies the four response fields on success |
| IssueStore.Store.FetchIssue | src/stores/issue.store.ts:195-210 | on success the fetched issue becomes the current one; on failure it is kept and the error is set |
| IssueStore.Store.CreateIssue | src/stores/issue.store.ts:215-231 | on success the new issue is put first and the total grows by 1; on failure nothing but the error changes |
| IssueStore.Store.ApplyUpdate | src/stores/issue.store.ts:236-382 | the update shared by `updateIssue`, `updateStatus`, `assignIssue` and `moveToSprint`: the first issue with the id and a matching current issue become the returned issue |
| IssueStore.Store.UpdateIssue | src/stores/issue.store.ts:236-262 | only the first issue with the id is replaced, and the current issue when its id matches |
| IssueStore.Store.UpdateStatus | src/stores/issue.store.ts:294-320 | the same replacement with the issue the status call returns |
| IssueStore.Store.AssignIssue | src/stores/issue.store.ts:325-351 | the same replacement with the issue the assignment call returns |
| IssueStore.Store.MoveToSprint | src/stores/issue.store.ts:356-382 | the same replacement with the issue the sprint move returns |
| IssueStore.Store.DeleteIssue | src/stores/issue.store.ts:267-289 | on success every issue with the id is dropped, the total shrinks by 1 unconditionally, and a matching current issue is cleared |
| IssueStore.Store.ApplyListOnly | src/stores/issue.store.ts:387-445 | what `fetchIssuesByProject`, `fetchIssuesBySprint` and `fetchMyIssues` do with the response: only the items and total are copied |
| IssueStore.Store.FetchIssuesByProject | src/stores/issue.store.ts:387-403 | on success only the items and total are copied; page and size stay |
| IssueStore.Store.FetchIssuesBySprint | src/stores/issue.store.ts:408-424 | on success only the items and total are copied; page and size stay |
| IssueStore.Store.FetchMyIssues | src/stores/issue.store.ts:429-445 | on success only the items and total are copied; page and size stay |
| IssueStore.Store.SetFilters | src/stores/issue.store.ts:450-501 | a filter change goes back to page 1 |
| IssueStore.Store.SetSearchQuery | src/stores/issue.store.ts:450-453 | only the search changes, and the page is 1 |
| IssueStore.Store.SetStatusFilter | src/stores/issue.store.ts:458-461 | only the status filter changes, and the page is 1 |
| IssueStore.Store.SetPriorityFilter | src/stores/issue.store.ts:466-469 | only the priority filter changes, and the page is 1 |
| IssueStore.Store.SetTypeFilter | src/stores/issue.store.ts:474-477 | only the type filter changes, and the page is 1 |
| IssueStore.Store.SetProjectFilter | src/stores/issue.store.ts:482-485 | only the project filter changes, and the page is 1 |
| IssueStore.Store.SetSprintFilter | src/stores/issue.store.ts:490-493 | only the sprint filter changes, and the page is 1 |
| IssueStore.Store.SetAssigneeFilter | src/stores/issue.store.ts:498-501 | only the assignee filter changes, and the page is 1 |
| IssueStore.Store.SetPage | src/stores/issue.store.ts:506-508 | the page is stored as given |
| IssueStore.Store.SetPageSize | src/stores/issue.store.ts:513-516 | the size is stored and the page is 1 |
| IssueStore.Store.ClearFilters | src/stores/issue.store.ts:521-530 | the three id filters null, the string filters empty, and the page 1 |
| IssueStore.Store.ClearCurrentIssue | src/stores/issue.store.ts:535-537 | no current issue |
| IssueStore.Store.ClearAll | src/stores/issue.store.ts:542-551 | the state of a new store |

## Left out

- HTTP transport is not modelled: the axios instance, the real requests that the mock routes
  fall back to, base URLs and timeouts. Each API call is a parameter holding its outcome.
- The delays are not modelled: the mock's `setTimeout` delay and the notification auto-remove
  timer. Every action is atomic given its outcome, and promise scheduling is not modelled.
- UI side effects are not modelled: Quasar `Notify` toasts, `window.location` redirects,
  console logging and Vue reactivity. They change no state the model keeps.
- The refresh request inside the response hook is posted through `originalPost`, bound to the
  same axios instance, so its failure passes back through the same hook. One run of the hook
  takes the refresh's reply as a parameter: a new access token, or what it threw; the re-entry
  is modelled separately by Client.RefreshPosts. A reply without `access_token` is not
  modelled, because the source would then store the text 'undefined'.
- AuthStore.Store.VerifyAuth: the store's `catch`, which signs out, is unreachable, because
  `authApi.verifyAuth` catches every failure and resolves to false. The model keeps the
  store's branch and takes the call's outcome as a parameter; AuthStore.VerifyCallNeverSignsOut
  states what the outcomes the call can produce lead to.
- AuthStore.Initials: lengths and indices count Unicode scalar values, while the source's
  `[0]`, `substring` and `.length` count UTF-16 code units, so a character outside the Basic
  Multilingual Plane counts as one character here and as two in the source.
- Validators.MinLength: `.length` counts Unicode scalar values here and UTF-16 code units in the
  source, so a character outside the Basic Multilingual Plane counts once here and twice there.
- Validators.MaxLength: `.length` counts Unicode scalar values here and UTF-16 code units in the
  source, so a character outside the Basic Multilingual Plane counts once here and twice there.
- Validators.ExactLength: `.length` counts Unicode scalar values here and UTF-16 code units in
  the source, so a character outside the Basic Multilingual Plane counts once here and twice there.
- Validators.Password: the length minimum counts Unicode scalar values here and UTF-16 code units
  in the source, so a character outside the Basic Multilingual Plane counts once here and twice there.
- Formatters.Truncate: `.length` and `substring` count Unicode scalar values here and UTF-16
  code units in the source, so a character outside the Basic Multilingual Plane counts once here
  and twice there, and the source may cut such a character in half.
- JsValues.LooseEq: `==` between an array or object and a primitive is false here; JavaScript
  converts the object with ToPrimitive first, so `['a'] == 'a'` is true there. The mock's
  filters only compare primitives.
- JsValues.StringToNumber: only optional sign and decimal digits, with surrounding white space,
  are parsed. `Number('0x1F')`, `Number('1e3')` and decimal fractions yield `None` here but a
  number in the source. Query parameters sent by the stores are plain decimal ids.
- `JSON.parse` and `JSON.stringify` of the stored user, and the mock's deep copies, are
  parameters or the identity. Timestamps (`new Date().toISOString()`) are opaque strings passed in.
- Numbers are unbounded integers. Floating point, `NaN`, `Infinity` and ids beyond 2^53 are not
  modelled.
- The validators `email`, `url`, `dateRange` and `repositoryUrl` are not modelled. They need the
  `URL` constructor, `Date` parsing or regexes beyond the digit patterns modelled here.
- The formatters other than `formatDuration`, `truncate`, `capitalize` and `titleCase` are not
  modelled. They use `date-fns`, `Intl`, `toFixed` or `Math.log`.
- Case mapping covers ASCII letters only. `toLowerCase` and `toUpperCase` on other characters
  leave them unchanged here.
- Pagination.Pager: a page size of 0 is excluded. The source's `Math.ceil(total / 0) || 1` is
  `Infinity` or `NaN`.
- StoreQuery.StoreTotalPages: a size of 0 gives `None`. The source's `Math.ceil(total / size)`
  gives `Infinity` or `NaN` there.
- The stores' `hasProjects`, `hasTeams`, … getters are not modelled. Each is just
  `list.length > 0` of a list whose contents are fully specified.
- The dashboard mock routes are modelled as route choices only. Their payloads are fixed
  sample data.
- AuthStore.Store.HandleAuthCallback: the request body sent for the OAuth code is not stated.
  The action is given the call's outcome.
- Client.RoutePost: only the routes' "only if" directions are stated. A route is taken only on
  its exact path or a matching pattern. The converse follows from the case order in the body.
- Client.RouteGet: only the item and list facts are stated. The fall back to the real request
  is stated separately by Client.RealGetOnlyUnrouted.
- Client.MockSprintAction: the contract does not state the settled response's payload, only
  the table change and the 404.

## Findings

| source | as written | input that shows it | evidently intended | confidence | as-written member | corrected member |
|---|---|---|---|---|---|---|
| src/api/client.ts:123-149 | the GET switch tests `/projects/(\d+)` before `/projects/(\d+)/issues` and `/projects/(\d+)/sprints`, and the first case that matches wins | GET `/projects/3/issues` returns project 3 instead of its issues | the nested routes are tried before the project item route | not executed | Client.NestedGetRoutesUnreachable | Client.RouteGetFixedReachesNested |
| src/api/_mockApi.ts:18, 152 | `mockDeleteResponse` calls `mockResponse(undefined)`; `mockResponse` resolves with `JSON.parse(JSON.stringify(data))`, and for `undefined` that `JSON.parse` throws inside the timer callback, so neither `resolve` nor `reject` is called | DELETE `/issues/1` on an existing issue never settles | a successful delete resolves | not executed | MockApi.UndefinedNeverSettles | MockApi.MockTable.DeleteSettling |
| src/stores/auth.store.ts:194-198, 310-319 | a failed `refresh` stores its message in `error` and then calls `clearAuth`, which sets `error` to null | a refresh rejected with "expired" leaves `error` null | the failure's message is kept | not executed | AuthStore.Store.Refresh | AuthStore.Store.RefreshKeepingError |
| src/composables/useFilters.ts:35-44 | `activeFilterCount` counts in its final branch every value that is not null or undefined, including `''`, `[]` and `0` | filters `{status: ''}` give a count of 1 while `hasActiveFilters` is false, also right after `clearAllFilters` | the count is the number of filters `hasActiveFilters` treats as active | not executed | Filters.ClearedFiltersStillCounted | Filters.FilterState.ActiveFilterCountCorrected |
| src/api/client.ts:76, 412-413, 425-430 | the refresh POST goes through `originalPost`, which is bound to the same axios instance, so its own 401 re-enters the response hook on a config without `_retry` and triggers a further refresh | any request answered 401 while the stored refresh token is itself rejected with 401 | a failure of the refresh request is not refreshed again, so at most one refresh POST is sent and the request settles by clearing the session | not executed | Client.RefreshLoopsAsWritten | Client.RefreshBoundedFixed |
