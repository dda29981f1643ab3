/**
 * The API client: the mock routing that stands in for the back end (a
 * first-match `switch (true)` per HTTP verb, over exact paths and
 * `url.match(/\/<collection>\/(\d+).../)` patterns), the request hook that
 * attaches the stored token as a Bearer header, the response hook's single
 * token refresh on a 401, and the normalised `ApiError` shape with
 * `handleApiError` and `isApiError`.
 */
module Client {
  import opened Wrappers
  import opened Text
  import opened JsValues
  import opened Storage
  import opened AuthStore
  import opened MockApi

  // ---------------------------------------------------------------------
  // url.match(/\/<name>\/(\d+)<tail>/)

  /**
   * The regular expression `/\/<name>\/(\d+)(t0|t1|...)/`, unanchored. Every
   * tail is empty or begins with a character that is not a digit, so the
   * greedy `\d+` always captures the whole run of digits.
   */
  datatype Pattern = Pattern(name: string, tails: seq<string>)

  /** What a successful match captures: group 1, and which alternative of the tail matched. */
  datatype Capture = Capture(digits: string, tail: nat)

  /** The length of the run of digits `s` begins with. */
  function DigitRun(s: string): (n: nat)
    ensures n <= |s|
    ensures forall k :: 0 <= k < n ==> IsDigit(s[k])
    ensures n < |s| ==> !IsDigit(s[n])
  {
    if |s| == 0 || !IsDigit(s[0]) then 0 else 1 + DigitRun(s[1..])
  }

  /** `/<name>/` */
  function Head(p: Pattern): string {
    "/" + p.name + "/"
  }

  /** The first alternative of `tails` that `s` begins with, or -1. */
  function FirstTail(s: string, tails: seq<string>): (k: int)
    ensures -1 <= k < |tails|
    ensures k >= 0 ==> tails[k] <= s
    ensures forall j :: 0 <= j < |tails| && (k < 0 || j < k) ==> !(tails[j] <= s)
  {
    if |tails| == 0 then -1
    else if tails[0] <= s then 0
    else
      var k := FirstTail(s, tails[1..]);
      if k < 0 then -1 else k + 1
  }

  /** The match of `p` that starts at index `i` of `url`, if there is one. */
  function MatchAt(url: string, p: Pattern, i: nat): (c: Option<Capture>)
    requires i <= |url|
    ensures c.Some? ==> |c.value.digits| >= 1 && AllDigits(c.value.digits) && c.value.tail < |p.tails|
  {
    var h := Head(p);
    if !(h <= url[i..]) then None
    else
      var rest := url[i + |h|..];
      var n := DigitRun(rest);
      if n == 0 then None
      else
        var k := FirstTail(rest[n..], p.tails);
        if k < 0 then None else Some(Capture(rest[..n], k))
  }

  /**
   * The first index at or after `i` where `p` matches, or -1 when it matches
   * nowhere from `i` on: the regex engine tries each start position in turn.
   */
  function FirstMatchAt(url: string, p: Pattern, i: nat): (j: int)
    requires i <= |url|
    ensures j == -1 || (i <= j <= |url| && MatchAt(url, p, j).Some?)
    ensures forall k :: i <= k <= |url| && (j < 0 || k < j) ==> MatchAt(url, p, k).None?
    decreases |url| - i
  {
    if MatchAt(url, p, i).Some? then i
    else if i == |url| then -1
    else FirstMatchAt(url, p, i + 1)
  }

  /** The leftmost match of `p` starting at index `i` or later. */
  function MatchFrom(url: string, p: Pattern, i: nat): (c: Option<Capture>)
    requires i <= |url|
    ensures c.Some? ==> |c.value.digits| >= 1 && AllDigits(c.value.digits) && c.value.tail < |p.tails|
    decreases |url| - i
  {
    if MatchAt(url, p, i).Some? then MatchAt(url, p, i)
    else if i == |url| then None
    else MatchFrom(url, p, i + 1)
  }

  /** Scanning for a match yields the match at the first index where there is one. */
  lemma {:induction false} MatchFromFirst(url: string, p: Pattern, i: nat)
    requires i <= |url|
    ensures MatchFrom(url, p, i) == if FirstMatchAt(url, p, i) < 0 then None else MatchAt(url, p, FirstMatchAt(url, p, i))
    decreases |url| - i
  {
    if MatchAt(url, p, i).None? && i < |url| {
      MatchFromFirst(url, p, i + 1);
    }
  }

  /** The match found is the leftmost one: none at all exactly when no index matches, else the match at the first index that does. */
  lemma MatchFromLeftmost(url: string, p: Pattern, i: nat)
    requires i <= |url|
    ensures MatchFrom(url, p, i).None? <==> forall j :: i <= j <= |url| ==> MatchAt(url, p, j).None?
    ensures MatchFrom(url, p, i).Some? ==>
      exists j :: i <= j <= |url| && MatchAt(url, p, j) == MatchFrom(url, p, i)
                  && forall k :: i <= k < j ==> MatchAt(url, p, k).None?
  {
    MatchFromFirst(url, p, i);
    var j := FirstMatchAt(url, p, i);
    if j >= 0 {
      assert MatchAt(url, p, j) == MatchFrom(url, p, i);
    }
  }

  /** `url.match(p)`: the leftmost match anywhere in the url. */
  function UrlMatch(url: string, p: Pattern): (c: Option<Capture>)
    ensures c.Some? ==> |c.value.digits| >= 1 && AllDigits(c.value.digits) && c.value.tail < |p.tails|
  {
    MatchFrom(url, p, 0)
  }

  predicate Matched(url: string, p: Pattern) {
    UrlMatch(url, p).Some?
  }

  /** `Number(match[1])` */
  function MatchedId(url: string, p: Pattern): nat
    requires Matched(url, p)
  {
    DigitsValue(UrlMatch(url, p).value.digits)
  }

  /** A run of digits followed by a non-digit (or nothing) is counted whole. */
  lemma {:induction false} DigitRunOf(d: string, t: string)
    requires AllDigits(d)
    requires t == "" || !IsDigit(t[0])
    ensures DigitRun(d + t) == |d|
  {
    if |d| > 0 {
      assert (d + t)[1..] == d[1..] + t;
      DigitRunOf(d[1..], t);
    } else {
      assert d + t == t;
    }
  }

  /** A url that is the head of `p`, digits, and then a tail of `p` is matched at its start, capturing the digits. */
  lemma MatchAtStart(url: string, p: Pattern, d: string, t: string)
    requires url == Head(p) + d + t
    requires |d| >= 1 && AllDigits(d)
    requires t == "" || !IsDigit(t[0])
    requires FirstTail(t, p.tails) >= 0
    ensures UrlMatch(url, p) == Some(Capture(d, FirstTail(t, p.tails)))
  {
    var h := Head(p);
    assert url[0..] == url;
    assert url[|h|..] == d + t;
    DigitRunOf(d, t);
    assert (d + t)[..|d|] == d && (d + t)[|d|..] == t;
  }

  /** A pattern with a tail matches only where the same pattern without one also does. */
  lemma {:induction false} TailedMatchShadowed(url: string, name: string, tails: seq<string>, i: nat)
    requires i <= |url|
    ensures MatchFrom(url, Pattern(name, tails), i).Some? ==> MatchFrom(url, Pattern(name, [""]), i).Some?
    decreases |url| - i
  {
    var p := Pattern(name, tails);
    var q := Pattern(name, [""]);
    if MatchAt(url, p, i).Some? {
      var rest := url[i + |Head(q)|..];
      assert "" <= rest[DigitRun(rest)..];
      assert MatchAt(url, q, i).Some?;
    } else if i < |url| {
      TailedMatchShadowed(url, name, tails, i + 1);
    }
  }

  // ---------------------------------------------------------------------
  // the mock routes

  datatype Collection = Projects | Issues | Sprints | Teams | Servers | Services | Deployments

  /** The path segment of a collection. */
  function Path(c: Collection): string {
    match c
    case Projects => "projects"
    case Issues => "issues"
    case Sprints => "sprints"
    case Teams => "teams"
    case Servers => "servers"
    case Services => "services"
    case Deployments => "deployments"
  }

  /** The list path of a collection, `/<collection>`. */
  function ListPath(c: Collection): (p: string)
    ensures p == "/" + Path(c)
  {
    match c
    case Projects => "/projects"
    case Issues => "/issues"
    case Sprints => "/sprints"
    case Teams => "/teams"
    case Servers => "/servers"
    case Services => "/services"
    case Deployments => "/deployments"
  }

  /** `/\/<collection>\/(\d+)/` */
  function IdPattern(c: Collection): Pattern {
    Pattern(Path(c), [""])
  }

  const ProjectIssuesPattern: Pattern := Pattern("projects", ["/issues"])
  const ProjectSprintsPattern: Pattern := Pattern("projects", ["/sprints"])
  const SprintActionPattern: Pattern := Pattern("sprints", ["/start", "/complete"])
  const RollbackPattern: Pattern := Pattern("deployments", ["/rollback"])

  /** The handler the GET override picks. */
  datatype GetRoute =
    | DashboardStats
    | RecentProjects
    | ActiveSprint
    | DashboardIssues
    | RecentDeployments
    | CurrentUser               // the mock user with id 2
    | BackdoorVerified          // resolves with `true`
    | GetOne(c: Collection, id: nat)
    | List(c: Collection)
    | ProjectIssues(projectId: nat)
    | MyIssues
    | ProjectSprints(projectId: nat)
    | RealGet                   // falls through to the real request

  /** Some route of collection `c` applies to the url: its item pattern matches or the url is its list path. */
  predicate Routed(url: string, c: Collection) {
    Matched(url, IdPattern(c)) || url == ListPath(c)
  }

  /** `/teams`, `/servers`, `/services`, `/deployments`: the item route, then the list route, for each in turn. */
  function RouteGetRest(url: string, cs: seq<Collection>): (r: GetRoute)
    ensures r.GetOne? ==> Matched(url, IdPattern(r.c)) && r.id == MatchedId(url, IdPattern(r.c))
    ensures r.List? ==> url == ListPath(r.c)
    ensures r.GetOne? || r.List? || r == RealGet
    ensures r == RealGet ==> forall k :: 0 <= k < |cs| ==> !Routed(url, cs[k])
  {
    if |cs| == 0 then RealGet
    else if Matched(url, IdPattern(cs[0])) then GetOne(cs[0], MatchedId(url, IdPattern(cs[0])))
    else if url == ListPath(cs[0]) then List(cs[0])
    else RouteGetRest(url, cs[1..])
  }

  /** The dashboard and auth paths, which the GET override tries first. */
  function ExactGet(url: string, authorization: Option<string>): (r: Option<GetRoute>)
    ensures r == Some(RealGet) ==> url == "/auth/verify"
    ensures r.Some? ==> !r.value.GetOne? && !r.value.List? && !r.value.ProjectIssues? && !r.value.ProjectSprints?
    ensures |url| >= 2 && url[1] != 'd' && url[1] != 'a' ==> r.None?
  {
    if url == "/dashboard/stats" then Some(DashboardStats)
    else if url == "/dashboard/recent-projects" then Some(RecentProjects)
    else if url == "/dashboard/active-sprint" then Some(ActiveSprint)
    else if url == "/dashboard/my-issues" then Some(DashboardIssues)
    else if url == "/dashboard/recent-deployments" then Some(RecentDeployments)
    else if url == "/auth/me" then Some(CurrentUser)
    else if url == "/auth/verify" then
      Some(if authorization == Some("Bearer " + DummyToken) then BackdoorVerified else RealGet)
    else None
  }

  /** The collection routes, in the order the GET override tries them after the exact paths. */
  function CollectionGet(url: string): (r: GetRoute)
    ensures r.GetOne? ==> Matched(url, IdPattern(r.c)) && r.id == MatchedId(url, IdPattern(r.c))
    ensures r.List? ==> url == ListPath(r.c)
    ensures r == RealGet ==> !Routed(url, Projects) && !Routed(url, Issues) && !Routed(url, Sprints)
    ensures r == RealGet ==> RouteGetRest(url, [Teams, Servers, Services, Deployments]) == RealGet
  {
    if Matched(url, IdPattern(Projects)) then GetOne(Projects, MatchedId(url, IdPattern(Projects)))
    else if url == ListPath(Projects) then List(Projects)
    else if Matched(url, ProjectIssuesPattern) then ProjectIssues(MatchedId(url, ProjectIssuesPattern))
    else if Matched(url, IdPattern(Issues)) then GetOne(Issues, MatchedId(url, IdPattern(Issues)))
    else if url == ListPath(Issues) then List(Issues)
    else if url == "/issues/me" then MyIssues
    else if Matched(url, ProjectSprintsPattern) then ProjectSprints(MatchedId(url, ProjectSprintsPattern))
    else if Matched(url, IdPattern(Sprints)) then GetOne(Sprints, MatchedId(url, IdPattern(Sprints)))
    else if url == ListPath(Sprints) then List(Sprints)
    else RouteGetRest(url, [Teams, Servers, Services, Deployments])
  }

  /**
   * The GET override as written: the exact dashboard and auth paths, then the
   * project item route, the project list, the project-issues route, and so
   * on, first match wins. `authorization` is the caller's own
   * `config.headers.Authorization`. It falls through to the real request only
   * for '/auth/verify' without the backdoor header, or when no collection
   * route applies.
   */
  function RouteGet(url: string, authorization: Option<string>): (r: GetRoute)
    ensures r.GetOne? ==> Matched(url, IdPattern(r.c)) && r.id == MatchedId(url, IdPattern(r.c))
    ensures r.List? ==> url == ListPath(r.c)
  {
    var exact := ExactGet(url, authorization);
    if exact.Some? then exact.value else CollectionGet(url)
  }

  /** The GET override falls through to the real request only for '/auth/verify' without the backdoor header, or when no collection route applies. */
  lemma RealGetOnlyUnrouted(url: string, authorization: Option<string>)
    requires RouteGet(url, authorization) == RealGet
    ensures url == "/auth/verify" || forall c: Collection :: !Routed(url, c)
  {
    if ExactGet(url, authorization).None? {
      CollectionGetFallsThrough(url);
    }
  }

  lemma CollectionGetFallsThrough(url: string)
    requires CollectionGet(url) == RealGet
    ensures forall c: Collection :: !Routed(url, c)
  {
    var rest := [Teams, Servers, Services, Deployments];
    assert RouteGetRest(url, rest) == RealGet;
    forall c: Collection
      ensures !Routed(url, c)
    {
      match c
      case Projects =>
      case Issues =>
      case Sprints =>
      case Teams => assert rest[0] == c;
      case Servers => assert rest[1] == c;
      case Services => assert rest[2] == c;
      case Deployments => assert rest[3] == c;
    }
  }

  /** As written, the project-issues and project-sprints routes are never taken: the project item route sees those urls first. */
  lemma NestedGetRoutesUnreachable(url: string, authorization: Option<string>)
    ensures !RouteGet(url, authorization).ProjectIssues?
    ensures !RouteGet(url, authorization).ProjectSprints?
  {
    TailedMatchShadowed(url, "projects", ["/issues"], 0);
    TailedMatchShadowed(url, "projects", ["/sprints"], 0);
  }

  /** `/projects/<id><tail>` */
  function NestedUrl(id: nat, tail: string): string {
    "/projects/" + NatToString(id) + tail
  }

  /** Listing the issues or the sprints of project `id` returns project `id` itself instead. */
  lemma ProjectIssuesCaptured(id: nat, tail: string, authorization: Option<string>)
    requires tail == "/issues" || tail == "/sprints"
    ensures RouteGet(NestedUrl(id, tail), authorization) == GetOne(Projects, id)
  {
    ProjectUrlRoutes(id, tail);
  }

  /** `/projects/<id>/issues` and `/projects/<id>/sprints` match both the project item pattern and their own, with the id. */
  lemma {:induction false} ProjectUrlRoutes(id: nat, tail: string)
    requires tail == "/issues" || tail == "/sprints"
    ensures var url := NestedUrl(id, tail);
      && |url| >= 2 && url[1] == 'p'
      && Matched(url, IdPattern(Projects)) && MatchedId(url, IdPattern(Projects)) == id
      && Matched(url, Pattern("projects", [tail])) && MatchedId(url, Pattern("projects", [tail])) == id
  {
    var url := NestedUrl(id, tail);
    var d := NatToString(id);
    assert url == Head(IdPattern(Projects)) + d + tail;
    MatchAtStart(url, IdPattern(Projects), d, tail);
    MatchAtStart(url, Pattern("projects", [tail]), d, tail);
    NatToStringValue(id);
  }

  /** The GET routing as evidently intended: the project-specific routes are tried before the project item route. */
  function RouteGetFixed(url: string, authorization: Option<string>): GetRoute {
    if Matched(url, ProjectIssuesPattern) then ProjectIssues(MatchedId(url, ProjectIssuesPattern))
    else if Matched(url, ProjectSprintsPattern) then ProjectSprints(MatchedId(url, ProjectSprintsPattern))
    else RouteGet(url, authorization)
  }

  /** With the fixed order, the issues and the sprints of every project are reachable. */
  lemma RouteGetFixedReachesNested(id: nat, tail: string, authorization: Option<string>)
    requires tail == "/issues" || tail == "/sprints"
    ensures RouteGetFixed(NestedUrl(id, tail), authorization) ==
      if tail == "/issues" then ProjectIssues(id) else ProjectSprints(id)
  {
    ProjectUrlRoutes(id, tail);
    if tail == "/sprints" {
      SprintsUrlNotIssues(id);
    }
  }

  /** The fixed order routes every url outside the two project-specific patterns as before. */
  lemma RouteGetFixedElsewhere(url: string, authorization: Option<string>)
    requires !Matched(url, ProjectIssuesPattern) && !Matched(url, ProjectSprintsPattern)
    ensures RouteGetFixed(url, authorization) == RouteGet(url, authorization)
  {
  }

  /** The sprints url of a project is not its issues url. */
  lemma SprintsUrlNotIssues(id: nat)
    ensures !Matched(NestedUrl(id, "/sprints"), ProjectIssuesPattern)
  {
    var sprints := NestedUrl(id, "/sprints");
    forall j | 0 <= j <= |sprints|
      ensures MatchAt(sprints, ProjectIssuesPattern, j).None?
    {
      if j > 0 {
        NoLaterProjectHead(id, "/sprints", j);
      } else {
        SprintsUrlNotIssuesAtStart(id);
      }
    }
    MatchFromLeftmost(sprints, ProjectIssuesPattern, 0);
  }

  /** At its start, the sprints url of a project has the digits followed by '/sprints', which is not '/issues'. */
  lemma SprintsUrlNotIssuesAtStart(id: nat)
    ensures MatchAt(NestedUrl(id, "/sprints"), ProjectIssuesPattern, 0).None?
  {
    var sprints := NestedUrl(id, "/sprints");
    var d := NatToString(id);
    assert sprints == "/projects/" + d + "/sprints";
    DigitRunOf(d, "/sprints");
    assert sprints[0..] == sprints;
    assert sprints[10..] == d + "/sprints";
    assert (d + "/sprints")[|d|..] == "/sprints";
    assert !("/issues" <= "/sprints") by {
      assert "/sprints"[..7][1] == 's';
    }
  }

  /** `/projects/<id><tail>` holds '/projects/' nowhere but at its start. */
  lemma NoLaterProjectHead(id: nat, tail: string, j: nat)
    requires tail == "/issues" || tail == "/sprints"
    requires 0 < j <= |NestedUrl(id, tail)|
    ensures !(Head(IdPattern(Projects)) <= NestedUrl(id, tail)[j..])
  {
    var d := NatToString(id);
    var url := NestedUrl(id, tail);
    assert url == "/projects/" + d + tail;
    if j <= 8 {
      assert url[j] == "/projects/"[j];
    } else if j == 9 {
      assert url[10] == d[0];
    } else if j < 10 + |d| {
      assert url[j] == d[j - 10];
    } else if j == 10 + |d| {
      assert url[j + 1] == tail[1];
    } else {
      assert |url| == 10 + |d| + |tail|;
    }
  }

  /** The handler the POST override picks. */
  datatype PostRoute =
    | RealPost                              // the auth endpoints and unknown urls
    | Create(c: Collection)
    | SprintAction(id: nat, status: string)
    | CreateDeployment                      // the create, with `deployed_by: 2`
    | Rollback(id: nat)

  /** `match[2] === 'start' ? 'active' : 'completed'` */
  function ActionStatus(tail: nat): string {
    if tail == 0 then "active" else "completed"
  }

  /** The POST override: the auth endpoints go to the real back end, the rest to the mock, first match wins. */
  function RoutePost(url: string): (r: PostRoute)
    ensures r.Create? ==> url == ListPath(r.c) && r.c != Deployments
    ensures r == CreateDeployment ==> url == ListPath(Deployments)
    ensures r.SprintAction? ==> Matched(url, SprintActionPattern) && r.id == MatchedId(url, SprintActionPattern)
    ensures r.Rollback? ==> Matched(url, RollbackPattern) && r.id == MatchedId(url, RollbackPattern)
    ensures url == "/auth/login" || url == "/auth/logout" || url == "/auth/refresh" ==> r == RealPost
  {
    if url == "/auth/login" || url == "/auth/logout" || url == "/auth/refresh" then RealPost
    else if url == ListPath(Issues) then Create(Issues)
    else if url == ListPath(Projects) then Create(Projects)
    else if url == ListPath(Sprints) then Create(Sprints)
    else if Matched(url, SprintActionPattern) then
      SprintAction(MatchedId(url, SprintActionPattern), ActionStatus(UrlMatch(url, SprintActionPattern).value.tail))
    else if url == ListPath(Teams) then Create(Teams)
    else if url == ListPath(Servers) then Create(Servers)
    else if url == ListPath(Services) then Create(Services)
    else if url == ListPath(Deployments) then CreateDeployment
    else if Matched(url, RollbackPattern) then Rollback(MatchedId(url, RollbackPattern))
    else RealPost
  }

  /** `/sprints/<id>/start` activates sprint `id` and `/sprints/<id>/complete` completes it. */
  lemma SprintActionStatuses(id: nat, start: bool)
    ensures var action := if start then "/start" else "/complete";
      RoutePost("/sprints/" + NatToString(id) + action) == SprintAction(id, if start then "active" else "completed")
  {
    SprintUrlMatches(id, start);
  }

  lemma {:induction false} SprintUrlMatches(id: nat, start: bool)
    ensures var url := "/sprints/" + NatToString(id) + (if start then "/start" else "/complete");
      && |url| > 13
      && Matched(url, SprintActionPattern) && MatchedId(url, SprintActionPattern) == id
      && UrlMatch(url, SprintActionPattern).value.tail == if start then 0 else 1
  {
    var d := NatToString(id);
    var action := if start then "/start" else "/complete";
    var url := "/sprints/" + d + action;
    NatToStringValue(id);
    assert url == Head(SprintActionPattern) + d + action;
    if start {
      assert FirstTail(action, SprintActionPattern.tails) == 0;
    } else {
      assert !("/start" <= "/complete") by {
        assert "/complete"[..6][1] == 'c';
      }
      assert FirstTail(action, SprintActionPattern.tails) == 1;
    }
    MatchAtStart(url, SprintActionPattern, d, action);
  }

  /** The item a PATCH or DELETE addresses. */
  datatype ItemRoute = ItemRoute(c: Collection, id: nat)

  /** The index of the first collection of `cs` whose item pattern the url matches, or -1. */
  function FirstById(url: string, cs: seq<Collection>): (k: int)
    ensures -1 <= k < |cs|
    ensures k >= 0 ==> Matched(url, IdPattern(cs[k]))
    ensures forall j :: 0 <= j < |cs| && (k < 0 || j < k) ==> !Matched(url, IdPattern(cs[j]))
  {
    if |cs| == 0 then -1
    else if Matched(url, IdPattern(cs[0])) then 0
    else
      var k := FirstById(url, cs[1..]);
      if k < 0 then -1 else k + 1
  }

  /** Issues, projects, sprints, teams, servers, services and deployments, in the order the PATCH and DELETE overrides try them. */
  const ItemOrder: seq<Collection> := [Issues, Projects, Sprints, Teams, Servers, Services, Deployments]

  /** The PATCH and DELETE overrides: the item of the first collection whose pattern matches, or the real request. */
  function RouteItem(url: string): (r: Option<ItemRoute>)
    ensures r.None? <==> forall k :: 0 <= k < |ItemOrder| ==> !Matched(url, IdPattern(ItemOrder[k]))
    ensures r.Some? ==> exists k :: 0 <= k < |ItemOrder| && ItemOrder[k] == r.value.c
                          && forall j :: 0 <= j < k ==> !Matched(url, IdPattern(ItemOrder[j]))
    ensures r.Some? ==> Matched(url, IdPattern(r.value.c)) && r.value.id == MatchedId(url, IdPattern(r.value.c))
    ensures Matched(url, IdPattern(Issues)) ==> r == Some(ItemRoute(Issues, MatchedId(url, IdPattern(Issues))))
  {
    var k := FirstById(url, ItemOrder);
    if k < 0 then None else Some(ItemRoute(ItemOrder[k], MatchedId(url, IdPattern(ItemOrder[k]))))
  }

  // ---------------------------------------------------------------------
  // the two mock POST handlers that build their own bodies

  /** `${v}` */
  function TemplateString(v: Value): string {
    match v
    case Undefined => "undefined"
    case Null => "null"
    case _ => JoinElementString(v)
  }

  /** The body `/deployments/<id>/rollback` creates from the target deployment and the request body. */
  function RollbackRecord(target: Record, body: Option<Record>, now: string): (r: Record)
    ensures Field(r, "version") == Str(TemplateString(Field(target, "version")) + "-ROLLBACK")
    ensures Field(r, "type") == Str("rollback") && Field(r, "status") == Str("success")
    ensures Field(r, "rollback_from_id") == Field(target, "id")
    ensures Field(r, "deployed_by") == Num(2)
    ensures Field(r, "notes") == Or(if body.Some? then Field(body.value, "notes") else Undefined, Str("Rolled back"))
  {
    map[
      "service_id" := Field(target, "service_id"),
      "version" := Str(TemplateString(Field(target, "version")) + "-ROLLBACK"),
      "environment" := Field(target, "environment"),
      "commit_hash" := Field(target, "commit_hash"),
      "type" := Str("rollback"),
      "status" := Str("success"),
      "deployed_by" := Num(2),
      "notes" := Or(if body.Some? then Field(body.value, "notes") else Undefined, Str("Rolled back")),
      "rollback_from_id" := Field(target, "id"),
      "branch" := Field(target, "branch"),
      "tag" := Null,
      "started_at" := Str(now),
      "completed_at" := Str(now),
      "error_message" := Null,
      "log_url" := Null
    ]
  }

  /** `{ ...data, deployed_by: 2 }` */
  function WithDeployer(body: Option<Record>): (r: Record)
    ensures Field(r, "deployed_by") == Num(2)
    ensures body.Some? ==> forall k :: k in body.value && k != "deployed_by" ==> k in r && r[k] == body.value[k]
  {
    (if body.Some? then body.value else map[])["deployed_by" := Num(2)]
  }

  /** POST `/deployments/<id>/rollback`: a 404 without the target, else a new deployment rolling back to it, prepended. */
  method MockRollback(deployments: MockTable, id: nat, body: Option<Record>, now: string) returns (r: Settlement)
    requires deployments.Valid()
    modifies deployments
    ensures deployments.Valid()
    ensures RowIndex(old(deployments.rows), id) < 0 ==>
      deployments.rows == old(deployments.rows) && r == Rejected(StatusError(404))
    ensures RowIndex(old(deployments.rows), id) >= 0 ==>
      && deployments.rows == [NewRecord(RollbackRecord(old(deployments.rows)[RowIndex(old(deployments.rows), id)], body, now),
                                          MaxId(old(deployments.rows)) + 1, now)] + old(deployments.rows)
      && r == Resolved(RecordData(JsonCopyRecord(deployments.rows[0])), 200)
  {
    ghost var before := deployments.rows;
    var index := RowIndex(deployments.rows, id);
    if index < 0 {
      r := NotFound();
      return;
    }
    var target := deployments.rows[index];
    var data := RollbackRecord(target, body, now);
    r := deployments.Create(data, now);
  }

  /** The deployment a rollback creates is a successful rollback that names the deployment it rolls back. */
  lemma RollbackRefersBack(target: Record, id: int, body: Option<Record>, newId: int, now: string)
    requires IdIs(target, id)
    ensures var created := NewRecord(RollbackRecord(target, body, now), newId, now);
      && Field(created, "rollback_from_id") == Num(id)
      && Field(created, "type") == Str("rollback") && Field(created, "status") == Str("success")
      && Field(created, "id") == Num(newId)
  {
    var data := RollbackRecord(target, body, now);
    assert "rollback_from_id" in data && "type" in data && "status" in data;
  }

  /** POST `/sprints/<id>/start` or `/complete`: the sprint's status becomes 'active' or 'completed', or a 404. */
  method MockSprintAction(sprints: MockTable, id: nat, status: string, now: string) returns (r: Settlement)
    requires sprints.Valid()
    modifies sprints
    ensures sprints.Valid()
    ensures RowIndex(old(sprints.rows), id) < 0 ==> sprints.rows == old(sprints.rows) && r == Rejected(StatusError(404))
    ensures RowIndex(old(sprints.rows), id) >= 0 ==>
      var i := RowIndex(old(sprints.rows), id);
      && |sprints.rows| == |old(sprints.rows)|
      && Field(sprints.rows[i], "status") == Str(status)
      && forall k :: 0 <= k < |sprints.rows| && k != i ==> sprints.rows[k] == old(sprints.rows)[k]
  {
    r := sprints.Update(id, map["status" := Str(status)], now);
  }

  // ---------------------------------------------------------------------
  // the request hook

  /** A request's config, which the hooks update in place. */
  class RequestConfig {
    const hasHeaders: bool
    var authorization: Option<string>
    var retry: bool                         // `_retry`, unset (falsy) at first

    constructor (hasHeaders: bool, authorization: Option<string>)
      ensures this.hasHeaders == hasHeaders && this.authorization == authorization && !retry
    {
      this.hasHeaders := hasHeaders;
      this.authorization := authorization;
      retry := false;
    }
  }

  /** `Bearer ${token}` for a truthy token; nothing otherwise. */
  function BearerFor(token: Option<string>): (h: Option<string>)
    ensures h.Some? <==> Present(token)
    ensures h.Some? ==> |h.value| > 7 && h.value[..7] == "Bearer " && h.value[7..] == token.value
  {
    if Present(token) then Some("Bearer " + token.value) else None
  }

  /** The header after the request hook: set from the stored token when there is one and the config has headers. */
  function AttachedAuthorization(stored: Option<string>, hasHeaders: bool, current: Option<string>): (a: Option<string>)
    ensures hasHeaders && Present(stored) ==> a == BearerFor(stored)
    ensures !(hasHeaders && Present(stored)) ==> a == current
  {
    if hasHeaders && BearerFor(stored).Some? then BearerFor(stored) else current
  }

  /** The request hook. */
  method AttachToken(config: RequestConfig, storage: LocalStorage)
    modifies config`authorization
    ensures config.authorization == AttachedAuthorization(Lookup(storage.items, AccessTokenKey), config.hasHeaders, old(config.authorization))
  {
    var token := storage.GetItem(AccessTokenKey);
    if Present(token) && config.hasHeaders {
      config.authorization := Some("Bearer " + token.value);
    }
  }

  /**
   * The mock '/auth/verify' route's header check, as written: a config that
   * already carries the Bearer header built from the stored backdoor token is
   * answered without the back end. No caller passes such a config: the stores
   * call the route without one, and the request hook attaches the header only
   * on the real request that follows.
   */
  lemma BackdoorHeaderVerifies(url: string, items: map<string, string>, current: Option<string>)
    requires url == "/auth/verify"
    requires Lookup(items, AccessTokenKey) == Some(DummyToken)
    ensures RouteGet(url, AttachedAuthorization(Lookup(items, AccessTokenKey), true, current)) == BackdoorVerified
  {
  }

  // ---------------------------------------------------------------------
  // the error shape

  /** `error.response.data`, as far as it is read. */
  datatype ErrorBody = ErrorBody(message: Option<string>, detail: Option<string>, errors: Option<map<string, seq<string>>>)

  datatype ErrorResponse = ErrorResponse(status: int, data: Option<ErrorBody>)

  /** The `AxiosError` the response hook receives. */
  datatype RequestFailure = RequestFailure(message: string, response: Option<ErrorResponse>)

  /** `ApiError` */
  datatype ApiError = ApiError(message: string, detail: Option<string>, status: int, errors: Option<map<string, seq<string>>>)

  const UnexpectedError: string := "An unexpected error occurred"

  function BodyOf(f: RequestFailure): Option<ErrorBody> {
    if f.response.Some? then f.response.value.data else None
  }

  /** The `ApiError` the response hook rejects with when it does not refresh. */
  function NormalizeError(f: RequestFailure): (e: ApiError)
    ensures BodyOf(f).Some? && Present(BodyOf(f).value.message) ==> e.message == BodyOf(f).value.message.value
    ensures !(BodyOf(f).Some? && Present(BodyOf(f).value.message)) && f.message != "" ==> e.message == f.message
    ensures !(BodyOf(f).Some? && Present(BodyOf(f).value.message)) && f.message == "" ==> e.message == UnexpectedError
    ensures e.message != ""
    ensures f.response.None? ==> e.status == 0
    ensures f.response.Some? ==> e.status == f.response.value.status
    ensures e.detail == if BodyOf(f).Some? then BodyOf(f).value.detail else None
    ensures e.errors == if BodyOf(f).Some? then BodyOf(f).value.errors else None
  {
    var body := BodyOf(f);
    var bodyMessage := if body.Some? then body.value.message else None;
    var message := if Present(bodyMessage) then bodyMessage.value else if f.message != "" then f.message else UnexpectedError;
    var status := if f.response.Some? && f.response.value.status != 0 then f.response.value.status else 0;
    ApiError(message, if body.Some? then body.value.detail else None, status,
             if body.Some? then body.value.errors else None)
  }

  /**
   * A thrown value as `handleApiError` and `isApiError` see it: something
   * that is not an object, or an object with the properties `in` finds and
   * whether it is an `Error` instance (whose `message` is always found, on
   * the prototype when not on the object).
   */
  datatype Unknown =
    | Primitive(v: Value)
    | Object(props: map<string, Value>, isError: bool)

  /** `error.message` of an `Error`, which the prototype makes '' when not set. */
  function ErrorText(props: map<string, Value>): string {
    if "message" in props && props["message"].Str? then props["message"].s else ""
  }

  /** `new Error(message)` */
  function ErrorObject(message: string): (u: Unknown)
    ensures u.Object? && u.isError && ErrorText(u.props) == message
  {
    Object(map["message" := Str(message)], true)
  }

  /** `new ApiErrorClass(e)`: an `Error` named 'ApiError' whose own properties copy the fields. */
  function ApiErrorObject(e: ApiError): (u: Unknown)
    ensures u.Object? && u.isError && ErrorText(u.props) == e.message
    ensures "status" in u.props && u.props["status"] == Num(e.status)
  {
    Object(map[
      "message" := Str(e.message),
      "name" := Str("ApiError"),
      "detail" := if e.detail.Some? then Str(e.detail.value) else Undefined,
      "status" := Num(e.status),
      "errors" := if e.errors.Some? then Obj else Undefined
    ], true)
  }

  /** `isApiError(error)`: a non-null object in which both 'message' and 'status' are found. */
  predicate IsApiError(u: Unknown) {
    u.Object? && ("message" in u.props || u.isError) && "status" in u.props
  }

  /** `{ message, status: 0 }` */
  function PlainApiError(message: string): Unknown {
    Object(map["message" := Str(message), "status" := Num(0)], false)
  }

  /** `handleApiError(error)` */
  function HandleApiError(u: Unknown): (r: Unknown)
    ensures IsApiError(u) ==> r == u
    ensures !IsApiError(u) && u.Object? && u.isError ==> r == PlainApiError(ErrorText(u.props))
    ensures !IsApiError(u) && !(u.Object? && u.isError) ==> r == PlainApiError(UnexpectedError)
  {
    if IsApiError(u) then u
    else if u.Object? && u.isError then PlainApiError(ErrorText(u.props))
    else PlainApiError(UnexpectedError)
  }

  /** `isApiError` has exactly the stated cases: never for null or another primitive. */
  lemma IsApiErrorCases(u: Unknown)
    ensures u.Primitive? ==> !IsApiError(u)
    ensures u.Object? && "status" !in u.props ==> !IsApiError(u)
    ensures u.Object? && !u.isError ==> (IsApiError(u) <==> "message" in u.props && "status" in u.props)
    ensures u.Object? && u.isError ==> (IsApiError(u) <==> "status" in u.props)
  {
  }

  /** Whatever was thrown, `handleApiError` gives something `isApiError` accepts, and applying it again changes nothing. */
  lemma HandleApiErrorIdempotent(u: Unknown)
    ensures IsApiError(HandleApiError(u))
    ensures HandleApiError(HandleApiError(u)) == HandleApiError(u)
  {
  }

  /** How a store's `catch` reads a thrown value: its message when it is an `Error`. */
  function AsThrown(u: Unknown): (t: Thrown)
    ensures u.Object? && u.isError <==> t.ErrorValue?
  {
    if u.Object? && u.isError then ErrorValue(ErrorText(u.props)) else NonError
  }

  /** The response hook's normalised rejection passes `handleApiError` unchanged, and a store shows its non-empty message. */
  lemma NormalizedErrorPassesThrough(f: RequestFailure)
    ensures HandleApiError(ApiErrorObject(NormalizeError(f))) == ApiErrorObject(NormalizeError(f))
    ensures AsThrown(ApiErrorObject(NormalizeError(f))) == ErrorValue(NormalizeError(f).message)
    ensures ErrorMessage(AsThrown(ApiErrorObject(NormalizeError(f))), "") != ""
  {
  }

  // ---------------------------------------------------------------------
  // the response hook

  /** The reply to the refresh call: a new access token, or what it threw. */
  datatype RefreshReply = Refreshed(accessToken: string) | RefreshFailed(reason: Unknown)

  /** What the response hook does with a failed request. */
  datatype Handling = Retry | Reject(reason: Unknown)

  /** A 401 on a request not marked yet: the only case in which the hook refreshes. */
  predicate Refreshes(f: RequestFailure, retried: bool) {
    f.response.Some? && f.response.value.status == 401 && !retried
  }

  /** The rejection of a failed refresh: what was thrown when it is an `Error`, else a new one. */
  function RefreshError(reason: Unknown): (u: Unknown)
    ensures u.Object? && u.isError
    ensures reason.Object? && reason.isError ==> u == reason
  {
    if reason.Object? && reason.isError then reason else ErrorObject("Token refresh failed")
  }

  /** The hook's result, given the request's `_retry` mark, the stored refresh token and the refresh reply. */
  function ErrorHandling(f: RequestFailure, retried: bool, storedRefresh: Option<string>, reply: RefreshReply): (h: Handling)
    ensures !Refreshes(f, retried) ==> h == Reject(ApiErrorObject(NormalizeError(f)))
    ensures h == Retry <==> Refreshes(f, retried) && Present(storedRefresh) && reply.Refreshed?
  {
    if !Refreshes(f, retried) then Reject(ApiErrorObject(NormalizeError(f)))
    else if !Present(storedRefresh) then Reject(RefreshError(ErrorObject("No refresh token available")))
    else if reply.Refreshed? then Retry
    else Reject(RefreshError(reply.reason))
  }

  /** The stored keys after the hook: the new access token on a refresh, the session keys gone when it fails. */
  function StorageAfterError(items: map<string, string>, f: RequestFailure, retried: bool, reply: RefreshReply): (after: map<string, string>)
    ensures !Refreshes(f, retried) ==> after == items
    ensures Refreshes(f, retried) && Present(Lookup(items, RefreshTokenKey)) && reply.Refreshed? ==>
      after == items[AccessTokenKey := reply.accessToken]
    ensures Refreshes(f, retried) && !(Present(Lookup(items, RefreshTokenKey)) && reply.Refreshed?) ==>
      after == items - SessionKeys
  {
    if !Refreshes(f, retried) then items
    else if Present(Lookup(items, RefreshTokenKey)) && reply.Refreshed? then items[AccessTokenKey := reply.accessToken]
    else items - SessionKeys
  }

  /**
   * The response hook's error branch. A 401 on an unmarked request marks it,
   * then refreshes with the stored refresh token: on success the new access
   * token is stored and put in the request's header for the retry; without a
   * refresh token, or when the refresh fails, the session keys are removed.
   * Every other failure rejects with the normalised `ApiError`.
   */
  method OnResponseError(config: RequestConfig, storage: LocalStorage, f: RequestFailure, reply: RefreshReply)
      returns (h: Handling)
    modifies config`retry, config`authorization, storage
    ensures h == ErrorHandling(f, old(config.retry), old(Lookup(storage.items, RefreshTokenKey)), reply)
    ensures storage.items == StorageAfterError(old(storage.items), f, old(config.retry), reply)
    ensures config.retry == (old(config.retry) || Refreshes(f, old(config.retry)))
    ensures config.authorization ==
      if h == Retry && config.hasHeaders then Some("Bearer " + reply.accessToken) else old(config.authorization)
  {
    if f.response.Some? && f.response.value.status == 401 && !config.retry {
      config.retry := true;
      var refreshToken := storage.GetItem(RefreshTokenKey);
      var failure: Unknown;
      if !Present(refreshToken) {
        failure := ErrorObject("No refresh token available");
      } else if reply.Refreshed? {
        storage.SetItem(AccessTokenKey, reply.accessToken);
        if config.hasHeaders {
          config.authorization := Some("Bearer " + reply.accessToken);
        }
        return Retry;
      } else {
        failure := reply.reason;
      }
      storage.RemoveItem(AccessTokenKey);
      storage.RemoveItem(RefreshTokenKey);
      storage.RemoveItem(UserKey);
      assert storage.items == old(storage.items) - SessionKeys;
      return Reject(RefreshError(failure));
    }
    h := Reject(ApiErrorObject(NormalizeError(f)));
  }

  /** A request the hook has marked is never refreshed again: a second 401 rejects and leaves the storage alone. */
  lemma AtMostOneRefresh(f: RequestFailure, items: map<string, string>, reply: RefreshReply)
    ensures ErrorHandling(f, true, Lookup(items, RefreshTokenKey), reply) == Reject(ApiErrorObject(NormalizeError(f)))
    ensures StorageAfterError(items, f, true, reply) == items
  {
  }

  /** Everything the hook rejects with is an `Error`, so a store's `catch` always shows a message and never its fallback. */
  lemma RejectionsAreErrors(f: RequestFailure, retried: bool, storedRefresh: Option<string>, reply: RefreshReply)
    ensures var h := ErrorHandling(f, retried, storedRefresh, reply);
      h.Reject? ==> AsThrown(h.reason).ErrorValue?
  {
  }

  /** After a successful refresh the next request carries the new token; after a failed one it carries none, and no session is stored. */
  lemma RefreshThenAttach(items: map<string, string>, f: RequestFailure, reply: RefreshReply, current: Option<string>)
    requires Refreshes(f, false)
    ensures var after := StorageAfterError(items, f, false, reply);
      ErrorHandling(f, false, Lookup(items, RefreshTokenKey), reply) == Retry && reply.accessToken != "" ==>
        AttachedAuthorization(Lookup(after, AccessTokenKey), true, current) == Some("Bearer " + reply.accessToken)
    ensures var after := StorageAfterError(items, f, false, reply);
      ErrorHandling(f, false, Lookup(items, RefreshTokenKey), reply).Reject? ==>
        AttachedAuthorization(Lookup(after, AccessTokenKey), true, current) == current && !StoredSession(after)
  {
  }

  // ---------------------------------------------------------------------
  // the refresh request re-entering the hook

  /**
   * Whether the hook refreshes after a failure, as written. The refresh POST
   * is sent with `originalPost`, which is the axios instance's own `post`, so
   * its failure comes back through this same hook with a config of its own
   * that was never marked: whether the failed request was the refresh itself
   * plays no part.
   */
  predicate RefreshesAsWritten(isRefreshCall: bool, f: RequestFailure, retried: bool) {
    Refreshes(f, retried)
  }

  /** The corrected test: a failure of the refresh request itself is rejected, never refreshed. */
  predicate RefreshesFixed(isRefreshCall: bool, f: RequestFailure, retried: bool) {
    Refreshes(f, retried) && !isRefreshCall
  }

  /** A 401 without a body, as the back end answers a refresh token it no longer accepts. */
  const Unauthorized: RequestFailure := RequestFailure("Request failed with status code 401", Some(ErrorResponse(401, None)))

  /**
   * How many refresh POSTs one failed request sets off when every refresh POST
   * is itself answered with `Unauthorized`, under the hook's test `refreshes`.
   * The refresh token stays stored along the chain, because only the hook's
   * `catch` removes it. `None` when the chain is still going after `depth`
   * nested runs of the hook: the first request has not settled by then.
   */
  function RefreshPosts(refreshes: (bool, RequestFailure, bool) -> bool, isRefreshCall: bool, f: RequestFailure,
                        storedRefresh: Option<string>, depth: nat): Option<nat>
    decreases depth
  {
    if !refreshes(isRefreshCall, f, false) || !Present(storedRefresh) then Some(0)
    else if depth == 0 then None
    else
      var inner := RefreshPosts(refreshes, true, Unauthorized, storedRefresh, depth - 1);
      if inner.Some? then Some(inner.value + 1) else None
  }

  /** A refresh POST that fails with a 401 is, as written, refreshed again with the same stored refresh token. */
  lemma RefreshReentersHook(f: RequestFailure, storedRefresh: Option<string>, reply: RefreshReply)
    requires f.response.Some? && f.response.value.status == 401
    requires Present(storedRefresh)
    ensures RefreshesAsWritten(true, f, false)
    ensures ErrorHandling(f, false, storedRefresh, reply) == if reply.Refreshed? then Retry else Reject(RefreshError(reply.reason))
  {
  }

  /**
   * As written, a 401 on any request, with a refresh token stored that the
   * back end rejects, sets off refresh POSTs without end: the request never
   * settles and the redirect to the login page is never reached.
   */
  lemma {:induction false} RefreshLoopsAsWritten(isRefreshCall: bool, storedRefresh: Option<string>, depth: nat)
    requires Present(storedRefresh)
    ensures RefreshPosts(RefreshesAsWritten, isRefreshCall, Unauthorized, storedRefresh, depth) == None
    decreases depth
  {
    if depth > 0 {
      RefreshLoopsAsWritten(true, storedRefresh, depth - 1);
    }
  }

  /** The corrected hook: as `ErrorHandling`, except that a failed refresh request is rejected as it is. */
  function ErrorHandlingFixed(isRefreshCall: bool, f: RequestFailure, retried: bool, storedRefresh: Option<string>,
                              reply: RefreshReply): (h: Handling)
    ensures isRefreshCall ==> h == Reject(ApiErrorObject(NormalizeError(f)))
    ensures !isRefreshCall ==> h == ErrorHandling(f, retried, storedRefresh, reply)
    ensures h == Retry <==> RefreshesFixed(isRefreshCall, f, retried) && Present(storedRefresh) && reply.Refreshed?
  {
    if isRefreshCall then Reject(ApiErrorObject(NormalizeError(f)))
    else ErrorHandling(f, retried, storedRefresh, reply)
  }

  /**
   * With the corrected test, every failed request sets off at most one
   * refresh POST, and a 401 on an ordinary request with a refresh token
   * stored sets off exactly one, after which the request settles.
   */
  lemma RefreshBoundedFixed(isRefreshCall: bool, f: RequestFailure, storedRefresh: Option<string>, depth: nat)
    requires depth >= 1
    ensures var n := RefreshPosts(RefreshesFixed, isRefreshCall, f, storedRefresh, depth); n.Some? && n.value <= 1
    ensures !isRefreshCall && Refreshes(f, false) && Present(storedRefresh) ==>
      RefreshPosts(RefreshesFixed, isRefreshCall, f, storedRefresh, depth) == Some(1)
  {
    assert RefreshPosts(RefreshesFixed, true, Unauthorized, storedRefresh, depth - 1) == Some(0);
  }
}
