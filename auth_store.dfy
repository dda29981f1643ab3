/**
 * The auth store: the access token, refresh token and signed-in user, kept
 * in step with three `localStorage` keys, plus loading and error flags.
 * Every action that calls the API is given that call's outcome. Two
 * development backdoors are part of the store and are modelled as written:
 * the password '111111' signs in a fixed administrator without an API call,
 * and the dummy token it installs always passes `verifyAuth`.
 * `JSON.stringify` and `JSON.parse` of the stored user are parameters.
 */
module AuthStore {
  import opened Wrappers
  import opened Text
  import opened Models
  import opened Storage

  const AccessTokenKey: string := "access_token"
  const RefreshTokenKey: string := "refresh_token"
  const UserKey: string := "user"
  const SessionKeys: set<string> := {AccessTokenKey, RefreshTokenKey, UserKey}

  const BackdoorPassword: string := "111111"
  const DummyToken: string := "backdoor.dummy.token-this-is-not-real"
  const DummyRefreshToken: string := "backdoor.dummy.refresh-token"

  /** `LoginResponse`, also what the SSO callback returns. */
  datatype LoginResponse = LoginResponse(accessToken: string, refreshToken: string, tokenType: string, expiresIn: int, user: Option<User>)

  /** `RefreshTokenResponse` */
  datatype RefreshResponse = RefreshResponse(accessToken: string, refreshToken: string, tokenType: string, expiresIn: int)

  /** What `JSON.parse` makes of the stored user text: it throws, or yields a user or `null`. */
  datatype ParsedUser = Malformed | Parsed(user: Option<User>)

  /** `!!s` for a nullable string. */
  predicate Present(s: Option<string>) { s.Some? && s.value != "" }

  /** The three refs that decide who is signed in. */
  datatype Session = Session(accessToken: Option<string>, refreshToken: Option<string>, user: Option<User>)

  const SignedOut: Session := Session(None, None, None)

  // ---------------------------------------------------------------------
  // getters

  /** `isAuthenticated`: a non-empty access token and a user. */
  function IsAuthenticated(s: Session): (r: bool)
    ensures r <==> s.accessToken.Some? && s.accessToken.value != "" && s.user.Some?
  {
    Present(s.accessToken) && s.user.Some?
  }

  /** `isSuperuser`, read through optional chaining: a missing user or flag is falsy. */
  function IsSuperuser(user: Option<User>): (r: bool)
    ensures r <==> user.Some? && (user.value.isAdmin || user.value.isSuperuser == Some(true))
  {
    var admin := if user.Some? then user.value.isAdmin else false;
    var superuser := if user.Some? && user.value.isSuperuser.Some? then user.value.isSuperuser.value else false;
    admin || superuser || false
  }

  /** `a || b` for a nullable string `a`. */
  function OrText(a: Option<string>, b: string): string {
    if Present(a) then a.value else b
  }

  /** `userFullName`: the first truthy one of full name, username and email; '' with no user. */
  function FullName(user: Option<User>): (name: string)
    ensures user.None? ==> name == ""
    ensures user.Some? && Present(user.value.fullName) ==> name == user.value.fullName.value
    ensures user.Some? && !Present(user.value.fullName) && user.value.username != "" ==> name == user.value.username
    ensures user.Some? && !Present(user.value.fullName) && user.value.username == "" ==> name == user.value.email
    ensures user.Some? ==> (name == "" <==> !Present(user.value.fullName) && user.value.username == "" && user.value.email == "")
  {
    match user
    case None => ""
    case Some(u) => OrText(u.fullName, OrText(Some(u.username), u.email))
  }

  /** `userInitials`: the first letters of the first two words, or else the first two characters, uppercased. */
  function Initials(user: Option<User>): (r: string)
    ensures user.None? ==> r == ""
    ensures |r| <= 2
    ensures forall i :: 0 <= i < |r| ==> !IsLowerAscii(r[i])
  {
    if user.None? then ""
    else
      var name := FullName(user);
      var parts := Split(name, ' ');
      if |parts| >= 2 && parts[0] != "" && parts[1] != "" then Upper([parts[0][0], parts[1][0]])
      else Upper(name[..if |name| < 2 then |name| else 2])
  }

  /** A full name made of a word, a space and a second word gives the two words' first letters. */
  lemma {:induction false} TwoWordInitials(user: Option<User>, first: string, rest: string)
    requires FullName(user) == first + " " + rest
    requires first != "" && Free(first, ' ')
    requires rest != "" && rest[0] != ' '
    ensures Initials(user) == [UpperChar(first[0]), UpperChar(rest[0])]
  {
    var tail := [' '] + rest;
    assert first + " " + rest == first + tail;
    SplitFreePrefix(first, tail, ' ');
    SplitLeadingSeparator(rest, ' ');
    SplitFirstPartHead(rest, ' ');
    assert first + "" == first;
  }

  /** A full name without a space gives its first two characters. */
  lemma OneWordInitials(user: Option<User>)
    requires user.Some? && Free(FullName(user), ' ')
    ensures Initials(user) == Upper(FullName(user)[..if |FullName(user)| < 2 then |FullName(user)| else 2])
  {
    var name := FullName(user);
    SplitFreePrefix(name, "", ' ');
    assert name + "" == name;
  }

  // ---------------------------------------------------------------------
  // what the actions leave behind

  /** The storage after a session is persisted: both tokens and the user text. */
  function Persisted(items: map<string, string>, access: string, refresh: string, userText: string): map<string, string> {
    items[AccessTokenKey := access][RefreshTokenKey := refresh][UserKey := userText]
  }

  /** `storedToken && storedUser`: both keys hold a non-empty value. */
  predicate StoredSession(items: map<string, string>) {
    Present(Lookup(items, AccessTokenKey)) && Present(Lookup(items, UserKey))
  }

  /** `initAuth` ends in `clearAuth`: a stored session whose user text does not parse. */
  predicate RestoreFails(items: map<string, string>, parse: string -> ParsedUser) {
    StoredSession(items) && parse(items[UserKey]).Malformed?
  }

  /** The session `initAuth` leaves, starting from `before` with storage `items`. */
  function Restore(before: Session, items: map<string, string>, parse: string -> ParsedUser): (s: Session)
    ensures !StoredSession(items) ==> s == before
    ensures RestoreFails(items, parse) ==> s == SignedOut
    ensures StoredSession(items) && parse(items[UserKey]).Parsed? ==>
      s == Session(Some(items[AccessTokenKey]), Lookup(items, RefreshTokenKey), parse(items[UserKey]).user)
    ensures IsAuthenticated(s) <==>
      if StoredSession(items) then parse(items[UserKey]).Parsed? && parse(items[UserKey]).user.Some?
      else IsAuthenticated(before)
  {
    if !StoredSession(items) then before
    else match parse(items[UserKey])
      case Malformed => SignedOut
      case Parsed(u) => Session(Lookup(items, AccessTokenKey), Lookup(items, RefreshTokenKey), u)
  }

  /** A persisted session comes back on the next `initAuth` whenever the user text parses back to the user. */
  lemma PersistedSessionRestores(before: Session, items: map<string, string>, access: string, refresh: string, u: User,
                                 stringify: User -> string, parse: string -> ParsedUser)
    requires access != "" && stringify(u) != ""
    requires parse(stringify(u)) == Parsed(Some(u))
    ensures Restore(before, Persisted(items, access, refresh, stringify(u)), parse) == Session(Some(access), Some(refresh), Some(u))
    ensures IsAuthenticated(Restore(before, Persisted(items, access, refresh, stringify(u)), parse))
  {
    var after := Persisted(items, access, refresh, stringify(u));
    assert Lookup(after, AccessTokenKey) == Some(access);
    assert Lookup(after, RefreshTokenKey) == Some(refresh);
    assert Lookup(after, UserKey) == Some(stringify(u));
  }

  /** The user the backdoor installs. */
  function BackdoorUser(email: string, now: string): User {
    User(999, "backdoor_user", email, "backdoor_admin", Some("개발자 (Backdoor)"), None, true, true, Some(true), None, now, now)
  }

  function BackdoorSession(email: string, now: string): Session {
    Session(Some(DummyToken), Some(DummyRefreshToken), Some(BackdoorUser(email, now)))
  }

  /** The backdoor signs in user 999 as administrator and superuser, whatever the email. */
  lemma BackdoorSignsInSuperuser(email: string, now: string)
    ensures IsAuthenticated(BackdoorSession(email, now))
    ensures IsSuperuser(BackdoorSession(email, now).user)
    ensures BackdoorUser(email, now).id == 999 && BackdoorUser(email, now).email == email
    ensures FullName(Some(BackdoorUser(email, now))) == "개발자 (Backdoor)"
    ensures Initials(Some(BackdoorUser(email, now))) == "개("
  {
    var u := Some(BackdoorUser(email, now));
    assert FullName(u) == "개발자" + " " + "(Backdoor)";
    TwoWordInitials(u, "개발자", "(Backdoor)");
  }

  /** The outcome `verifyAuth` reports for the access token it starts with. */
  function VerifyResult(token: Option<string>, outcome: Api<bool>): (valid: bool)
    ensures !Present(token) ==> !valid
    ensures token == Some(DummyToken) ==> valid
    ensures Present(token) && token != Some(DummyToken) ==> (valid <==> outcome == Ok(true))
  {
    if !Present(token) then false
    else if token.value == DummyToken then true
    else match outcome
      case Ok(b) => b
      case Err(_) => false
  }

  /** `verifyAuth` ends in `clearAuth`: a real token whose check throws. */
  predicate VerifyClears(token: Option<string>, outcome: Api<bool>) {
    Present(token) && token != Some(DummyToken) && outcome.Err?
  }

  /**
   * The outcomes `authApi.verifyAuth()` can produce. It catches whatever the
   * GET '/auth/verify' throws and answers `false`, so it always resolves:
   * `verifyAuth`'s own `catch` is never reached, and a token the back end
   * rejects leaves the store signed in.
   */
  lemma VerifyCallNeverSignsOut(token: Option<string>, resolved: bool)
    ensures !VerifyClears(token, Ok(resolved))
    ensures Present(token) && token != Some(DummyToken) ==> VerifyResult(token, Ok(resolved)) == resolved
  {
  }

  class Store {
    var user: Option<User>
    var accessToken: Option<string>
    var refreshToken: Option<string>
    var isLoading: bool
    var error: Option<string>
    const storage: LocalStorage

    constructor (storage: LocalStorage)
      ensures Current() == SignedOut && !isLoading && error == None && this.storage == storage
    {
      user := None;
      accessToken := None;
      refreshToken := None;
      isLoading := false;
      error := None;
      this.storage := storage;
    }

    function Current(): Session
      reads this
    {
      Session(accessToken, refreshToken, user)
    }

    /** `clearAuth()`: signs out and forgets the three keys; `isLoading` is left alone. */
    method ClearAuth()
      modifies this`accessToken, this`refreshToken, this`user, this`error, storage
      ensures Current() == SignedOut && error == None
      ensures storage.items == old(storage.items) - SessionKeys
    {
      accessToken := None;
      refreshToken := None;
      user := None;
      error := None;
      storage.RemoveItem(AccessTokenKey);
      storage.RemoveItem(RefreshTokenKey);
      storage.RemoveItem(UserKey);
      assert storage.items == old(storage.items) - SessionKeys;
    }

    /** `initAuth()`: restores the stored session when both a token and a user are stored; a user that does not parse clears everything. */
    method InitAuth(parse: string -> ParsedUser)
      modifies this`accessToken, this`refreshToken, this`user, this`error, storage
      ensures Current() == Restore(old(Current()), old(storage.items), parse)
      ensures RestoreFails(old(storage.items), parse) ==> error == None && storage.items == old(storage.items) - SessionKeys
      ensures !RestoreFails(old(storage.items), parse) ==> error == old(error) && storage.items == old(storage.items)
    {
      var storedToken := storage.GetItem(AccessTokenKey);
      var storedRefreshToken := storage.GetItem(RefreshTokenKey);
      var storedUser := storage.GetItem(UserKey);
      if Present(storedToken) && Present(storedUser) {
        accessToken := storedToken;
        refreshToken := storedRefreshToken;
        match parse(storedUser.value) {
          case Parsed(u) =>
            user := u;
          case Malformed =>
            ClearAuth();
        }
      }
    }

    /**
     * `login(email, password)`. The backdoor password installs the fixed
     * administrator and the dummy tokens and never calls the API. Otherwise
     * the login call's tokens are stored first, then the user fetched after
     * it; a failure in either is rethrown with the tokens of a successful
     * login call kept.
     */
    method Login(email: string, password: string, now: string, stringify: User -> string,
                 loginOutcome: Api<LoginResponse>, userOutcome: Api<User>) returns (result: Api<LoginResponse>)
      modifies this`accessToken, this`refreshToken, this`user, this`isLoading, this`error, storage
      ensures !isLoading
      ensures password == BackdoorPassword ==>
        && Current() == BackdoorSession(email, now)
        && error == None
        && storage.items == Persisted(old(storage.items), DummyToken, DummyRefreshToken, stringify(BackdoorUser(email, now)))
        && result == Ok(LoginResponse(DummyToken, DummyRefreshToken, "Bearer", 3600, Some(BackdoorUser(email, now))))
      ensures password != BackdoorPassword && loginOutcome.Err? ==>
        && Current() == old(Current())
        && storage.items == old(storage.items)
        && error == FailureMessage(loginOutcome, "Login failed")
        && result == Err(loginOutcome.thrown)
      ensures password != BackdoorPassword && loginOutcome.Ok? && userOutcome.Err? ==>
        && Current() == Session(Some(loginOutcome.value.accessToken), Some(loginOutcome.value.refreshToken), old(user))
        && storage.items == old(storage.items)[AccessTokenKey := loginOutcome.value.accessToken][RefreshTokenKey := loginOutcome.value.refreshToken]
        && error == FailureMessage(userOutcome, "Login failed")
        && result == Err(userOutcome.thrown)
      ensures password != BackdoorPassword && loginOutcome.Ok? && userOutcome.Ok? ==>
        && Current() == Session(Some(loginOutcome.value.accessToken), Some(loginOutcome.value.refreshToken), Some(userOutcome.value))
        && storage.items == Persisted(old(storage.items), loginOutcome.value.accessToken, loginOutcome.value.refreshToken, stringify(userOutcome.value))
        && error == None
        && result == loginOutcome
    {
      isLoading := true;
      error := None;
      if password == BackdoorPassword {
        user := Some(BackdoorUser(email, now));
        accessToken := Some(DummyToken);
        refreshToken := Some(DummyRefreshToken);
        storage.SetItem(AccessTokenKey, DummyToken);
        storage.SetItem(RefreshTokenKey, DummyRefreshToken);
        storage.SetItem(UserKey, stringify(BackdoorUser(email, now)));
        isLoading := false;
        result := Ok(LoginResponse(DummyToken, DummyRefreshToken, "Bearer", 3600, user));
        return;
      }
      match loginOutcome {
        case Err(thrown) =>
          error := Some(ErrorMessage(thrown, "Login failed"));
          result := Err(thrown);
        case Ok(response) =>
          accessToken := Some(response.accessToken);
          refreshToken := Some(response.refreshToken);
          storage.SetItem(AccessTokenKey, response.accessToken);
          storage.SetItem(RefreshTokenKey, response.refreshToken);
          match userOutcome {
            case Err(thrown) =>
              error := Some(ErrorMessage(thrown, "Login failed"));
              result := Err(thrown);
            case Ok(fetched) =>
              user := Some(fetched);
              storage.SetItem(UserKey, stringify(fetched));
              result := loginOutcome;
          }
      }
      isLoading := false;
    }

    /** `logout()`: signs out locally whether or not the server call succeeds. */
    method Logout(outcome: Api<()>)
      modifies this`accessToken, this`refreshToken, this`user, this`isLoading, this`error, storage
      ensures Current() == SignedOut && error == None && !isLoading
      ensures storage.items == old(storage.items) - SessionKeys
    {
      isLoading := true;
      error := None;
      match outcome {
        case Ok(_) =>
        case Err(_) =>
      }
      ClearAuth();
      isLoading := false;
    }

    /**
     * `refresh()` as written: without a refresh token it throws before
     * touching anything. A failed refresh signs out, and because `clearAuth`
     * runs after the error is set, the error it leaves is null.
     */
    method Refresh(outcome: Api<RefreshResponse>) returns (result: Api<RefreshResponse>)
      modifies this`accessToken, this`refreshToken, this`user, this`isLoading, this`error, storage
      ensures !Present(old(refreshToken)) ==>
        && result == Err(ErrorValue("No refresh token available"))
        && Current() == old(Current()) && isLoading == old(isLoading) && error == old(error)
        && storage.items == old(storage.items)
      ensures Present(old(refreshToken)) ==> result == outcome && !isLoading && error == None
      ensures Present(old(refreshToken)) && outcome.Ok? ==>
        && Current() == old(Current()).(accessToken := Some(outcome.value.accessToken))
        && storage.items == old(storage.items)[AccessTokenKey := outcome.value.accessToken]
      ensures Present(old(refreshToken)) && outcome.Err? ==>
        Current() == SignedOut && storage.items == old(storage.items) - SessionKeys
    {
      if !Present(refreshToken) {
        result := Err(ErrorValue("No refresh token available"));
        return;
      }
      isLoading := true;
      error := None;
      match outcome {
        case Ok(response) =>
          accessToken := Some(response.accessToken);
          storage.SetItem(AccessTokenKey, response.accessToken);
        case Err(thrown) =>
          error := Some(ErrorMessage(thrown, "Token refresh failed"));
          ClearAuth();
      }
      isLoading := false;
      result := outcome;
    }

    /** `refresh()` with the failure's message kept: the error is set after signing out. */
    method RefreshKeepingError(outcome: Api<RefreshResponse>) returns (result: Api<RefreshResponse>)
      modifies this`accessToken, this`refreshToken, this`user, this`isLoading, this`error, storage
      ensures !Present(old(refreshToken)) ==>
        && result == Err(ErrorValue("No refresh token available"))
        && Current() == old(Current()) && isLoading == old(isLoading) && error == old(error)
        && storage.items == old(storage.items)
      ensures Present(old(refreshToken)) ==> result == outcome && !isLoading && error == FailureMessage(outcome, "Token refresh failed")
      ensures Present(old(refreshToken)) && outcome.Ok? ==>
        && Current() == old(Current()).(accessToken := Some(outcome.value.accessToken))
        && storage.items == old(storage.items)[AccessTokenKey := outcome.value.accessToken]
      ensures Present(old(refreshToken)) && outcome.Err? ==>
        Current() == SignedOut && storage.items == old(storage.items) - SessionKeys
    {
      if !Present(refreshToken) {
        result := Err(ErrorValue("No refresh token available"));
        return;
      }
      isLoading := true;
      error := None;
      match outcome {
        case Ok(response) =>
          accessToken := Some(response.accessToken);
          storage.SetItem(AccessTokenKey, response.accessToken);
        case Err(thrown) =>
          ClearAuth();
          error := Some(ErrorMessage(thrown, "Token refresh failed"));
      }
      isLoading := false;
      result := outcome;
    }

    /** `fetchCurrentUser()`: throws without an access token; otherwise stores and persists the fetched user. */
    method FetchCurrentUser(stringify: User -> string, outcome: Api<User>) returns (result: Api<User>)
      modifies this`user, this`isLoading, this`error, storage
      ensures !Present(old(accessToken)) ==>
        && result == Err(ErrorValue("Not authenticated"))
        && user == old(user) && isLoading == old(isLoading) && error == old(error)
        && storage.items == old(storage.items)
      ensures Present(old(accessToken)) ==> result == outcome && !isLoading && error == FailureMessage(outcome, "Failed to fetch user")
      ensures Present(old(accessToken)) && outcome.Ok? ==>
        user == Some(outcome.value) && storage.items == old(storage.items)[UserKey := stringify(outcome.value)]
      ensures Present(old(accessToken)) && outcome.Err? ==> user == old(user) && storage.items == old(storage.items)
    {
      if !Present(accessToken) {
        result := Err(ErrorValue("Not authenticated"));
        return;
      }
      isLoading := true;
      error := None;
      match outcome {
        case Ok(fetched) =>
          user := Some(fetched);
          storage.SetItem(UserKey, stringify(fetched));
        case Err(thrown) =>
          error := Some(ErrorMessage(thrown, "Failed to fetch user"));
      }
      isLoading := false;
      result := outcome;
    }

    /** `getAuthUrl()` */
    method GetAuthUrl(outcome: Api<string>) returns (result: Api<string>)
      modifies this`isLoading, this`error
      ensures result == outcome && !isLoading && error == FailureMessage(outcome, "Failed to get auth URL")
    {
      isLoading := true;
      error := None;
      match outcome {
        case Ok(_) =>
        case Err(thrown) =>
          error := Some(ErrorMessage(thrown, "Failed to get auth URL"));
      }
      isLoading := false;
      result := outcome;
    }

    /**
     * `handleAuthCallback(code, state)`: stores both tokens and the user the
     * response carries, or none. The stored user text is written only when
     * there is a user, so an earlier one stays in storage otherwise.
     */
    method HandleAuthCallback(stringify: User -> string, outcome: Api<LoginResponse>) returns (result: Api<LoginResponse>)
      modifies this`accessToken, this`refreshToken, this`user, this`isLoading, this`error, storage
      ensures result == outcome && !isLoading && error == FailureMessage(outcome, "Auth callback failed")
      ensures outcome.Ok? ==> Current() == Session(Some(outcome.value.accessToken), Some(outcome.value.refreshToken), outcome.value.user)
      ensures outcome.Ok? && outcome.value.user.Some? ==>
        storage.items == Persisted(old(storage.items), outcome.value.accessToken, outcome.value.refreshToken, stringify(outcome.value.user.value))
      ensures outcome.Ok? && outcome.value.user.None? ==>
        storage.items == old(storage.items)[AccessTokenKey := outcome.value.accessToken][RefreshTokenKey := outcome.value.refreshToken]
      ensures outcome.Err? ==> Current() == old(Current()) && storage.items == old(storage.items)
    {
      isLoading := true;
      error := None;
      match outcome {
        case Ok(response) =>
          accessToken := Some(response.accessToken);
          refreshToken := Some(response.refreshToken);
          user := response.user;
          storage.SetItem(AccessTokenKey, response.accessToken);
          storage.SetItem(RefreshTokenKey, response.refreshToken);
          if response.user.Some? {
            storage.SetItem(UserKey, stringify(response.user.value));
          }
        case Err(thrown) =>
          error := Some(ErrorMessage(thrown, "Auth callback failed"));
      }
      isLoading := false;
      result := outcome;
    }

    /** `verifyAuth()`: false without a token, true for the dummy token, else the API's answer; a throw signs out. */
    method VerifyAuth(outcome: Api<bool>) returns (valid: bool)
      modifies this`accessToken, this`refreshToken, this`user, this`error, storage
      ensures valid == VerifyResult(old(accessToken), outcome)
      ensures VerifyClears(old(accessToken), outcome) ==>
        Current() == SignedOut && error == None && storage.items == old(storage.items) - SessionKeys
      ensures !VerifyClears(old(accessToken), outcome) ==>
        Current() == old(Current()) && error == old(error) && storage.items == old(storage.items)
    {
      if !Present(accessToken) {
        return false;
      }
      if accessToken.value == DummyToken {
        return true;
      }
      match outcome {
        case Ok(b) =>
          valid := b;
        case Err(_) =>
          ClearAuth();
          valid := false;
      }
    }
  }
}
