/**
 * The router's navigation guards. Each guard first restores the session
 * from storage when the store is not already signed in, then decides:
 * continue, or redirect to a named route (with the destination's full path
 * as `redirect` when the redirect is to the login page).
 */
module Guards {
  import opened Wrappers
  import opened AuthStore

  /** What a guard passes to `next`. */
  datatype Decision = Allow | Redirect(name: string, redirect: Option<string>)

  /** `{ name: 'login', query: { redirect: to.fullPath } }` */
  function LoginRedirect(fullPath: string): Decision {
    Redirect("login", Some(fullPath))
  }

  /** `authGuard`'s decision once it knows whether the store is signed in and the token is valid. */
  function AuthDecision(authenticated: bool, valid: bool, fullPath: string): (d: Decision)
    ensures d == Allow <==> authenticated && valid
    ensures d != Allow ==> d == LoginRedirect(fullPath)
  {
    if !authenticated then LoginRedirect(fullPath)
    else if !valid then LoginRedirect(fullPath)
    else Allow
  }

  /** `guestGuard`'s decision: signed-in users go to the dashboard. */
  function GuestDecision(authenticated: bool): (d: Decision)
    ensures d == Allow <==> !authenticated
    ensures d != Allow ==> d == Redirect("dashboard", None)
  {
    if authenticated then Redirect("dashboard", None) else Allow
  }

  /** `roleGuard(allowedRoles)`'s decision: only the 'superuser' role is checked. */
  function RoleDecision(authenticated: bool, superuser: bool, allowedRoles: seq<string>, fullPath: string): (d: Decision)
    ensures !authenticated ==> d == LoginRedirect(fullPath)
    ensures authenticated ==> (d == Redirect("unauthorized", None) <==> "superuser" in allowedRoles && !superuser)
    ensures authenticated ==> (d == Allow <==> !("superuser" in allowedRoles) || superuser)
  {
    if !authenticated then LoginRedirect(fullPath)
    else if "superuser" in allowedRoles && !superuser then Redirect("unauthorized", None)
    else Allow
  }

  /** A role list without 'superuser' admits every signed-in user, superuser or not. */
  lemma RoleGuardIgnoresOtherRoles(superuser: bool, allowedRoles: seq<string>, fullPath: string)
    requires "superuser" !in allowedRoles
    ensures RoleDecision(true, superuser, allowedRoles, fullPath) == Allow
    ensures RoleDecision(true, superuser, allowedRoles, fullPath) == RoleDecision(true, !superuser, allowedRoles, fullPath)
  {
  }

  /** The session a guard decides on: `initAuth` runs only when the store is not signed in. */
  function GuardSession(before: Session, items: map<string, string>, parse: string -> ParsedUser): (s: Session)
    ensures IsAuthenticated(before) ==> s == before
    ensures IsAuthenticated(s) <==> IsAuthenticated(before) || IsAuthenticated(Restore(before, items, parse))
  {
    if IsAuthenticated(before) then before else Restore(before, items, parse)
  }

  /** A session installed by the backdoor passes the auth guard and the superuser guard, whatever the verify call would say. */
  lemma BackdoorPassesGuards(email: string, now: string, items: map<string, string>, parse: string -> ParsedUser,
                             verifyOutcome: Api<bool>, fullPath: string)
    ensures var s := GuardSession(BackdoorSession(email, now), items, parse);
      && AuthDecision(IsAuthenticated(s), VerifyResult(s.accessToken, verifyOutcome), fullPath) == Allow
      && RoleDecision(IsAuthenticated(s), IsSuperuser(s.user), ["superuser"], fullPath) == Allow
  {
    BackdoorSignsInSuperuser(email, now);
  }

  /** The `if (!authStore.isAuthenticated) authStore.initAuth()` step every guard begins with. */
  method RestoreIfSignedOut(auth: Store, parse: string -> ParsedUser)
    modifies auth`accessToken, auth`refreshToken, auth`user, auth`error, auth.storage
    ensures auth.Current() == GuardSession(old(auth.Current()), old(auth.storage.items), parse)
    ensures IsAuthenticated(old(auth.Current())) ==> auth.error == old(auth.error) && auth.storage.items == old(auth.storage.items)
    ensures !IsAuthenticated(old(auth.Current())) && RestoreFails(old(auth.storage.items), parse) ==>
      auth.error == None && auth.storage.items == old(auth.storage.items) - SessionKeys
    ensures !IsAuthenticated(old(auth.Current())) && !RestoreFails(old(auth.storage.items), parse) ==>
      auth.error == old(auth.error) && auth.storage.items == old(auth.storage.items)
  {
    if !IsAuthenticated(auth.Current()) {
      auth.InitAuth(parse);
    }
  }

  /** `authGuard(to)`: the token is verified only once the store is signed in; a throwing verify signs out. */
  method AuthGuard(auth: Store, fullPath: string, parse: string -> ParsedUser, verifyOutcome: Api<bool>) returns (d: Decision)
    modifies auth`accessToken, auth`refreshToken, auth`user, auth`error, auth.storage
    ensures var s := GuardSession(old(auth.Current()), old(auth.storage.items), parse);
      d == AuthDecision(IsAuthenticated(s), VerifyResult(s.accessToken, verifyOutcome), fullPath)
    ensures var s := GuardSession(old(auth.Current()), old(auth.storage.items), parse);
      auth.Current() == if IsAuthenticated(s) && VerifyClears(s.accessToken, verifyOutcome) then SignedOut else s
  {
    RestoreIfSignedOut(auth, parse);
    if !IsAuthenticated(auth.Current()) {
      return LoginRedirect(fullPath);
    }
    var isValid := auth.VerifyAuth(verifyOutcome);
    if !isValid {
      return LoginRedirect(fullPath);
    }
    d := Allow;
  }

  /** `guestGuard(to)` */
  method GuestGuard(auth: Store, parse: string -> ParsedUser) returns (d: Decision)
    modifies auth`accessToken, auth`refreshToken, auth`user, auth`error, auth.storage
    ensures auth.Current() == GuardSession(old(auth.Current()), old(auth.storage.items), parse)
    ensures d == GuestDecision(IsAuthenticated(auth.Current()))
  {
    RestoreIfSignedOut(auth, parse);
    if IsAuthenticated(auth.Current()) {
      return Redirect("dashboard", None);
    }
    d := Allow;
  }

  /** `roleGuard(allowedRoles)(to)` */
  method RoleGuard(auth: Store, allowedRoles: seq<string>, fullPath: string, parse: string -> ParsedUser) returns (d: Decision)
    modifies auth`accessToken, auth`refreshToken, auth`user, auth`error, auth.storage
    ensures auth.Current() == GuardSession(old(auth.Current()), old(auth.storage.items), parse)
    ensures d == RoleDecision(IsAuthenticated(auth.Current()), IsSuperuser(auth.user), allowedRoles, fullPath)
  {
    RestoreIfSignedOut(auth, parse);
    if !IsAuthenticated(auth.Current()) {
      return LoginRedirect(fullPath);
    }
    var isSuperuser := IsSuperuser(auth.user);
    if "superuser" in allowedRoles && !isSuperuser {
      return Redirect("unauthorized", None);
    }
    d := Allow;
  }

  /** `superuserGuard`, which is `roleGuard(['superuser'])`. */
  method SuperuserGuard(auth: Store, fullPath: string, parse: string -> ParsedUser) returns (d: Decision)
    modifies auth`accessToken, auth`refreshToken, auth`user, auth`error, auth.storage
    ensures auth.Current() == GuardSession(old(auth.Current()), old(auth.storage.items), parse)
    ensures d == RoleDecision(IsAuthenticated(auth.Current()), IsSuperuser(auth.user), ["superuser"], fullPath)
    ensures IsAuthenticated(auth.Current()) ==> (d == Allow <==> IsSuperuser(auth.user))
  {
    d := RoleGuard(auth, ["superuser"], fullPath, parse);
  }
}
