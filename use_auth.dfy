/**
 * The role checks and the post-login navigation target of the `useAuth`
 * composable. Only the 'superuser' role is known; it holds exactly when the
 * auth store's `isSuperuser` does.
 */
module UseAuth {
  import opened Wrappers
  import opened Guards

  /** `hasRole(role)` */
  function HasRole(isSuperuser: bool, role: string): (r: bool)
    ensures role == "superuser" ==> r == isSuperuser
    ensures role != "superuser" ==> !r
  {
    if role == "superuser" then isSuperuser else false
  }

  /** `hasAnyRole(roles)`: `roles.some(hasRole)`. */
  function HasAnyRole(isSuperuser: bool, roles: seq<string>): (r: bool)
    ensures r <==> exists i :: 0 <= i < |roles| && HasRole(isSuperuser, roles[i])
  {
    if |roles| == 0 then false
    else HasRole(isSuperuser, roles[0]) || HasAnyRole(isSuperuser, roles[1..])
  }

  /** `hasAllRoles(roles)`: `roles.every(hasRole)`. */
  function HasAllRoles(isSuperuser: bool, roles: seq<string>): (r: bool)
    ensures r <==> forall i :: 0 <= i < |roles| ==> HasRole(isSuperuser, roles[i])
  {
    if |roles| == 0 then true
    else HasRole(isSuperuser, roles[0]) && HasAllRoles(isSuperuser, roles[1..])
  }

  /** `hasAnyRole` is false for the empty list and otherwise asks for a superuser and a listed 'superuser'. */
  lemma HasAnyRoleCharacterized(isSuperuser: bool, roles: seq<string>)
    ensures !HasAnyRole(isSuperuser, [])
    ensures HasAnyRole(isSuperuser, roles) <==> isSuperuser && "superuser" in roles
  {
    if isSuperuser && "superuser" in roles {
      var i :| 0 <= i < |roles| && roles[i] == "superuser";
      assert HasRole(isSuperuser, roles[i]);
    }
  }

  /** `hasAllRoles` is true for the empty list and otherwise asks for a superuser and nothing but 'superuser' listed. */
  lemma HasAllRolesCharacterized(isSuperuser: bool, roles: seq<string>)
    ensures HasAllRoles(isSuperuser, [])
    ensures HasAllRoles(isSuperuser, roles) <==>
      roles == [] || (isSuperuser && forall i :: 0 <= i < |roles| ==> roles[i] == "superuser")
  {
    if HasAllRoles(isSuperuser, roles) && roles != [] {
      assert HasRole(isSuperuser, roles[0]);
    }
  }

  /** `redirect || '/dashboard'`: where `login` navigates once signed in. */
  function LoginTarget(redirect: Option<string>): (target: string)
    ensures redirect.Some? && redirect.value != "" ==> target == redirect.value
    ensures redirect.None? || redirect.value == "" ==> target == "/dashboard"
  {
    if redirect.Some? && redirect.value != "" then redirect.value else "/dashboard"
  }

  /** A page the login redirect was sent from is where signing in returns to. */
  lemma LoginReturnsToGuardedPage(fullPath: string)
    requires fullPath != ""
    ensures LoginRedirect(fullPath).redirect.Some?
    ensures LoginTarget(LoginRedirect(fullPath).redirect) == fullPath
  {
  }
}
