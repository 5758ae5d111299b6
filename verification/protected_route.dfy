/** The route guard (src/components/ProtectedRoute.tsx): send a signed-out
    visitor to the login page, refuse a signed-in user whose role is not
    listed, and otherwise render the nested route. */
module ProtectedRoute {
  import opened Domain
  import Store

  datatype Decision = RedirectToLogin | AccessDenied | RenderChild

  /** The guard's decision.  `allowedRoles` is `None` when the prop is not
      given. */
  function Guard(isAuthenticated: bool, currentUser: Option<User>, allowedRoles: Option<seq<Role>>): (r: Decision)
    ensures !isAuthenticated ==> r == RedirectToLogin
    ensures isAuthenticated && allowedRoles.None? ==> r == RenderChild
  {
    if !isAuthenticated then RedirectToLogin
    else if allowedRoles.Some? && currentUser.Some? && currentUser.value.role !in allowedRoles.value then AccessDenied
    else RenderChild
  }

  /** Who gets through a guard with a role list, case by case. */
  lemma GuardWithRoles(isAuthenticated: bool, user: Option<User>, roles: seq<Role>)
    ensures isAuthenticated && user.Some? ==>
              (Guard(isAuthenticated, user, Some(roles)) == RenderChild <==> user.value.role in roles)
    ensures isAuthenticated && user.Some? && user.value.role !in roles ==>
              Guard(isAuthenticated, user, Some(roles)) == AccessDenied
    ensures Guard(isAuthenticated, user, Some(roles)) != AccessDenied || (isAuthenticated && user.Some?)
  {
  }

  /** Signed in without a user record, the role check is skipped. */
  lemma AuthenticatedWithoutUserPasses(roles: seq<Role>)
    ensures Guard(true, None, Some(roles)) == RenderChild
  {
  }

  /** Only the role of the user is consulted. */
  lemma GuardReadsOnlyRole(isAuthenticated: bool, u: User, v: User, allowedRoles: Option<seq<Role>>)
    requires u.role == v.role
    ensures Guard(isAuthenticated, Some(u), allowedRoles) == Guard(isAuthenticated, Some(v), allowedRoles)
  {
  }

  /** Signed in exactly when there is a user record. */
  ghost predicate SessionConsistent(s: Store.State)
  {
    s.isAuthenticated <==> s.currentUser.Some?
  }

  /** The store's initial state, login and logout all keep the session
      consistent, so in the running app the "signed in without a user" case
      above does not arise through them. */
  lemma SessionStaysConsistent(s: Store.State, email: string, role: Role)
    ensures SessionConsistent(Store.Initial())
    ensures SessionConsistent(Store.Login(s, email, role))
    ensures SessionConsistent(Store.Logout(s))
  {
  }

  /** In a consistent session a guard with roles renders its child exactly for
      a signed-in user whose role is listed. */
  lemma ConsistentSessionGuard(s: Store.State, roles: seq<Role>)
    requires SessionConsistent(s)
    ensures Guard(s.isAuthenticated, s.currentUser, Some(roles)) == RenderChild
            <==> s.currentUser.Some? && s.currentUser.value.role in roles
  {
  }
}
