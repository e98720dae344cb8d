/** The two route guards: a pure decision from the session's token, user and
    the route's required role to one of three outcomes. */
module Guards {
  import opened Common
  import opened Text
  import AuthSlice

  datatype Decision = RedirectToLogin | RedirectToUnauthorized | RenderChildren

  /** `ProtectedRoute`: a falsy token sends the visitor to /login. */
  function ProtectedRoute(token: Option<string>): (d: Decision)
    ensures d != RedirectToUnauthorized
    ensures d == RenderChildren <==> Truthy(token)
  {
    if !Truthy(token) then RedirectToLogin else RenderChildren
  }

  /** `RoleBasedRoute` as written: `roles` is a string, so `roles.includes(role)`
      asks whether the role is a substring of it. */
  function RoleBasedRoute(token: Option<string>, user: Option<AuthSlice.User>, roles: Option<string>): (d: Decision)
    ensures d == RedirectToLogin <==> !Truthy(token)
    ensures d == RedirectToUnauthorized ==> Truthy(roles)
  {
    if !Truthy(token) then RedirectToLogin
    else if Truthy(roles) && (user.None? || !Contains(roles.value, user.value.role)) then RedirectToUnauthorized
    else RenderChildren
  }

  /** The login check comes first: without a token nothing else matters. */
  lemma LoginCheckFirst(token: Option<string>, user: Option<AuthSlice.User>, roles: Option<string>)
    ensures !Truthy(token) <==> RoleBasedRoute(token, user, roles) == RedirectToLogin
  {
  }

  /** With a token and no required role the children render, whoever the user is. */
  lemma NoRolesRenders(token: Option<string>, user: Option<AuthSlice.User>)
    requires Truthy(token)
    ensures RoleBasedRoute(token, user, None) == RenderChildren
    ensures RoleBasedRoute(token, user, Some("")) == RenderChildren
  {
  }

  /** With a token and a required role, an unknown user is turned away. */
  lemma UnknownUserUnauthorized(token: Option<string>, roles: Option<string>)
    requires Truthy(token) && Truthy(roles)
    ensures RoleBasedRoute(token, None, roles) == RedirectToUnauthorized
  {
  }

  /** With a token and the route's role "admin", access is granted exactly
      when the user's role occurs somewhere inside "admin". */
  lemma AdminGateIsSubstringTest(token: Option<string>, user: AuthSlice.User)
    requires Truthy(token)
    ensures RoleBasedRoute(token, Some(user), Some("admin")) == RenderChildren
            <==> exists i :: OccursAt("admin", user.role, i)
  {
    ContainsIffOccurs("admin", user.role);
  }

  /** The consequence: the empty role and partial names pass the admin gate. */
  lemma PartialRolesPassAdminGate(token: Option<string>, u: AuthSlice.User)
    requires Truthy(token)
    requires u.role in {"", "adm", "min"}
    ensures RoleBasedRoute(token, Some(u), Some("admin")) == RenderChildren
  {
    assert OccursAt("admin", "", 0);
    assert OccursAt("admin", "adm", 0);
    assert OccursAt("admin", "min", 2);
    AdminGateIsSubstringTest(token, u);
  }

  /** Without a required role the two guards decide alike, and neither looks at the user. */
  lemma ProtectedAgreesWithoutRoles(token: Option<string>, user: Option<AuthSlice.User>)
    ensures RoleBasedRoute(token, user, None) == ProtectedRoute(token)
  {
  }

  /** The guard with the role test it evidently intends: the user's role must
      equal the required role. */
  function RoleBasedRouteExact(token: Option<string>, user: Option<AuthSlice.User>, roles: Option<string>): (d: Decision)
    ensures d == RedirectToLogin <==> !Truthy(token)
    ensures d == RedirectToUnauthorized ==> Truthy(roles)
  {
    if !Truthy(token) then RedirectToLogin
    else if Truthy(roles) && (user.None? || roles.value != user.value.role) then RedirectToUnauthorized
    else RenderChildren
  }

  /** The exact guard renders an admin route only for a user whose role is
      "admin", and otherwise agrees with the written guard on login. */
  lemma ExactGateAdmitsOnlyTheRole(token: Option<string>, user: Option<AuthSlice.User>, roles: Option<string>)
    ensures Truthy(token) && Truthy(roles) ==>
              (RoleBasedRouteExact(token, user, roles) == RenderChildren
               <==> user.Some? && user.value.role == roles.value)
    ensures RoleBasedRouteExact(token, user, None) == ProtectedRoute(token)
  {
  }

  /** Whenever the exact guard renders, the written guard renders too: the
      written guard only admits more. */
  lemma ExactIsStricter(token: Option<string>, user: Option<AuthSlice.User>, roles: Option<string>)
    ensures RoleBasedRouteExact(token, user, roles) == RenderChildren ==>
            RoleBasedRoute(token, user, roles) == RenderChildren
  {
    if Truthy(token) && Truthy(roles) && user.Some? && user.value.role == roles.value {
      assert Contains(roles.value, user.value.role);
    }
  }
}
