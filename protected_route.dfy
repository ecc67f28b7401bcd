/** The client-side route guard. It decides, from the persisted session,
    whether a page renders, or the browser is sent to the login page or to
    the home page. It is advisory: every request the page then makes still
    passes the server's authentication filter. */
module ProtectedRoute {
  import opened JavaText
  import AuthMiddleware

  /** The logged-in user as the session stores it; `role` is undefined when
      the stored object has none. */
  datatype SessionUser = SessionUser(role: Option<string>)

  /** What the guard renders. */
  datatype Element = NavigateToLogin | NavigateToHome | Outlet

  /** `allowedRoles.includes(user.role)`: strict equality, so an undefined
      role is never included in a list of strings. */
  predicate Includes(allowedRoles: seq<string>, role: Option<string>) {
    role.Some? && role.value in allowedRoles
  }

  /** `allowedRoles` is undefined (None) or an array, which is truthy even
      when empty; `user` is null (None) or an object, which is truthy. */
  function Guard(isAuthenticated: bool, user: Option<SessionUser>, allowedRoles: Option<seq<string>>): (e: Element)
    ensures e == NavigateToLogin <==> !isAuthenticated
    ensures e == NavigateToHome <==>
      isAuthenticated && allowedRoles.Some? && user.Some? && !Includes(allowedRoles.value, user.value.role)
  {
    if !isAuthenticated then NavigateToLogin
    else if allowedRoles.Some? && user.Some? && !Includes(allowedRoles.value, user.value.role) then NavigateToHome
    else Outlet
  }

  /** The page renders exactly for an authenticated session that either has
      no role list to meet, no stored user to check, or a user whose role is
      listed. */
  lemma OutletIff(isAuthenticated: bool, user: Option<SessionUser>, allowedRoles: Option<seq<string>>)
    ensures Guard(isAuthenticated, user, allowedRoles) == Outlet <==>
      isAuthenticated
      && (allowedRoles.None? || user.None? || Includes(allowedRoles.value, user.value.role))
  {
  }

  /** An empty role list admits no stored user, and a stored user without a
      role is admitted only where no list is given. */
  lemma EmptyListAndMissingRole(user: SessionUser, allowedRoles: seq<string>)
    ensures Guard(true, Some(user), Some([])) == NavigateToHome
    ensures user.role.None? ==> Guard(true, Some(user), Some(allowedRoles)) == NavigateToHome
    ensures Guard(true, Some(user), None) == Outlet
  {
  }

  /** The guards of the create-event page (organizer, admin) and of the
      organizer pages (organizer) admit the same roles that the server's
      permission rules admit for the requests those pages make. */
  lemma GuardsAgreeWithServerRules(role: Option<string>, userId: int)
    ensures Guard(true, Some(SessionUser(role)), Some(["organizer", "admin"])) == Outlet
      <==> AuthMiddleware.HasPermission("POST", "/api/events", role, userId)
    ensures Guard(true, Some(SessionUser(role)), Some(["organizer"])) == Outlet
      <==> AuthMiddleware.HasPermission("GET", "/api/organizer/events", role, userId)
  {
    assert Includes(["organizer", "admin"], role) <==> role == Some("organizer") || role == Some("admin");
    assert Includes(["organizer"], role) <==> role == Some("organizer");
    AuthMiddleware.EventWritesNeedOrganizerOrAdmin("POST", "/api/events", role, userId);
    assert StartsWith("/api/organizer/events", "/api/organizer/");
    AuthMiddleware.OrganizerNamespaceOnlyOrganizer("GET", "/api/organizer/events", role, userId);
  }
}
