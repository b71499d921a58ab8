/** The role guard (src/components/RoleGuard.tsx): from the session state, what the guarded
    page shows and where the guard's effect navigates. */
module RoleGuard {
  import opened Wrappers
  import opened Types

  const LoginRoute: string := "/auth/login"
  /** The fallback when the caller gives none. */
  const DefaultFallback: string := "/"

  /** `user.role || 'user'`. */
  function EffectiveRole(user: AuthUser): (role: string)
    ensures user.role.Some? && user.role.value != "" ==> role == user.role.value
    ensures user.role.None? || user.role.value == "" ==> role == ROLE_USER
  {
    if user.role.Some? && user.role.value != "" then user.role.value else ROLE_USER
  }

  datatype Shown = Loader | Nothing | Children

  /** One evaluation of the guard: what it renders and the navigation its effect issues. */
  datatype Decision = Decision(shown: Shown, redirect: Option<string>)

  /** `fallbackPath` is `None` when the caller leaves it out. */
  function Guard(isLoading: bool, isAuthenticated: bool, user: Option<AuthUser>,
                 allowedRoles: seq<string>, fallbackPath: Option<string>): (d: Decision)
    ensures d.shown == Children <==>
      !isLoading && isAuthenticated && user.Some? && EffectiveRole(user.value) in allowedRoles
    ensures d.shown == Loader <==> isLoading
    ensures !isLoading && !isAuthenticated ==> d.redirect == Some(LoginRoute)
    ensures !isLoading && isAuthenticated && user.Some? && EffectiveRole(user.value) !in allowedRoles ==>
      d.redirect == Some(fallbackPath.GetOr(DefaultFallback))
    ensures d.redirect.Some? ==> d.shown == Nothing
  {
    var redirect :=
      if !isLoading && !isAuthenticated then Some(LoginRoute)
      else if !isLoading && isAuthenticated && user.Some? && EffectiveRole(user.value) !in allowedRoles then
        Some(fallbackPath.GetOr(DefaultFallback))
      else None;
    var shown :=
      if isLoading then Loader
      else if !isAuthenticated || user.None? then Nothing
      else if EffectiveRole(user.value) !in allowedRoles then Nothing
      else Children;
    Decision(shown, redirect)
  }

  /** While the session loads the guard shows the loader and navigates nowhere; a page it
      shows is never navigated away from. */
  lemma NoRedirectWhileLoadingOrShown(isLoading: bool, isAuthenticated: bool, user: Option<AuthUser>,
                                      allowedRoles: seq<string>, fallbackPath: Option<string>)
    ensures isLoading ==> Guard(isLoading, isAuthenticated, user, allowedRoles, fallbackPath).redirect.None?
    ensures Guard(isLoading, isAuthenticated, user, allowedRoles, fallbackPath).shown == Children ==>
      Guard(isLoading, isAuthenticated, user, allowedRoles, fallbackPath).redirect.None?
  {
  }

  /** A user without a role passes exactly the guards that admit "user"; with role-less users
      only the customer pages open. */
  lemma RolelessIsCustomer(u: AuthUser, allowedRoles: seq<string>, fallbackPath: Option<string>)
    requires u.role.None?
    ensures Guard(false, true, Some(u), allowedRoles, fallbackPath).shown == Children <==> ROLE_USER in allowedRoles
  {
  }

  /** A signed-in session whose user object is missing shows nothing and navigates nowhere. */
  lemma MissingUserStaysBlank(allowedRoles: seq<string>, fallbackPath: Option<string>)
    ensures Guard(false, true, None, allowedRoles, fallbackPath) == Decision(Nothing, None)
  {
  }
}
