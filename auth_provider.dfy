/** The route guard that wraps protected pages. */
module AuthProvider {
  import opened Wrappers
  import opened Types

  datatype Vista = Spinner | Nada | Children

  /** What `ProtectedRoute` renders and where its effect navigates. */
  datatype Decision = Decision(vista: Vista, redirect: Option<string>)

  /**
   * `ProtectedRoute`. `allowedRoles` None is the prop left out; Some([]) is
   * an empty list, which admits nobody.
   */
  function Guard(isLoading: bool, user: Option<Usuario>, allowedRoles: Option<seq<RolUsuario>>): (r: Decision)
    ensures isLoading ==> r == Decision(Spinner, None)
    ensures r.vista == Children <==>
      !isLoading && user.Some? && (allowedRoles.None? || user.value.rol in allowedRoles.value)
    ensures r.redirect.Some? ==> r.vista == Nada
    ensures !isLoading && user.None? ==> r.redirect == Some("/login")
    ensures !isLoading && user.Some? && r.vista != Children ==> r.redirect == Some("/")
  {
    if isLoading then Decision(Spinner, None)
    else if user.None? then Decision(Nada, Some("/login"))
    else if allowedRoles.Some? && user.value.rol !in allowedRoles.value then Decision(Nada, Some("/"))
    else Decision(Children, None)
  }

  /**
   * An empty role list turns every signed-in user away, while a missing list
   * admits every signed-in user; an admin-only page admits only admins.
   */
  lemma GuardRoles(user: Usuario)
    ensures Guard(false, Some(user), Some([])) == Decision(Nada, Some("/"))
    ensures Guard(false, Some(user), None) == Decision(Children, None)
    ensures Guard(false, Some(user), Some([ADMIN])).vista == Children <==> user.rol == ADMIN
  {
  }
}
