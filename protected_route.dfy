/** The route guard in front of each dashboard: what it renders for the
    current authentication state. */
module ProtectedRoute {
  import opened Orders

  /** The signed-in user as the client knows it. */
  datatype User = User(id: UserId, role: string)

  /** What the guard renders: the loading screen, a redirect, or the
      protected page itself. */
  datatype View = LoadingView | Redirect(to: string) | Children

  /** `allowedRoles` is `None` when the route passes no list; an empty list
      is still a list (an array is truthy) and admits nobody. */
  function Guard(loading: bool, user: Option<User>, allowedRoles: Option<seq<string>>): (v: View)
    ensures loading <==> v == LoadingView
    ensures !loading && user.None? ==> v == Redirect("/login")
    ensures v == Children <==>
      !loading && user.Some? && (allowedRoles.None? || user.value.role in allowedRoles.value)
    ensures !loading && user.Some? && allowedRoles.Some? && user.value.role !in allowedRoles.value ==>
      v == Redirect("/" + user.value.role)
  {
    if loading then LoadingView
    else if user.None? then Redirect("/login")
    else if allowedRoles.Some? && user.value.role !in allowedRoles.value then Redirect("/" + user.value.role)
    else Children
  }
}
