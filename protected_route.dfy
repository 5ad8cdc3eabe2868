/** `ProtectedRoute`: a three-way decision on the authentication state. */
module ProtectedRoute {
  import opened Wrappers
  import opened Router

  datatype GuardOutcome =
    | Spinner
    | Redirect(to: string, state: RouteState, replace: bool)
    | Children

  /** The guard: the spinner while loading, whatever the authentication state; otherwise a replacing
      redirect to `redirectTo` (default the login route) carrying the current location as `from`
      when not authenticated; otherwise the protected children. */
  function Guard(isLoading: bool, isAuthenticated: bool, redirectTo: Option<string>, location: Location): (o: GuardOutcome)
    ensures isLoading <==> o.Spinner?
    ensures !isLoading && isAuthenticated <==> o.Children?
    ensures o.Redirect? <==> !isLoading && !isAuthenticated
    ensures o.Redirect? ==> o.replace && o.state == RouteState(Some(location)) && o.to == redirectTo.GetOr(LoginRoute)
    ensures o.Redirect? && redirectTo.None? ==> o.to == "/login"
  {
    if isLoading then Spinner
    else if !isAuthenticated then Redirect(redirectTo.GetOr(LoginRoute), RouteState(Some(location)), true)
    else Children
  }
}
