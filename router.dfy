/** The parts of the router the guard and the login page use: route constants and locations. */
module Router {
  import opened Wrappers

  const LoginRoute: string := "/login"
  const DashboardRoute: string := "/dashboard"

  /** A router location; `state` is what a navigation attached to it (`{ from }` here). */
  datatype Location = Location(pathname: string, search: string, hash: string, state: Option<RouteState>)

  /** The `{ from: location }` object the guard attaches to its redirect; `from` may be missing. */
  datatype RouteState = RouteState(from: Option<Location>)
}
