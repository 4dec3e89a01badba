/** The guard in front of the signed-in pages. */
module PrivateRoute {
  import opened Common
  import opened UserSlice

  /** Either the protected page renders, or the router redirects. */
  datatype RouteDecision = RenderOutlet | Redirect(to: Navigation)

  /**
   * A non-empty `email` in the session lets the page render; an empty one
   * redirects to `/login`, replacing the history entry.
   */
  function Guard(user: UserState): (d: RouteDecision)
    ensures d == RenderOutlet <==> user.email != ""
    ensures d != RenderOutlet ==> d == Redirect(Navigation("/login", true))
  {
    if user.email != "" then RenderOutlet else Redirect(Navigation("/login", true))
  }

  /** Only `email` matters: a session without a token but with an email still passes. */
  lemma GuardReadsOnlyEmail(u: UserState, v: UserState)
    requires u.email == v.email
    ensures Guard(u) == Guard(v)
    ensures u.email != "" ==> Guard(u.(token := None)) == RenderOutlet
  {
  }

  /** After `clearUser` every guarded page redirects to the login page. */
  lemma ClearedSessionRedirects(u: UserState)
    ensures Guard(Reduce(u, ClearUser)) == Redirect(Navigation("/login", true))
  {
  }
}
