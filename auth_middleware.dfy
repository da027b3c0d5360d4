/**
 * The session-based middleware: a signed-out visitor is sent to the login page,
 * a signed-in user who opens the login page is sent to the intake page, and every
 * other request goes through.
 */
module AuthMiddleware {
  import opened Routing

  const LoginPath: string := "/login"
  const IntakePath: string := "/intake"

  /** The decision of the `auth` callback for a request with this login state and path. */
  function Decide(isLoggedIn: bool, pathname: string): (d: Decision)
    ensures d == Redirect(LoginPath) <==> !isLoggedIn && pathname != LoginPath
    ensures d == Redirect(IntakePath) <==> isLoggedIn && pathname == LoginPath
    ensures d == Next <==> (isLoggedIn <==> pathname != LoginPath)
    ensures d.Redirect? ==> d.target != pathname
  {
    if !isLoggedIn && pathname != LoginPath then Redirect(LoginPath)
    else if isLoggedIn && pathname == LoginPath then Redirect(IntakePath)
    else Next
  }

  /** The decision for a request: the callback's for a matched path, otherwise the request goes through. */
  function Handle(isLoggedIn: bool, pathname: string): (d: Decision)
    ensures !Matched(pathname) ==> d == Next
    ensures Matched(pathname) ==> d == Decide(isLoggedIn, pathname)
  {
    if Matched(pathname) then Decide(isLoggedIn, pathname) else Next
  }

  /** Following a redirect reaches a page that is let through: one hop, never a loop. */
  lemma RedirectSettles(isLoggedIn: bool, pathname: string)
    ensures var d := Handle(isLoggedIn, pathname);
      d.Redirect? ==> d.target != pathname && Handle(isLoggedIn, d.target) == Next
  {
    MatcherHandlesPages();
  }
}
