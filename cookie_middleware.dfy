/**
 * The cookie-based middleware: public path prefixes go through, and any other
 * path goes through only when a session cookie is present; otherwise the request
 * is sent to the login page.
 */
module CookieMiddleware {
  import opened Routing
  import AuthMiddleware

  /** Path prefixes let through without a session. */
  const PublicPaths: seq<string> := ["/login", "/api/auth", "/_next", "/favicon.ico"]

  /** The cookie names the auth library stores its session token under. */
  const SessionCookie: string := "authjs.session-token"
  const SecureSessionCookie: string := "__Secure-authjs.session-token"

  /** The path starts with one of the public prefixes (a plain prefix test, not a path-segment one). */
  predicate IsPublic(pathname: string)
    ensures IsPublic(pathname) <==>
      StartsWith(pathname, "/login") || StartsWith(pathname, "/api/auth")
      || StartsWith(pathname, "/_next") || StartsWith(pathname, "/favicon.ico")
  {
    exists p :: p in PublicPaths && StartsWith(pathname, p)
  }

  /** A session cookie is present under either name; its value is not looked at. */
  predicate HasSessionCookie(cookies: map<string, string>)
    ensures HasSessionCookie(cookies) <==> cookies.Keys * {SessionCookie, SecureSessionCookie} != {}
  {
    if SessionCookie in cookies then
      assert SessionCookie in cookies.Keys * {SessionCookie, SecureSessionCookie};
      true
    else if SecureSessionCookie in cookies then
      assert SecureSessionCookie in cookies.Keys * {SessionCookie, SecureSessionCookie};
      true
    else false
  }

  /**
   * The decision of `middleware(request)` for a request with this path and these cookies.
   * It redirects to the same login page as the session middleware.
   */
  function Decide(pathname: string, cookies: map<string, string>): (d: Decision)
    ensures d.Redirect? <==> !IsPublic(pathname) && !HasSessionCookie(cookies)
    ensures d.Redirect? ==> d.target == AuthMiddleware.LoginPath
  {
    if IsPublic(pathname) then Next
    else if !HasSessionCookie(cookies) then Redirect(AuthMiddleware.LoginPath)
    else Next
  }

  /** The decision for a request: `middleware`'s for a matched path, otherwise the request goes through. */
  function Handle(pathname: string, cookies: map<string, string>): (d: Decision)
    ensures !Matched(pathname) ==> d == Next
    ensures Matched(pathname) ==> d == Decide(pathname, cookies)
  {
    if Matched(pathname) then Decide(pathname, cookies) else Next
  }

  /** The public test is a prefix test: anything below or merely starting like a public path is public. */
  lemma PublicByPrefix(pathname: string)
    requires StartsWith(pathname, "/login") || StartsWith(pathname, "/api/auth")
          || StartsWith(pathname, "/_next") || StartsWith(pathname, "/favicon.ico")
    ensures IsPublic(pathname)
    ensures Decide(pathname, map[]) == Next
  {
    if StartsWith(pathname, "/login") {
      assert PublicPaths[0] == "/login";
    } else if StartsWith(pathname, "/api/auth") {
      assert PublicPaths[1] == "/api/auth";
    } else if StartsWith(pathname, "/_next") {
      assert PublicPaths[2] == "/_next";
    } else {
      assert PublicPaths[3] == "/favicon.ico";
    }
  }

  /** `/login/x`, `/loginx` and `/api/authfoo` are public too. */
  lemma LoosePrefixesArePublic()
    ensures IsPublic("/login/x") && IsPublic("/loginx") && IsPublic("/api/authfoo")
  {
    PublicByPrefix("/login/x");
    PublicByPrefix("/loginx");
    PublicByPrefix("/api/authfoo");
  }

  /** The login page is never redirected, so the redirect cannot loop. */
  lemma RedirectSettles(pathname: string, cookies: map<string, string>)
    ensures var d := Handle(pathname, cookies);
      d.Redirect? ==> d.target != pathname && Handle(d.target, cookies) == Next
  {
    PublicByPrefix(AuthMiddleware.LoginPath);
  }

  /** Only which session cookies are present matters, never their values or other cookies. */
  lemma OnlyCookiePresenceMatters(pathname: string, a: map<string, string>, b: map<string, string>)
    requires (SessionCookie in a <==> SessionCookie in b) && (SecureSessionCookie in a <==> SecureSessionCookie in b)
    ensures Handle(pathname, a) == Handle(pathname, b)
  {
  }

  /** The `/api/auth` public prefix is never consulted: the matcher already skips every `/api` path. */
  lemma ApiPathsNeverHandled(pathname: string)
    requires StartsWith(pathname, "/api")
    ensures !Matched(pathname)
  {
  }

  /**
   * On a handled path that is not public, the two policies agree when the session
   * cookie is present exactly when the user is signed in.
   */
  lemma AgreesWithSessionPolicy(pathname: string, cookies: map<string, string>)
    requires !IsPublic(pathname)
    ensures Handle(pathname, cookies) == AuthMiddleware.Handle(HasSessionCookie(cookies), pathname)
  {
    if pathname == AuthMiddleware.LoginPath {
      PublicByPrefix(pathname);
    }
  }

  /** On the login page the policies differ: only the session policy sends a signed-in user on to intake. */
  lemma PoliciesDifferOnLogin(cookies: map<string, string>)
    requires HasSessionCookie(cookies)
    ensures Handle(AuthMiddleware.LoginPath, cookies) == Next
    ensures AuthMiddleware.Handle(true, AuthMiddleware.LoginPath) == Redirect(AuthMiddleware.IntakePath)
  {
    MatcherHandlesPages();
    PublicByPrefix(AuthMiddleware.LoginPath);
  }
}
