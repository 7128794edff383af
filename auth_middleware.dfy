/**
 * The edge middleware's decision (src/middleware/auth-middleware.ts), as
 * written: public paths pass, and on any other path a request that CARRIES
 * an `auth-token` cookie is sent to the login page, while one without it
 * passes.
 */
module EdgeAuth {
  import opened Wrappers
  import opened Text
  import Auth

  /** The parts of the request the middleware reads: the path and the value
      of the `auth-token` cookie, if any. */
  datatype Request = Request(pathname: string, authToken: Option<string>)

  /** `NextResponse.next()`, or `NextResponse.redirect` to a path on the
      request's own origin. */
  datatype Response = Next | Redirect(path: string)

  /** The middleware's own public-path test. */
  predicate IsPublicPath(pathname: string) {
    pathname == "/" || StartsWith(pathname, "/auth/")
  }

  /** `authMiddleware`. */
  function AuthMiddleware(request: Request): (r: Response)
    ensures IsPublicPath(request.pathname) ==> r == Next
    ensures !IsPublicPath(request.pathname) ==> (r.Redirect? <==> IsTruthy(request.authToken))
    ensures r.Redirect? ==> r.path == Auth.LoginPath
  {
    if IsPublicPath(request.pathname) then Next
    else if IsTruthy(request.authToken) then Redirect(Auth.LoginPath)
    else Next
  }

  /** The middleware's public paths are exactly the paths that
      `isProtectedRoute` leaves unprotected. */
  lemma PublicIsUnprotected(pathname: string)
    ensures IsPublicPath(pathname) <==> !Auth.IsProtectedRoute(pathname)
  {
  }

  /** On a public path the cookie is irrelevant. */
  lemma PublicIgnoresCookie(pathname: string, t1: Option<string>, t2: Option<string>)
    requires IsPublicPath(pathname)
    ensures AuthMiddleware(Request(pathname, t1)) == AuthMiddleware(Request(pathname, t2)) == Next
  {
  }

  /** The inverted gate: on `/home` a signed-in request is redirected to the
      login page and an anonymous one is served. */
  lemma HomeIsInverted()
    ensures AuthMiddleware(Request("/home", Some("token"))) == Redirect("/auth/login")
    ensures AuthMiddleware(Request("/home", None)) == Next
  {
  }
}
