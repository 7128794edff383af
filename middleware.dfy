/**
 * The installed middleware (src/middleware.ts): it delegates to
 * `authMiddleware`, and its `config.matcher` decides for which paths the
 * framework runs it at all.
 */
module Middleware {
  import opened Wrappers
  import opened Text
  import opened EdgeAuth
  import Auth

  /** A matcher entry: a literal path, or a literal prefix followed by one
      named parameter (`:path`), which matches one non-empty path segment. */
  datatype PathPattern = Exact(path: string) | PrefixParam(prefix: string)

  /** `matcher: ['/auth/:path', '/']`. */
  const Matcher: seq<PathPattern> := [PrefixParam("/auth/"), Exact("/")]

  /** One non-empty path segment: no `/` inside. */
  predicate IsSegment(s: string) {
    s != "" && '/' !in s
  }

  predicate PatternMatches(pattern: PathPattern, pathname: string) {
    match pattern
    case Exact(p) => pathname == p
    case PrefixParam(prefix) => StartsWith(pathname, prefix) && IsSegment(pathname[|prefix|..])
  }

  /** Some matcher entry admits the path. */
  predicate Matched(pathname: string) {
    exists i :: 0 <= i < |Matcher| && PatternMatches(Matcher[i], pathname)
  }

  /** `middleware`: the same response as `authMiddleware`. */
  function Middleware(request: Request): (r: Response)
    ensures r == AuthMiddleware(request)
  {
    AuthMiddleware(request)
  }

  /** What the framework does with a request: `None` when the matcher keeps
      the middleware from running (the request is served unmodified), else
      the middleware's response. */
  function Handle(request: Request): (r: Option<Response>)
    ensures r.Some? <==> Matched(request.pathname)
    ensures r.Some? ==> r.value == AuthMiddleware(request)
  {
    if Matched(request.pathname) then Some(Middleware(request)) else None
  }

  /** The matcher admits `/` and `/auth/` followed by one segment, nothing
      else. */
  lemma MatchedPaths(pathname: string)
    ensures Matched(pathname) <==>
              pathname == "/" || (StartsWith(pathname, "/auth/") && IsSegment(pathname[6..]))
  {
    if pathname == "/" {
      assert PatternMatches(Matcher[1], pathname);
    }
    if StartsWith(pathname, "/auth/") && IsSegment(pathname[6..]) {
      assert PatternMatches(Matcher[0], pathname);
    }
  }

  /** Every path the matcher admits is public to `authMiddleware`. */
  lemma MatchedPathsArePublic(pathname: string)
    requires Matched(pathname)
    ensures IsPublicPath(pathname)
  {
    MatchedPaths(pathname);
  }

  /** So, for the paths this matcher admits, the configured middleware never
      redirects: a request is either not handled or passed through. */
  lemma NeverRedirects(request: Request)
    ensures Handle(request) == None || Handle(request) == Some(Next)
  {
    if Matched(request.pathname) {
      MatchedPathsArePublic(request.pathname);
    }
  }

  /** `/index` is not public to `authMiddleware`: were the middleware run for
      it, a request carrying a token would be sent to the login page. */
  lemma IndexWouldRedirect(token: string)
    requires token != ""
    ensures !IsPublicPath("/index")
    ensures AuthMiddleware(Request("/index", Some(token))) == Redirect(Auth.LoginPath)
  {
    assert "/index"[..6] != "/auth/" by { assert "/index"[1] == 'i'; }
  }

  /** `/home`, `/auth/` and nested auth paths never reach the middleware. */
  lemma UnmatchedExamples(token: Option<string>)
    ensures Handle(Request("/home", token)) == None
    ensures Handle(Request("/auth/", token)) == None
    ensures Handle(Request("/auth/a/b", token)) == None
  {
    MatchedPaths("/home");
    MatchedPaths("/auth/");
    MatchedPaths("/auth/a/b");
    assert "/auth/a/b"[6..] == "a/b";
    assert "/auth/a/b"[6..][1] == '/';
  }
}
