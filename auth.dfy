/**
 * Page-level route protection (src/lib/auth.ts): which paths need a
 * session, the fail-closed session check, and the guard that pages call
 * before rendering. The cookie store and the verification request are
 * parameters: `store` is what `cookies()` yields (or that it threw), and
 * `fetch` answers the verification request (or throws).
 */
module Auth {
  import opened Wrappers
  import opened Text

  const LoginPath := "/auth/login"
  const DefaultApiUrl := "http://localhost:3000/api"
  const VerifyEndpoint := "/auth/verify"

  /** What `await cookies()` produced: the store with the optional value of
      the `auth-token` cookie, or an exception. */
  datatype CookieStore = CookiesThrew | Cookies(authToken: Option<string>)

  /** The verification request: its URL and its `Authorization` header. */
  datatype VerifyRequest = VerifyRequest(url: string, authorization: string)

  /** What `await fetch(...)` produced: a response with its `ok` flag, or an
      exception (network failure and the like). */
  datatype FetchOutcome = Response(ok: bool) | FetchThrew

  /** What a guarded page does: render, or throw Next.js's redirect. */
  datatype GuardResult = Proceed | RedirectTo(path: string)

  /** `process.env.NEXT_PUBLIC_API_URL || 'http://localhost:3000/api'`. */
  function ApiUrl(env: Option<string>): (url: string)
    ensures IsTruthy(env) ==> url == env.value
    ensures !IsTruthy(env) ==> url == DefaultApiUrl
  {
    if IsTruthy(env) then env.value else DefaultApiUrl
  }

  /** The request sent to verify a token. */
  function VerifyRequestFor(env: Option<string>, token: string): (r: VerifyRequest)
    ensures StartsWith(r.url, ApiUrl(env)) && r.url[|ApiUrl(env)|..] == VerifyEndpoint
    ensures StartsWith(r.authorization, "Bearer ") && r.authorization[7..] == token
  {
    VerifyRequest(ApiUrl(env) + VerifyEndpoint, "Bearer " + token)
  }

  /** `checkAuthStatus`: true only when a non-empty `auth-token` cookie was
      read and the verification request for that token came back with `ok`;
      a missing cookie, an empty one, a thrown cookie read and a thrown fetch
      all give false. */
  function CheckAuthStatus(env: Option<string>, store: CookieStore,
                           fetch: VerifyRequest -> FetchOutcome): (authenticated: bool)
    ensures authenticated ==> store.Cookies? && IsTruthy(store.authToken)
    ensures store.Cookies? && IsTruthy(store.authToken) ==>
              (authenticated <==> fetch(VerifyRequestFor(env, store.authToken.value)) == Response(true))
  {
    match store
    case CookiesThrew => false
    case Cookies(token) =>
      if !IsTruthy(token) then false
      else
        match fetch(VerifyRequestFor(env, token.value))
        case FetchThrew => false
        case Response(ok) => ok
  }

  /** Without a (non-empty) token the verifier is never consulted and the
      answer is false, whatever the verifier would have said. */
  lemma NoTokenNotAuthenticated(env: Option<string>, token: Option<string>,
                                fetch: VerifyRequest -> FetchOutcome)
    requires !IsTruthy(token)
    ensures !CheckAuthStatus(env, Cookies(token), fetch)
  {
  }

  /** Fail closed: when verification throws, the user is not authenticated. */
  lemma VerifyThrowsNotAuthenticated(env: Option<string>, token: string,
                                     fetch: VerifyRequest -> FetchOutcome)
    requires fetch(VerifyRequestFor(env, token)) == FetchThrew
    ensures !CheckAuthStatus(env, Cookies(Some(token)), fetch)
  {
  }

  /** `isProtectedRoute`: everything except `/` and the paths under `/auth/`. */
  function IsProtectedRoute(pathname: string): (r: bool)
    ensures !r <==> pathname == "/" || StartsWith(pathname, "/auth/")
  {
    if pathname == "/" then false
    else if StartsWith(pathname, "/auth/") then false
    else true
  }

  /** The landing page and every path under `/auth/` are public. */
  lemma PublicPaths(suffix: string)
    ensures !IsProtectedRoute("/")
    ensures !IsProtectedRoute("/auth/" + suffix)
  {
    assert ("/auth/" + suffix)[..6] == "/auth/";
  }

  /** `/auth` without the trailing slash, and paths that merely begin with
      `/auth`, are protected. */
  lemma BareAuthProtected()
    ensures IsProtectedRoute("/auth")
    ensures IsProtectedRoute("/authority")
  {
    assert "/authority"[..6] != "/auth/" by {
      assert "/authority"[5] == 'o';
    }
  }

  /** `withAuth`: an unprotected path proceeds; a protected one redirects to
      the login page exactly when the session check fails. */
  function WithAuth(pathname: string, env: Option<string>, store: CookieStore,
                    fetch: VerifyRequest -> FetchOutcome): (r: GuardResult)
    ensures !IsProtectedRoute(pathname) ==> r == Proceed
    ensures IsProtectedRoute(pathname) ==>
              (r == RedirectTo(LoginPath) <==> !CheckAuthStatus(env, store, fetch))
    ensures r == Proceed || r == RedirectTo(LoginPath)
  {
    if IsProtectedRoute(pathname) && !CheckAuthStatus(env, store, fetch) then
      RedirectTo(LoginPath)
    else
      Proceed
  }

  /** On an unprotected path the session plays no part: any two sessions
      give the same outcome. */
  lemma UnprotectedIgnoresSession(pathname: string,
                                  env1: Option<string>, store1: CookieStore, fetch1: VerifyRequest -> FetchOutcome,
                                  env2: Option<string>, store2: CookieStore, fetch2: VerifyRequest -> FetchOutcome)
    requires !IsProtectedRoute(pathname)
    ensures WithAuth(pathname, env1, store1, fetch1) == WithAuth(pathname, env2, store2, fetch2)
  {
  }

  /** The auth layout's guard, `withAuth('/auth/')`, never redirects. */
  lemma AuthLayoutNeverRedirects(env: Option<string>, store: CookieStore, fetch: VerifyRequest -> FetchOutcome)
    ensures WithAuth("/auth/", env, store, fetch) == Proceed
  {
  }

  /** The onboarding page renders only for an authenticated session. */
  lemma OnboardingNeedsSession(env: Option<string>, store: CookieStore, fetch: VerifyRequest -> FetchOutcome)
    ensures WithAuth("/onboarding", env, store, fetch) == Proceed <==> CheckAuthStatus(env, store, fetch)
  {
    assert "/onboarding"[..6] != "/auth/" by { assert "/onboarding"[1] == 'o'; }
  }

  /** The preferences layout renders only for an authenticated session. */
  lemma PreferencesNeedsSession(env: Option<string>, store: CookieStore, fetch: VerifyRequest -> FetchOutcome)
    ensures WithAuth("/preferences", env, store, fetch) == Proceed <==> CheckAuthStatus(env, store, fetch)
  {
    assert "/preferences"[..6] != "/auth/" by { assert "/preferences"[1] == 'p'; }
  }
}
