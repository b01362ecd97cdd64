/**
 * Route authorization (src/middleware.ts). The `authorized` callback decides
 * from the path and whether a session token exists; a refused request is sent
 * to the sign-in page; an accepted one runs the middleware function, which
 * sends a signed-in visitor of the login page `/` on to `/upload`. All of this
 * runs only for the paths of `config.matcher`.
 */
module Middleware {

  /** `path.startsWith(prefix)`. */
  predicate StartsWith(path: string, prefix: string) {
    prefix <= path
  }

  /** The routes the callback guards. */
  predicate Protected(path: string) {
    StartsWith(path, "/upload") || StartsWith(path, "/checkout")
  }

  /** The `authorized` callback: it refuses exactly the guarded routes asked for without a token. */
  function Authorized(path: string, hasToken: bool): (r: bool)
    ensures r <==> hasToken || !Protected(path)
    ensures path == "/" ==> r
  {
    if path == "/" then true
    else if Protected(path) then hasToken
    else true
  }

  /** What happens to a request: it proceeds, is redirected, or is sent to sign in. */
  datatype Action = Next | Redirect(location: string) | ToSignIn

  /** The middleware function, run for an authorized request: it never sends to sign in. */
  function Middleware(path: string, hasToken: bool): (r: Action)
    ensures r != ToSignIn
    ensures r.Redirect? <==> hasToken && path == "/"
    ensures r.Redirect? ==> r.location == "/upload"
  {
    if hasToken && path == "/" then Redirect("/upload") else Next
  }

  /** `config.matcher`: the only paths the middleware runs for. */
  const Matcher: seq<string> := ["/upload", "/checkout", "/"]

  /** The whole gate a request meets. */
  function Gate(path: string, hasToken: bool): (r: Action)
    ensures r == ToSignIn <==> path in Matcher && Protected(path) && !hasToken
    ensures r.Redirect? <==> path == "/" && hasToken
    ensures r.Redirect? ==> r.location == "/upload"
  {
    if path !in Matcher then Next
    else if !Authorized(path, hasToken) then ToSignIn
    else Middleware(path, hasToken)
  }

  /** The gate on each matched path. */
  lemma GateTable(hasToken: bool)
    ensures Gate("/", hasToken) == if hasToken then Redirect("/upload") else Next
    ensures Gate("/upload", hasToken) == if hasToken then Next else ToSignIn
    ensures Gate("/checkout", hasToken) == if hasToken then Next else ToSignIn
  {
  }

  /** A redirect leads to a page the same visitor is let through to: there is no redirect loop. */
  lemma RedirectSettles(path: string)
    requires Gate(path, true).Redirect?
    ensures Gate(Gate(path, true).location, true) == Next
  {
  }

  /** Paths outside the matcher, `/upload/x` among them, pass without any check. */
  lemma UnmatchedPathsPass(path: string, hasToken: bool)
    requires path !in Matcher
    ensures Gate(path, hasToken) == Next
  {
  }

}
