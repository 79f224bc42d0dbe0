/** The Next.js middleware (src/middleware.ts): it recognises the public
    routes, but lets every matched request through either way. */
module Middleware {

  const PublicRoutes: seq<string> := ["/login", "/register"]

  /** `Array.prototype.includes` on strings: exact membership. */
  function Includes(xs: seq<string>, x: string): (r: bool)
    ensures r <==> x in xs
  {
    if xs == [] then false else xs[0] == x || Includes(xs[1..], x)
  }

  /** `publicRoutes.includes(pathname)`: only the two exact paths. */
  function IsPublicRoute(pathname: string): (r: bool)
    ensures r <==> pathname == "/login" || pathname == "/register"
  {
    Includes(PublicRoutes, pathname)
  }

  /** What a middleware can answer; this one only ever continues. */
  datatype Response = PassThrough | Redirect(location: string)

  /** Both branches return `NextResponse.next()`. */
  function Handle(pathname: string): (r: Response)
    ensures r == PassThrough
  {
    if IsPublicRoute(pathname) then PassThrough else PassThrough
  }

  /** No prefix matching: paths below or beside a public route are not public. */
  lemma PublicRouteIsExact()
    ensures !IsPublicRoute("/login/") && !IsPublicRoute("/loginx") && !IsPublicRoute("/register/doctor")
    ensures !IsPublicRoute("/") && !IsPublicRoute("")
  {
  }

  predicate StartsWith(s: string, prefix: string)
  {
    |prefix| <= |s| && s[..|prefix|] == prefix
  }

  /** The negative lookahead `(?!api|_next/static|_next/image|favicon.ico)`;
      the unescaped `.` in `favicon.ico` matches any character but a line terminator. */
  predicate ExcludedStart(rest: string)
  {
    StartsWith(rest, "api")
    || StartsWith(rest, "_next/static")
    || StartsWith(rest, "_next/image")
    || (|rest| >= 11 && rest[..7] == "favicon" && !IsLineTerminator(rest[7]) && rest[8..11] == "ico")
  }

  predicate IsLineTerminator(c: char)
  {
    c == '\n' || c == '\r' || c == '\U{2028}' || c == '\U{2029}'
  }

  /** `config.matcher`: `/((?!api|_next/static|_next/image|favicon.ico).*)`
      over the whole pathname. */
  predicate Matched(pathname: string)
  {
    |pathname| >= 1 && pathname[0] == '/' && !ExcludedStart(pathname[1..])
    && forall i :: 1 <= i < |pathname| ==> !IsLineTerminator(pathname[i])
  }

  /** A path whose first character after '/' begins none of the excluded prefixes. */
  lemma StartNotExcluded(rest: string)
    requires rest == [] || (rest[0] != 'a' && rest[0] != '_' && rest[0] != 'f')
    ensures !ExcludedStart(rest)
  {
  }

  /** A path of plain characters whose first segment starts with none of `a`, `_`, `f`
      runs the middleware. */
  lemma PlainPathMatched(pathname: string)
    requires |pathname| >= 1 && pathname[0] == '/'
    requires |pathname| == 1 || (pathname[1] != 'a' && pathname[1] != '_' && pathname[1] != 'f')
    requires forall i :: 1 <= i < |pathname| ==> 'a' <= pathname[i] <= 'z' || pathname[i] == '/'
    ensures Matched(pathname)
  {
    StartNotExcluded(pathname[1..]);
  }

  /** Application pages run the middleware. */
  lemma MatcherIncludesPages()
    ensures Matched("/login") && Matched("/register") && Matched("/doctor/dashboard") && Matched("/")
  {
    PlainPathMatched("/login");
    PlainPathMatched("/register");
    PlainPathMatched("/doctor/dashboard");
    PlainPathMatched("/");
  }

  /** API routes, build assets and the icon do not. */
  lemma MatcherExcludesAssets()
    ensures !Matched("/api/v1/doctors") && !Matched("/_next/static/chunk.js")
    ensures !Matched("/_next/image") && !Matched("/favicon.ico")
  {
    assert "/api/v1/doctors"[1..][..3] == "api";
    assert "/_next/static/chunk.js"[1..][..12] == "_next/static";
    assert "/_next/image"[1..][..11] == "_next/image";
    assert "/favicon.ico"[1..][..7] == "favicon" && "/favicon.ico"[1..][8..11] == "ico";
  }

  /** Every path under an excluded prefix is excluded, whatever follows it. */
  lemma ExcludedPrefixes(rest: string)
    ensures !Matched("/api" + rest) && !Matched("/_next/static" + rest)
    ensures !Matched("/_next/image" + rest) && !Matched("/favicon.ico" + rest)
  {
    assert ("/api" + rest)[1..][..3] == "api";
    assert ("/_next/static" + rest)[1..][..12] == "_next/static";
    assert ("/_next/image" + rest)[1..][..11] == "_next/image";
    assert ("/favicon.ico" + rest)[1..][..7] == "favicon" && ("/favicon.ico" + rest)[1..][8..11] == "ico";
    assert ("/favicon.ico" + rest)[1..][7] == '.';
  }

  /** The exclusions are prefixes, and the `.` is a wildcard: `/apiary` and
      `/favicon-ico` are excluded as well. */
  lemma MatcherExclusionsArePrefixes()
    ensures !Matched("/apiary") && !Matched("/favicon-ico")
  {
    assert "/apiary"[1..][..3] == "api";
    assert "/favicon-ico"[1..][..7] == "favicon" && "/favicon-ico"[1..][8..11] == "ico";
    assert !IsLineTerminator("/favicon-ico"[1..][7]);
  }
}
