/**
 * The role-based access middleware (middleware.ts): cookie parsing, the
 * public/static/page/API path predicates, and the decision sequence taken for
 * every request. URL decoding and JSON parsing are given as a function, and so
 * is the URI encoding of header values.
 */
module Middleware {
  import opened Wrappers
  import opened Text
  import opened AuthTypes

  // ================================================================ cookie

  /** `typeof obj.key === 'string' ? obj.key : null`. */
  function StrOrNull(j: Json, key: string): (r: Option<string>)
    ensures r.Some? <==> Field(j, key).Some? && Field(j, key).value.JStr?
  {
    match Field(j, key)
    case Some(JStr(s)) => Some(s)
    case _ => None
  }

  /**
   * parseAuthCookie, given what decodeURIComponent and JSON.parse produced
   * (`None` when either throws).
   */
  function ParseAuthCookie(data: Option<Json>): (r: Option<AuthPayload>)
    ensures r.Some? <==> data.Some? && RequiredFields(data.value).Some?
    ensures r.Some? ==> r.value.userId != [] && r.value.userName != [] && r.value.role.Text() == StrOrEmpty(data.value, "role")
    ensures r.Some? ==> r.value.center == StrOrNull(data.value, "center") && r.value.service == StrOrNull(data.value, "service")
    ensures r.Some? ==> r.value.channel == StrOrNull(data.value, "channel") && r.value.agentId == StrOrNull(data.value, "agentId")
  {
    match data
    case None => None
    case Some(j) =>
      match RequiredFields(j)
      case None => None
      case Some((userId, userName, role)) =>
        Some(AuthPayload(userId, userName, role, StrOrNull(j, "center"), StrOrNull(j, "service"),
                         StrOrNull(j, "channel"), StrOrNull(j, "agentId")))
  }

  // ================================================================ paths

  const PublicPaths: seq<string> := ["/login", "/api/health", "/api/auth", "/api/sync", "/api/sync-sheets",
                                     "/api/import-sheets-2025", "/api/import-qa", "/api/cron"]

  const CommonApiPaths: seq<string> := ["/api/data", "/api/agents", "/api/health"]

  /** The path is the prefix itself or lies below it. */
  predicate PathMatches(p: string, prefix: string) {
    p == prefix || StartsWith(p, prefix + "/")
  }

  predicate AnyPathMatches(p: string, prefixes: seq<string>) {
    exists i :: 0 <= i < |prefixes| && PathMatches(p, prefixes[i])
  }

  predicate IsPublicPath(p: string) { AnyPathMatches(p, PublicPaths) }

  predicate IsStaticAsset(p: string) {
    StartsWith(p, "/_next") || StartsWith(p, "/favicon") || '.' in p
  }

  function RoleHome(r: Role): string {
    match r
    case HqAdmin => "/"
    case Manager => "/manager"
    case Instructor => "/instructor"
    case Agent => "/mypage"
  }

  function RolePageAccess(r: Role): seq<string> {
    match r
    case HqAdmin => ["*"]
    case Instructor => ["/instructor"]
    case Manager => ["/manager"]
    case Agent => ["/mypage"]
  }

  function RoleApiAccess(r: Role): seq<string> {
    match r
    case HqAdmin => ["*"]
    case Instructor => ["/api/data", "/api/agents", "/api/coaching", "/api/watchlist", "/api/goals", "/api/reports",
                        "/api/predictions", "/api/underperforming", "/api/weekly-reports", "/api/role-metrics",
                        "/api/check-agent", "/api/mypage", "/api/notices"]
    case Manager => ["/api/data", "/api/agents", "/api/weekly-reports", "/api/underperforming", "/api/watchlist",
                     "/api/goals", "/api/role-metrics", "/api/check-agent", "/api/mypage", "/api/manager", "/api/notices"]
    case Agent => ["/api/mypage", "/api/role-metrics", "/api/coaching", "/api/check-agent"]
  }

  predicate IsPageAllowed(r: Role, p: string) {
    "*" in RolePageAccess(r) || AnyPathMatches(p, RolePageAccess(r))
  }

  predicate IsApiAllowed(r: Role, p: string) {
    AnyPathMatches(p, CommonApiPaths) || "*" in RoleApiAccess(r) || AnyPathMatches(p, RoleApiAccess(r))
  }

  /** hq_admin may open every page; any other role exactly its home prefix and what lies below it. */
  lemma PageAccessRule(r: Role, p: string)
    ensures IsPageAllowed(r, p) <==> r == HqAdmin || PathMatches(p, RoleHome(r))
  {
    if r != HqAdmin && PathMatches(p, RoleHome(r)) {
      assert PathMatches(p, RolePageAccess(r)[0]);
    }
  }

  /** A public path is one of the list or lies below one; a longer sibling name does not count. */
  lemma PublicPathExamples()
    ensures IsPublicPath("/api/auth/login")
    ensures !IsPublicPath("/api/authx")
    ensures !IsPublicPath("/manager")
  {
    AuthLoginPublic();
    AuthxNotPublic();
    ManagerNotPublic();
  }

  lemma AuthLoginPublic()
    ensures IsPublicPath("/api/auth/login")
  {
    assert PathMatches("/api/auth/login", PublicPaths[2]) by {
      assert "/api/auth/login"[..|"/api/auth/"|] == "/api/auth/";
    }
  }

  lemma AuthxNotPublic()
    ensures !IsPublicPath("/api/authx")
  {
    var q := "/api/authx";
    assert q[1] == 'a' && q[5] == 'a' && q[6] == 'u' && q[9] == 'x';
    NotPrefixAt(q, PublicPaths[0] + "/", 1);
    NotPrefixAt(q, PublicPaths[1] + "/", 5);
    NotPrefixAt(q, PublicPaths[2] + "/", 9);
    NotPrefixAt(q, PublicPaths[3] + "/", 6);
    NotPrefixAt(q, PublicPaths[4] + "/", 6);
    NotPrefixAt(q, PublicPaths[5] + "/", 5);
    NotPrefixAt(q, PublicPaths[6] + "/", 5);
    NotPrefixAt(q, PublicPaths[7] + "/", 5);
  }

  lemma ManagerNotPublic()
    ensures !IsPublicPath("/manager")
  {
    forall i | 0 <= i < |PublicPaths| ensures !PathMatches("/manager", PublicPaths[i]) {
      assert "/manager"[1] == 'm';
    }
  }

  // ================================================================ decision

  datatype Response =
    | Next                                           // pass through untouched
    | NextWithHeaders(headers: seq<(string, string)>) // pass through with these request headers set, in order
    | JsonError(status: nat)
    | Redirect(path: string, redirectParam: Option<string>)

  /** The x-user-* headers: id and role always, the others only when non-empty. */
  function UserHeaders(auth: AuthPayload, encode: string -> string): (h: seq<(string, string)>)
    ensures |h| >= 2 && h[0] == ("x-user-id", auth.userId) && h[1] == ("x-user-role", auth.role.Text())
  {
    [("x-user-id", auth.userId), ("x-user-role", auth.role.Text())]
    + Opt(Present(auth.center), "x-user-center", encode(auth.center.GetOr("")))
    + Opt(Present(auth.service), "x-user-service", encode(auth.service.GetOr("")))
    + Opt(Present(auth.channel), "x-user-channel", encode(auth.channel.GetOr("")))
    + Opt(Present(auth.agentId), "x-user-agent-id", auth.agentId.GetOr(""))
  }

  /** A field that is a non-empty string: the headers set for it are guarded by its truthiness. */
  predicate Present(o: Option<string>) { o.Some? && o.value != [] }

  /** The value of the first header with this name, if any. */
  function Lookup(h: seq<(string, string)>, name: string): (r: Option<string>)
    ensures r.None? <==> forall k :: 0 <= k < |h| ==> h[k].0 != name
    decreases |h|
  {
    if h == [] then None
    else if h[0].0 == name then Some(h[0].1)
    else
      var r := Lookup(h[1..], name);
      assert forall k :: 1 <= k < |h| ==> h[k] == h[1..][k - 1];
      r
  }

  /** The place of each x-user-* header in the order the middleware sets them. */
  function HeaderRank(name: string): nat {
    if name == "x-user-id" then 0
    else if name == "x-user-role" then 1
    else if name == "x-user-center" then 2
    else if name == "x-user-service" then 3
    else if name == "x-user-channel" then 4
    else 5
  }

  lemma LookupAppend(a: seq<(string, string)>, b: seq<(string, string)>, name: string)
    ensures Lookup(a + b, name) == if Lookup(a, name).Some? then Lookup(a, name) else Lookup(b, name)
    decreases |a|
  {
    if a == [] {
      assert a + b == b;
    } else {
      assert (a + b)[0] == a[0] && (a + b)[1..] == a[1..] + b;
      LookupAppend(a[1..], b, name);
    }
  }

  /** A header list of at most one entry. */
  function Opt(present: bool, name: string, value: string): seq<(string, string)> {
    if present then [(name, value)] else []
  }

  lemma LookupOpt(present: bool, name: string, value: string, other: string)
    ensures Lookup(Opt(present, name, value), other) == if present && name == other then Some(value) else None
  {
  }

  /**
   * The header value each x-user-* name should carry: id and role always;
   * centre, service and channel URI-encoded and agent-id raw, each only when
   * its field is a non-empty string.
   */
  function ExpectedHeader(auth: AuthPayload, encode: string -> string, name: string): Option<string> {
    if name == "x-user-id" then Some(auth.userId)
    else if name == "x-user-role" then Some(auth.role.Text())
    else if name == "x-user-center" then (if Present(auth.center) then Some(encode(auth.center.value)) else None)
    else if name == "x-user-service" then (if Present(auth.service) then Some(encode(auth.service.value)) else None)
    else if name == "x-user-channel" then (if Present(auth.channel) then Some(encode(auth.channel.value)) else None)
    else if name == "x-user-agent-id" then (if Present(auth.agentId) then Some(auth.agentId.value) else None)
    else None
  }

  lemma LookupFive(a: seq<(string, string)>, b: seq<(string, string)>, c: seq<(string, string)>,
                   d: seq<(string, string)>, e: seq<(string, string)>, n: string)
    ensures Lookup(a + b + c + d + e, n) ==
      if Lookup(a, n).Some? then Lookup(a, n) else if Lookup(b, n).Some? then Lookup(b, n)
      else if Lookup(c, n).Some? then Lookup(c, n) else if Lookup(d, n).Some? then Lookup(d, n) else Lookup(e, n)
  {
    LookupAppend(a + b + c + d, e, n);
    LookupAppend(a + b + c, d, n);
    LookupAppend(a + b, c, n);
    LookupAppend(a, b, n);
  }

  /**
   * Every header goes out with the value ExpectedHeader gives it, and no other
   * header is set; the headers come in the fixed order id, role, centre,
   * service, channel, agent-id, each name once.
   */
  lemma UserHeadersOptional(auth: AuthPayload, encode: string -> string)
    ensures var h := UserHeaders(auth, encode);
      forall n :: Lookup(h, n) == ExpectedHeader(auth, encode, n)
    ensures var h := UserHeaders(auth, encode);
      forall i, j :: 0 <= i < j < |h| ==> HeaderRank(h[i].0) < HeaderRank(h[j].0)
  {
    forall n ensures Lookup(UserHeaders(auth, encode), n) == ExpectedHeader(auth, encode, n) {
      HeaderLookup(auth, encode, n);
    }
    UserHeadersRanked([("x-user-id", auth.userId), ("x-user-role", auth.role.Text())],
      Opt(Present(auth.center), "x-user-center", encode(auth.center.GetOr(""))),
      Opt(Present(auth.service), "x-user-service", encode(auth.service.GetOr(""))),
      Opt(Present(auth.channel), "x-user-channel", encode(auth.channel.GetOr(""))),
      Opt(Present(auth.agentId), "x-user-agent-id", auth.agentId.GetOr("")));
  }

  lemma HeaderLookup(auth: AuthPayload, encode: string -> string, n: string)
    ensures Lookup(UserHeaders(auth, encode), n) == ExpectedHeader(auth, encode, n)
  {
    var base := [("x-user-id", auth.userId), ("x-user-role", auth.role.Text())];
    LookupFive(base, Opt(Present(auth.center), "x-user-center", encode(auth.center.GetOr(""))),
      Opt(Present(auth.service), "x-user-service", encode(auth.service.GetOr(""))),
      Opt(Present(auth.channel), "x-user-channel", encode(auth.channel.GetOr(""))),
      Opt(Present(auth.agentId), "x-user-agent-id", auth.agentId.GetOr("")), n);
    LookupOpt(Present(auth.center), "x-user-center", encode(auth.center.GetOr("")), n);
    LookupOpt(Present(auth.service), "x-user-service", encode(auth.service.GetOr("")), n);
    LookupOpt(Present(auth.channel), "x-user-channel", encode(auth.channel.GetOr("")), n);
    LookupOpt(Present(auth.agentId), "x-user-agent-id", auth.agentId.GetOr(""), n);
    assert Lookup(base, n) == if n == "x-user-id" then Some(auth.userId) else if n == "x-user-role" then Some(auth.role.Text()) else None;
  }

  lemma UserHeadersRanked(base: seq<(string, string)>, c: seq<(string, string)>, s: seq<(string, string)>,
                          ch: seq<(string, string)>, ag: seq<(string, string)>)
    requires |base| == 2 && HeaderRank(base[0].0) == 0 && HeaderRank(base[1].0) == 1
    requires forall k :: 0 <= k < |c| ==> HeaderRank(c[k].0) == 2
    requires forall k :: 0 <= k < |s| ==> HeaderRank(s[k].0) == 3
    requires forall k :: 0 <= k < |ch| ==> HeaderRank(ch[k].0) == 4
    requires forall k :: 0 <= k < |ag| ==> HeaderRank(ag[k].0) == 5
    requires |c| <= 1 && |s| <= 1 && |ch| <= 1 && |ag| <= 1
    ensures var h := base + c + s + ch + ag;
      forall i, j :: 0 <= i < j < |h| ==> HeaderRank(h[i].0) < HeaderRank(h[j].0)
  {
  }

  /** The authenticated user of a request: a non-empty cookie that parses. */
  function CookieAuth(cookie: Option<string>, decode: string -> Option<Json>): Option<AuthPayload> {
    if cookie.Some? && cookie.value != [] then ParseAuthCookie(decode(cookie.value)) else None
  }

  /** The middleware's decision for a request path and its qc-auth cookie. */
  function Decide(pathname: string, cookie: Option<string>, decode: string -> Option<Json>, encode: string -> string): Response {
    if IsStaticAsset(pathname) then Next
    else if IsPublicPath(pathname) then Next
    else
      match CookieAuth(cookie, decode)
      case None =>
        if StartsWith(pathname, "/api/") then JsonError(401)
        else Redirect("/login", if pathname != "/" then Some(pathname) else None)
      case Some(auth) =>
        if pathname == "/login" then Redirect(RoleHome(auth.role), None)
        else if StartsWith(pathname, "/api/") then
          if !IsApiAllowed(auth.role, pathname) then JsonError(403)
          else NextWithHeaders(UserHeaders(auth, encode))
        else if !IsPageAllowed(auth.role, pathname) then Redirect(RoleHome(auth.role), None)
        else NextWithHeaders(UserHeaders(auth, encode))
  }

  /** The decision order: static, public, unauthenticated (401 or login), forbidden API, disallowed page. */
  lemma DecisionOrder(p: string, cookie: Option<string>, decode: string -> Option<Json>, encode: string -> string)
    ensures var r := Decide(p, cookie, decode, encode);
      var auth := CookieAuth(cookie, decode);
      var open := IsStaticAsset(p) || IsPublicPath(p);
      var api := StartsWith(p, "/api/");
      (open ==> r == Next)
      && (!open && auth.None? && api ==> r == JsonError(401))
      && (!open && auth.None? && !api ==> r == Redirect("/login", if p == "/" then None else Some(p)))
      && (!open && auth.Some? && api ==> (r == JsonError(403) <==> !IsApiAllowed(auth.value.role, p)))
      && (!open && auth.Some? && !api ==> (r == Redirect(RoleHome(auth.value.role), None) <==> !IsPageAllowed(auth.value.role, p)))
  {
    PublicLogin();
  }

  lemma PublicLogin()
    ensures IsPublicPath("/login") && !StartsWith("/login", "/api/")
  {
    assert PathMatches("/login", PublicPaths[0]);
    assert "/login"[1] == 'l';
    NotPrefixAt("/login", "/api/", 1);
  }

  /** A string with a different character at position k does not start with t. */
  lemma NotPrefixAt(s: string, t: string, k: nat)
    requires k < |s| && k < |t| && s[k] != t[k]
    ensures !StartsWith(s, t)
  {
  }

  /** "/login" always passes at the public-path step, so the home redirect for a signed-in user on it never fires. */
  lemma LoginAlwaysPasses(cookie: Option<string>, decode: string -> Option<Json>, encode: string -> string)
    ensures Decide("/login", cookie, decode, encode) == Next
  {
    PublicLogin();
  }

  /** A request reaches a handler with user headers only for a signed-in user whose role allows the path. */
  lemma HeadersOnlyWhenAllowed(p: string, cookie: Option<string>, decode: string -> Option<Json>, encode: string -> string)
    ensures var r := Decide(p, cookie, decode, encode);
      r.NextWithHeaders? ==>
        CookieAuth(cookie, decode).Some?
        && r.headers == UserHeaders(CookieAuth(cookie, decode).value, encode)
        && (StartsWith(p, "/api/") ==> IsApiAllowed(CookieAuth(cookie, decode).value.role, p))
        && (!StartsWith(p, "/api/") ==> IsPageAllowed(CookieAuth(cookie, decode).value.role, p))
  {
    var auth := CookieAuth(cookie, decode);
    if !IsStaticAsset(p) && !IsPublicPath(p) && auth.Some? && p != "/login" {
      var api := StartsWith(p, "/api/");
      var role := auth.value.role;
      assert Decide(p, cookie, decode, encode) ==
        (if api then (if !IsApiAllowed(role, p) then JsonError(403) else NextWithHeaders(UserHeaders(auth.value, encode)))
         else if !IsPageAllowed(role, p) then Redirect(RoleHome(role), None) else NextWithHeaders(UserHeaders(auth.value, encode)));
    }
  }

  /** Any path containing '.' counts as a static asset and passes without a cookie, under /api/ as well. */
  lemma DottedPathsPassUnchecked(p: string, cookie: Option<string>, decode: string -> Option<Json>, encode: string -> string)
    requires '.' in p
    ensures Decide(p, cookie, decode, encode) == Next
  {
  }
}
