/**
 * Server-side authentication for API handlers (lib/auth-server.ts): payload
 * parsing with identifier sanitising, cookie-then-Bearer lookup, the 401/403
 * guards and the row-level scope filter appended to BigQuery queries.
 * decodeURIComponent + JSON.parse and atob are given as functions returning
 * `None` where they throw.
 */
module AuthServer {
  import opened Wrappers
  import opened Text
  import opened AuthTypes
  import Middleware

  // ================================================================ sanitising

  /** A character matched by `[\w가-힣.\-\s/]` (no `u` flag, so `\w` is ASCII only). */
  predicate IsSqlSafeChar(c: char) {
    ('a' <= c <= 'z') || ('A' <= c <= 'Z') || ('0' <= c <= '9') || c == '_'
    || ('\U{AC00}' <= c <= '\U{D7A3}') || c == '.' || c == '-' || IsJsSpace(c) || c == '/'
  }

  predicate AllSqlSafe(s: string) {
    forall k :: 0 <= k < |s| ==> IsSqlSafeChar(s[k])
  }

  /** `value.replace(/[^…]/g, '')`: the safe characters of `s`, in order. */
  function KeepSqlSafe(s: string): (r: string)
    ensures |r| <= |s| && AllSqlSafe(r)
  {
    if s == [] then [] else (if IsSqlSafeChar(s[0]) then [s[0]] else []) + KeepSqlSafe(s[1..])
  }

  /** Nothing is removed from a string that is already safe. */
  lemma {:induction false} KeepSqlSafeOfSafe(s: string)
    requires AllSqlSafe(s)
    ensures KeepSqlSafe(s) == s
  {
    if s != [] {
      KeepSqlSafeOfSafe(s[1..]);
    }
  }

  /** No quote, semicolon or backslash is a safe character. */
  lemma SafeHasNoQuote(s: string)
    requires AllSqlSafe(s)
    ensures '\'' !in s && '"' !in s && ';' !in s && '\\' !in s
  {
  }

  /** Trimming keeps a string within the safe characters. */
  lemma TrimOfSafe(s: string)
    requires AllSqlSafe(s)
    ensures AllSqlSafe(Trim(s))
  {
    var r := Trim(s);
    assert forall k :: 0 <= k < |r| ==> r[k] == s[LeadCount(s, IsJsSpace) + k];
  }

  /** sanitizeSqlValue: unsafe characters removed, then JavaScript's trim. */
  function SanitizeSqlValue(value: string): (r: string)
    ensures AllSqlSafe(r) && '\'' !in r && '"' !in r && ';' !in r && '\\' !in r
    ensures r == [] || (!IsJsSpace(r[0]) && !IsJsSpace(r[|r| - 1]))
    ensures |r| <= |value|
  {
    var kept := KeepSqlSafe(value);
    TrimOfSafe(kept);
    SafeHasNoQuote(Trim(kept));
    Trim(kept)
  }

  /** Sanitising twice is sanitising once. */
  lemma SanitizeSqlValueIdempotent(value: string)
    ensures SanitizeSqlValue(SanitizeSqlValue(value)) == SanitizeSqlValue(value)
  {
    var s := SanitizeSqlValue(value);
    KeepSqlSafeOfSafe(s);
    TrimByOfTrimmed(s, IsJsSpace);
  }

  /** A safe, trimmed string passes unchanged. */
  lemma SanitizeSqlValueOfClean(s: string)
    requires AllSqlSafe(s) && (s == [] || (!IsJsSpace(s[0]) && !IsJsSpace(s[|s| - 1])))
    ensures SanitizeSqlValue(s) == s
  {
    KeepSqlSafeOfSafe(s);
    TrimByOfTrimmed(s, IsJsSpace);
  }

  /** sanitizeIdentifier on a `string | null`: a falsy input or a result that is empty or over 100 long gives null. */
  function SanitizeIdentifier(value: Option<string>): (r: Option<string>)
    ensures r.Some? <==> value.Some? && 0 < |SanitizeSqlValue(value.value)| <= 100
    ensures r.Some? ==> r.value == SanitizeSqlValue(value.value)
  {
    if value.None? || value.value == [] then None
    else
      var cleaned := SanitizeSqlValue(value.value);
      if |cleaned| == 0 || |cleaned| > 100 then None else Some(cleaned)
  }

  /** What sanitizeIdentifier returns may be sanitised again without change. */
  lemma SanitizeIdentifierIdempotent(value: Option<string>)
    requires SanitizeIdentifier(value).Some?
    ensures SanitizeIdentifier(SanitizeIdentifier(value)) == SanitizeIdentifier(value)
  {
    SanitizeSqlValueIdempotent(value.value);
  }

  /**
   * `sanitizeIdentifier(obj.key as string | null)` on an arbitrary JSON value:
   * `None` when it throws (a truthy non-string has no `.replace`), otherwise
   * the sanitised value or null.
   */
  function SanitizeJsonField(v: Option<Json>): (r: Option<Option<string>>)
    ensures r.None? <==> Truthy(v) && !v.value.JStr?
    ensures v.Some? && v.value.JStr? ==> r == Some(SanitizeIdentifier(Some(v.value.s)))
  {
    if !Truthy(v) then Some(None)
    else if v.value.JStr? then Some(SanitizeIdentifier(Some(v.value.s)))
    else None
  }

  /** An identifier field as the parser leaves it: null, or a safe trimmed string of 1 to 100 characters. */
  predicate CleanIdentifier(f: Option<string>) {
    f.Some? ==> 0 < |f.value| <= 100 && SanitizeSqlValue(f.value) == f.value
  }

  // ================================================================ payloads

  /** A field that makes parseAuthPayload throw, which it turns into null. */
  predicate Throws(j: Json, key: string) {
    SanitizeJsonField(Field(j, key)).None?
  }

  /** parseAuthPayload, given the outcome of decodeURIComponent + JSON.parse. */
  function ParseAuthPayload(data: Option<Json>): (r: Option<AuthPayload>)
    ensures r.Some? <==>
      (data.Some? && RequiredFields(data.value).Some?
       && !Throws(data.value, "center") && !Throws(data.value, "service")
       && !Throws(data.value, "channel") && !Throws(data.value, "agentId"))
    ensures r.Some? ==>
      r.value.userId != [] && r.value.userName != [] && r.value.role.Text() == StrOrEmpty(data.value, "role")
    ensures r.Some? ==>
      CleanIdentifier(r.value.center) && CleanIdentifier(r.value.service)
      && CleanIdentifier(r.value.channel) && CleanIdentifier(r.value.agentId)
  {
    match data
    case None => None
    case Some(j) =>
      match RequiredFields(j)
      case None => None
      case Some((userId, userName, role)) =>
        var center := SanitizeJsonField(Field(j, "center"));
        var service := SanitizeJsonField(Field(j, "service"));
        var channel := SanitizeJsonField(Field(j, "channel"));
        var agentId := SanitizeJsonField(Field(j, "agentId"));
        if center.None? || service.None? || channel.None? || agentId.None? then None
        else
          CleanField(Field(j, "center"));
          CleanField(Field(j, "service"));
          CleanField(Field(j, "channel"));
          CleanField(Field(j, "agentId"));
          Some(AuthPayload(userId, userName, role, center.value, service.value, channel.value, agentId.value))
  }

  lemma CleanField(v: Option<Json>)
    requires SanitizeJsonField(v).Some?
    ensures CleanIdentifier(SanitizeJsonField(v).value)
  {
    if SanitizeJsonField(v).value.Some? {
      SanitizeSqlValueIdempotent(v.value.s);
    }
  }

  /**
   * Every payload the server accepts, the middleware accepts as well, with the
   * same user, name and role; the optional fields agree whenever they were
   * already clean strings.
   */
  lemma ServerAcceptsOnlyWhatMiddlewareAccepts(data: Option<Json>)
    requires ParseAuthPayload(data).Some?
    ensures Middleware.ParseAuthCookie(data).Some?
    ensures var s := ParseAuthPayload(data).value;
      var m := Middleware.ParseAuthCookie(data).value;
      s.userId == m.userId && s.userName == m.userName && s.role == m.role
  {
  }

  /** A non-empty qc-auth cookie whose payload parses. */
  predicate CookieWins(cookie: Option<string>, decodeParse: string -> Option<Json>) {
    cookie.Some? && cookie.value != [] && ParseAuthPayload(decodeParse(cookie.value)).Some?
  }

  /** An `authorization` header "Bearer <token>" whose token base64-decodes. */
  predicate BearerDecodes(authorization: Option<string>, atob: string -> Option<string>) {
    authorization.Some? && StartsWith(authorization.value, "Bearer ") && atob(authorization.value[7..]).Some?
  }

  /**
   * getServerAuth: the qc-auth cookie when it is non-empty and parses, otherwise
   * an `authorization` header "Bearer <base64>" whose decoded text parses.
   */
  function GetServerAuth(cookie: Option<string>, authorization: Option<string>,
                         decodeParse: string -> Option<Json>, atob: string -> Option<string>): (r: Option<AuthPayload>)
    ensures CookieWins(cookie, decodeParse) ==> r == ParseAuthPayload(decodeParse(cookie.value))
    ensures !CookieWins(cookie, decodeParse) && BearerDecodes(authorization, atob) ==>
      r == ParseAuthPayload(decodeParse(atob(authorization.value[7..]).value))
    ensures !CookieWins(cookie, decodeParse) && !BearerDecodes(authorization, atob) ==> r.None?
  {
    var fromCookie := if cookie.Some? && cookie.value != [] then ParseAuthPayload(decodeParse(cookie.value)) else None;
    if fromCookie.Some? then fromCookie
    else if authorization.Some? && StartsWith(authorization.value, "Bearer ") then
      match atob(authorization.value[7..])
      case None => None
      case Some(decoded) => ParseAuthPayload(decodeParse(decoded))
    else None
  }

  // ================================================================ guards

  /** A handler's guard outcome: the value, or an AuthError with its HTTP status. */
  datatype Guarded<T> = Granted(value: T) | Denied(statusCode: nat)

  function RequireAuth(auth: Option<AuthPayload>): (r: Guarded<AuthPayload>)
    ensures r.Denied? <==> auth.None?
    ensures r.Denied? ==> r.statusCode == 401
    ensures r.Granted? ==> r.value == auth.value
  {
    if auth.None? then Denied(401) else Granted(auth.value)
  }

  function RequireRole(auth: AuthPayload, roles: seq<Role>): (r: Guarded<AuthPayload>)
    ensures r.Granted? <==> auth.role in roles
    ensures r.Denied? ==> r.statusCode == 403
    ensures r.Granted? ==> r.value == auth
  {
    if auth.role in roles then Granted(auth) else Denied(403)
  }

  /** Authentication is checked before the role: no cookie is 401 whatever roles are asked for. */
  lemma GuardOrder(auth: Option<AuthPayload>, roles: seq<Role>)
    ensures var g := match RequireAuth(auth)
                     case Denied(s) => Denied(s)
                     case Granted(a) => RequireRole(a, roles);
      (auth.None? ==> g == Denied(401))
      && (auth.Some? ==> (g == Granted(auth.value) <==> auth.value.role in roles))
      && (auth.Some? && auth.value.role !in roles ==> g == Denied(403))
  {
  }

  // ================================================================ scope filter

  /** `s.replace(/'/g, "\\'")`. */
  function EscapeQuotes(s: string): (r: string)
    ensures '\'' !in s ==> r == s
  {
    if s == [] then []
    else (if s[0] == '\'' then "\\'" else [s[0]]) + EscapeQuotes(s[1..])
  }

  /** The fragment ` AND <alias>.<column> = '<value>'`. */
  function Equals(alias: string, column: string, value: string): string {
    " AND " + alias + "." + column + " = '" + value + "'"
  }

  /** getScopeFilter: the WHERE fragment that keeps a user to their own rows. */
  function GetScopeFilter(auth: AuthPayload, alias: string): (r: string)
    ensures auth.role == HqAdmin ==> r == ""
    ensures auth.role in {Instructor, Manager} ==>
      (r == "" <==> SanitizeIdentifier(auth.center).None?)
      && (SanitizeIdentifier(auth.center).Some? ==> r == Equals(alias, "center", SanitizeIdentifier(auth.center).value))
    ensures auth.role == Agent ==>
      (r == "" <==> SanitizeIdentifier(auth.agentId).None?)
      && (SanitizeIdentifier(auth.agentId).Some? ==> r == Equals(alias, "agent_id", SanitizeIdentifier(auth.agentId).value))
  {
    match auth.role
    case HqAdmin => ""
    case Instructor | Manager =>
      var center := SanitizeIdentifier(auth.center);
      if center.None? then "" else Equals(alias, "center", EscapeQuotes(center.value))
    case Agent =>
      var agentId := SanitizeIdentifier(auth.agentId);
      if agentId.None? then "" else Equals(alias, "agent_id", EscapeQuotes(agentId.value))
  }

  /** The quoted literal of a scope filter holds no quote or backslash, so it cannot end the literal early. */
  lemma ScopeLiteralClosed(auth: AuthPayload, alias: string)
    ensures var r := GetScopeFilter(auth, alias);
      r == "" || exists v, column :: r == Equals(alias, column, v) && '\'' !in v && '\\' !in v && AllSqlSafe(v)
  {
    var v, column := ScopeLiteral(auth, alias);
  }

  /** The column and the literal of a non-empty scope filter. */
  lemma ScopeLiteral(auth: AuthPayload, alias: string) returns (v: string, column: string)
    ensures var r := GetScopeFilter(auth, alias);
      r != "" ==> r == Equals(alias, column, v) && '\'' !in v && '\\' !in v && AllSqlSafe(v)
  {
    if auth.role in {Instructor, Manager} && SanitizeIdentifier(auth.center).Some? {
      v, column := SanitizeIdentifier(auth.center).value, "center";
    } else if auth.role == Agent && SanitizeIdentifier(auth.agentId).Some? {
      v, column := SanitizeIdentifier(auth.agentId).value, "agent_id";
    } else {
      v, column := "", "";
    }
  }

  /** A field the parser left clean passes sanitizeIdentifier unchanged. */
  lemma IdentifierOfClean(f: Option<string>)
    requires CleanIdentifier(f)
    ensures SanitizeIdentifier(f) == f
  {
  }

  /** For a payload the parser built, the filter quotes the stored center or agent id as it is. */
  lemma ScopeFilterOfParsed(data: Option<Json>, alias: string)
    requires ParseAuthPayload(data).Some?
    ensures var a := ParseAuthPayload(data).value;
      (a.role in {Instructor, Manager} && a.center.Some? ==> GetScopeFilter(a, alias) == Equals(alias, "center", a.center.value))
      && (a.role in {Instructor, Manager} && a.center.None? ==> GetScopeFilter(a, alias) == "")
      && (a.role == Agent && a.agentId.Some? ==> GetScopeFilter(a, alias) == Equals(alias, "agent_id", a.agentId.value))
      && (a.role == Agent && a.agentId.None? ==> GetScopeFilter(a, alias) == "")
  {
    var a := ParseAuthPayload(data).value;
    IdentifierOfClean(a.center);
    IdentifierOfClean(a.agentId);
  }
}
