/**
 * Types shared by the request middleware (middleware.ts) and the server-side
 * auth helpers (lib/auth-server.ts): the four roles, a parsed JSON value, and
 * the authenticated user's context.
 */
module AuthTypes {
  import opened Wrappers
  import opened Text

  datatype Role = HqAdmin | Manager | Instructor | Agent {
    function Text(): string {
      match this
      case HqAdmin => "hq_admin"
      case Manager => "manager"
      case Instructor => "instructor"
      case Agent => "agent"
    }
  }

  /** VALID_ROLES.has(s): a role is recognised only by its exact text. */
  function ParseRole(s: string): (r: Option<Role>)
    ensures r.Some? ==> r.value.Text() == s
    ensures forall role: Role :: role.Text() == s ==> r == Some(role)
  {
    if s == "hq_admin" then Some(HqAdmin)
    else if s == "manager" then Some(Manager)
    else if s == "instructor" then Some(Instructor)
    else if s == "agent" then Some(Agent)
    else None
  }

  lemma RoleTextInjective(a: Role, b: Role)
    ensures a.Text() == b.Text() ==> a == b
  {
  }

  /** A value as JSON.parse returns it (NaN and the number details are not modelled). */
  datatype Json = JNull | JBool(b: bool) | JNum(n: real) | JStr(s: string) | JArr(items: seq<Json>) | JObj(fields: map<string, Json>)

  /** `obj.key`: `None` is undefined (also for every key of a non-object). */
  function Field(j: Json, key: string): Option<Json> {
    if j.JObj? && key in j.fields then Some(j.fields[key]) else None
  }

  /** JavaScript truthiness of a possibly undefined value. */
  predicate Truthy(v: Option<Json>) {
    match v
    case None => false
    case Some(JNull) => false
    case Some(JBool(b)) => b
    case Some(JNum(n)) => n != 0.0
    case Some(JStr(s)) => s != []
    case Some(_) => true
  }

  /** `typeof obj.key === 'string' ? obj.key : ''`. */
  function StrOrEmpty(j: Json, key: string): string {
    match Field(j, key)
    case Some(JStr(s)) => s
    case _ => ""
  }

  /** The authenticated user, as both modules build it. */
  datatype AuthPayload = AuthPayload(
    userId: string, userName: string, role: Role,
    center: Option<string>, service: Option<string>, channel: Option<string>, agentId: Option<string>)

  /** What both parsers demand: an object with non-blank trimmed id and name and a known role. */
  function RequiredFields(data: Json): (r: Option<(string, string, Role)>)
    ensures r.Some? ==> r.value.0 != [] && r.value.1 != [] && data.JObj?
    ensures r.Some? ==> r.value.0 == Trim(StrOrEmpty(data, "userId")) && r.value.1 == Trim(StrOrEmpty(data, "userName"))
    ensures r.Some? ==> r.value.2.Text() == StrOrEmpty(data, "role")
    ensures r.None? <==>
      ((!data.JObj? && !data.JArr?)
       || Trim(StrOrEmpty(data, "userId")) == [] || Trim(StrOrEmpty(data, "userName")) == []
       || ParseRole(StrOrEmpty(data, "role")).None?)
  {
    // `!data || typeof data !== 'object'`: only objects and arrays get past; arrays have no such fields.
    if !data.JObj? && !data.JArr? then None
    else
      var userId := Trim(StrOrEmpty(data, "userId"));
      var userName := Trim(StrOrEmpty(data, "userName"));
      var role := ParseRole(StrOrEmpty(data, "role"));
      if userId == [] || userName == [] || role.None? then None
      else Some((userId, userName, role.value))
  }
}
