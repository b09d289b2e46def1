/** The gateway server: its module-level token cache (`auth_state`), the
    authenticated request to the catalog API, and the request parameters and
    response reshaping of the three list endpoints. The upstream HTTP call
    is a foreign call: its reply is a parameter of each endpoint. */
module Gateway {
  import opened Wrappers
  import AuthModel
  import opened Catalog

  const ApiBase: string := "https://api.dev.cybershuttle.org:18899"
  /** `timedelta(hours=1)`: the lifetime given to a token taken from the environment. */
  const CacheLifetime: int := 3600
  const Unauthorized: int := 401
  const InternalError: int := 500
  /** The defaults of `list_resources(limit=10, offset=0)`. */
  const DefaultLimit: int := 10
  const DefaultOffset: int := 0

  // ---------------------------------------------------------------------
  // The token cache (`AuthState`, `get_auth_token`, `refresh_auth_token`)
  // ---------------------------------------------------------------------

  /** The fields of `AuthState`. */
  datatype Cache = Cache(token: Option<string>, expiresAt: Option<int>, refreshToken: Option<string>)

  /** `AuthState.is_token_valid()`: a token and an expiry are set and `now`
      is strictly before the expiry; there is no safety margin. */
  predicate CacheValid(c: Cache, now: int) {
    c.token.Some? && c.expiresAt.Some? && now < c.expiresAt.value
  }

  /** `refresh_auth_token()`: takes the environment token with a one-hour
      lifetime, or fails with 401 leaving the cache as it was. */
  function Refresh(c: Cache, env: Option<string>, now: int): (Cache, Result<(), int>) {
    if Truthy(env) then (c.(token := env, expiresAt := Some(now + CacheLifetime)), Ok(()))
    else (c, Err(Unauthorized))
  }

  /** `get_auth_token()`: refresh unless the cache is valid, then return a
      non-empty token or fail with 401. */
  function ResolveToken(c: Cache, env: Option<string>, now: int): (Cache, Result<string, int>) {
    var (c1, refreshed) := if CacheValid(c, now) then (c, Ok(())) else Refresh(c, env, now);
    if refreshed.Err? then (c1, Err(refreshed.error))
    else if Truthy(c1.token) then (c1, Ok(c1.token.value))
    else (c1, Err(Unauthorized))
  }

  /** The cache's validity has no margin: valid one second before expiry,
      invalid at expiry. */
  lemma CacheBoundary(token: string, expiresAt: int)
    ensures CacheValid(Cache(Some(token), Some(expiresAt), None), expiresAt - 1)
    ensures !CacheValid(Cache(Some(token), Some(expiresAt), None), expiresAt)
  {
  }

  /** A token the auth helper still uses is valid for the gateway cache too:
      the helper's margin only makes it stricter. */
  lemma HelperStricterThanCache(token: Option<string>, expiresAt: Option<int>, refreshToken: Option<string>, now: int)
    requires AuthModel.Usable(token, expiresAt, now)
    ensures CacheValid(Cache(token, expiresAt, refreshToken), now)
  {
  }

  /** A refresh from the environment is valid for exactly one hour. */
  lemma RefreshValidForAnHour(c: Cache, env: Option<string>, now: int, t: int)
    requires Truthy(env)
    ensures CacheValid(Refresh(c, env, now).0, t) <==> t < now + CacheLifetime
  {
  }

  /** `get_auth_token` never yields an empty token, and fails only with 401. */
  lemma ResolvedTokenNonEmpty(c: Cache, env: Option<string>, now: int)
    ensures var (_, r) := ResolveToken(c, env, now);
      (r.Ok? ==> r.value != "") && (r.Err? ==> r.error == Unauthorized)
  {
  }

  /** A valid cached token is returned without consulting the environment. */
  lemma ValidCacheIgnoresEnv(c: Cache, env: Option<string>, now: int)
    requires CacheValid(c, now) && c.token.value != ""
    ensures ResolveToken(c, env, now) == (c, Ok(c.token.value))
  {
  }

  /** With an invalid cache the environment decides: its token, or 401 with
      the cache unchanged. */
  lemma InvalidCacheUsesEnv(c: Cache, env: Option<string>, now: int)
    requires !CacheValid(c, now)
    ensures Truthy(env) ==>
      ResolveToken(c, env, now) == (c.(token := env, expiresAt := Some(now + CacheLifetime)), Ok(env.value))
    ensures !Truthy(env) ==> ResolveToken(c, env, now) == (c, Err(Unauthorized))
  {
  }

  /** The module-level `auth_state` singleton. */
  class AuthCache {
    var token: Option<string>
    var tokenExpiresAt: Option<int>
    var refreshToken: Option<string>

    constructor ()
      ensures Model() == Cache(None, None, None)
    {
      token, tokenExpiresAt, refreshToken := None, None, None;
    }

    function Model(): Cache
      reads this
    {
      Cache(token, tokenExpiresAt, refreshToken)
    }

    /** `is_token_valid()`. */
    predicate IsTokenValid(now: int)
      reads this
    {
      CacheValid(Model(), now)
    }

    /** `refresh_auth_token()`; `Err(401)` stands for the raised HTTPException. */
    method RefreshAuthToken(env: Option<string>, now: int) returns (r: Result<(), int>)
      modifies this
      ensures (Model(), r) == Refresh(old(Model()), env, now)
    {
      if !Truthy(env) {
        return Err(Unauthorized);
      }
      token := env;
      tokenExpiresAt := Some(now + CacheLifetime);
      return Ok(());
    }

    /** `get_auth_token()`. */
    method GetAuthToken(env: Option<string>, now: int) returns (r: Result<string, int>)
      modifies this
      ensures (Model(), r) == ResolveToken(old(Model()), env, now)
    {
      if !IsTokenValid(now) {
        var refreshed := RefreshAuthToken(env, now);
        if refreshed.Err? {
          return Err(refreshed.error);
        }
      }
      if !Truthy(token) {
        return Err(Unauthorized);
      }
      return Ok(token.value);
    }
  }

  // ---------------------------------------------------------------------
  // The authenticated request (`make_authenticated_request`)
  // ---------------------------------------------------------------------

  /** An upstream response body: empty, JSON, or not JSON. */
  datatype Body<+B> = NoContent | Json(value: B) | NotJson

  /** An upstream reply: an HTTP response, or a connection-level failure. */
  datatype Upstream<+B> = Response(status: int, body: Body<B>) | ConnectionFailure

  /** The request sent upstream. */
  datatype Request = Request(verb: string, url: string, headers: map<string, string>, params: map<string, ParamValue>)

  /** The caller's headers with `Authorization` set to the bearer token. */
  function AuthorizedHeaders(headers: map<string, string>, token: string): (h: map<string, string>)
    ensures h.Keys == headers.Keys + {"Authorization"}
    ensures h["Authorization"] == "Bearer " + token
    ensures forall k :: k in headers && k != "Authorization" ==> h[k] == headers[k]
  {
    headers["Authorization" := "Bearer " + token]
  }

  /** What `make_authenticated_request` makes of the reply: a 4xx or 5xx
      status (`raise_for_status`) keeps its code; a connection failure or a
      body that is not JSON is a 500; an empty body is `{}` (here `None`). */
  function ReplyOutcome<B>(reply: Upstream<B>): Result<Option<B>, int> {
    match reply
    case ConnectionFailure => Err(InternalError)
    case Response(status, body) =>
      if 400 <= status < 600 then Err(status)
      else match body
        case NoContent => Ok(None)
        case Json(v) => Ok(Some(v))
        case NotJson => Err(InternalError)
  }

  /** Upstream HTTP errors keep their status; only connection-level and
      decoding failures become 500; every success is passed through. */
  lemma ReplyOutcomeCases<B>(reply: Upstream<B>)
    ensures reply.Response? && 400 <= reply.status < 600 ==> ReplyOutcome(reply) == Err(reply.status)
    ensures reply.ConnectionFailure? ==> ReplyOutcome(reply) == Err(InternalError)
    ensures ReplyOutcome(reply).Err? ==>
      (ReplyOutcome(reply).error == InternalError
       || (reply.Response? && ReplyOutcome(reply).error == reply.status && 400 <= reply.status < 600))
    ensures ReplyOutcome(reply).Ok? ==> reply.Response? && (ReplyOutcome(reply).value.None? <==> reply.body.NoContent?)
    ensures reply.Response? && !(400 <= reply.status < 600) ==>
      && (reply.body.NoContent? ==> ReplyOutcome(reply) == Ok(None))
      && (reply.body.Json? ==> ReplyOutcome(reply) == Ok(Some(reply.body.value)))
      && (reply.body.NotJson? ==> ReplyOutcome(reply) == Err(InternalError))
  {
  }

  /** `make_authenticated_request(method, endpoint, headers=..., params=...)`:
      no request is sent when no token is obtained. */
  method MakeAuthenticatedRequest<B>(cache: AuthCache, verb: string, endpoint: string,
                                     headers: map<string, string>, params: map<string, ParamValue>,
                                     env: Option<string>, now: int, reply: Upstream<B>)
    returns (sent: Option<Request>, r: Result<Option<B>, int>)
    modifies cache
    ensures var (c, t) := ResolveToken(old(cache.Model()), env, now);
      && cache.Model() == c
      && (t.Err? ==> sent == None && r == Err(t.error))
      && (t.Ok? ==> sent == Some(Request(verb, ApiBase + endpoint, AuthorizedHeaders(headers, t.value), params))
                    && r == ReplyOutcome(reply))
  {
    var token := cache.GetAuthToken(env, now);
    if token.Err? {
      return None, Err(token.error);
    }
    var h := headers;
    h := h["Authorization" := "Bearer " + token.value];
    sent := Some(Request(verb, ApiBase + endpoint, h, params));
    r := ReplyOutcome(reply);
  }

  // ---------------------------------------------------------------------
  // Stringified identifiers
  // ---------------------------------------------------------------------

  /** A JSON identifier: a number or a string. */
  datatype IdValue = NumberId(n: int) | TextId(s: string)

  function DigitChar(d: nat): char
    requires d < 10
  {
    "0123456789"[d]
  }

  /** The decimal digits of `n`, as `str(n)` writes them. */
  function Digits(n: nat): (s: string)
    ensures s != []
    ensures forall i :: 0 <= i < |s| ==> '0' <= s[i] <= '9'
    ensures n > 0 ==> s[0] != '0'
  {
    if n < 10 then [DigitChar(n)] else Digits(n / 10) + [DigitChar(n % 10)]
  }

  /** Reads a string of decimal digits back as a number (`int(s)`). */
  function DigitsValue(s: string): int {
    if s == [] then 0 else DigitsValue(s[..|s| - 1]) * 10 + (s[|s| - 1] as int - '0' as int)
  }

  /** `int(s)` for an optionally signed decimal string. */
  function ParseInt(s: string): int {
    if s != [] && s[0] == '-' then -DigitsValue(s[1..]) else DigitsValue(s)
  }

  /** `str(n)` loses nothing: reading the digits back gives `n`. */
  lemma {:induction false} DigitsRoundTrip(n: nat)
    ensures DigitsValue(Digits(n)) == n
  {
    if n >= 10 {
      DigitsRoundTrip(n / 10);
      var s := Digits(n);
      assert s[..|s| - 1] == Digits(n / 10);
    }
  }

  /** `str(x)` of an identifier. */
  function IdText(id: IdValue): string {
    match id
    case TextId(s) => s
    case NumberId(n) => if n < 0 then "-" + Digits(-n) else Digits(n)
  }

  /** `str(item.get(key, ""))`. */
  function IdOrEmpty(id: Option<IdValue>): string {
    if id.Some? then IdText(id.value) else ""
  }

  /** A stringified numeric identifier reads back as the same number. */
  lemma NumberIdRoundTrip(n: int)
    ensures ParseInt(IdText(NumberId(n))) == n
  {
    var s := IdText(NumberId(n));
    if n < 0 {
      assert s[1..] == Digits(-n);
      DigitsRoundTrip(-n);
    } else {
      assert s[0] != '-';
      DigitsRoundTrip(n);
    }
  }

  /** Distinct numeric identifiers stay distinct once stringified. */
  lemma NumberIdsInjective(a: int, b: int)
    requires IdText(NumberId(a)) == IdText(NumberId(b))
    ensures a == b
  {
    NumberIdRoundTrip(a);
    NumberIdRoundTrip(b);
  }

  // ---------------------------------------------------------------------
  // `/resources`
  // ---------------------------------------------------------------------

  /** The query sent by `list_resources`: `limit` and `offset` always
      (10 and 0 when the caller omits them), and `type`, `tags` and `name`
      exactly when their argument is non-empty (`resource_type` travels as
      `type`). */
  predicate IsResourceQuery(params: map<string, ParamValue>, resourceType: Option<string>,
                            tags: Option<string>, name: Option<string>, limit: Option<int>, offset: Option<int>)
  {
    && params.Keys == {"limit", "offset"} + (if Truthy(resourceType) then {"type"} else {})
       + (if Truthy(tags) then {"tags"} else {}) + (if Truthy(name) then {"name"} else {})
    && params["limit"] == IntParam(limit.GetOr(DefaultLimit))
    && params["offset"] == IntParam(offset.GetOr(DefaultOffset))
    && (Truthy(resourceType) ==> params["type"] == TextParam(resourceType.value))
    && (Truthy(tags) ==> params["tags"] == TextParam(tags.value))
    && (Truthy(name) ==> params["name"] == TextParam(name.value))
  }

  method ResourceParams(resourceType: Option<string>, tags: Option<string>, name: Option<string>,
                        limit: Option<int>, offset: Option<int>)
    returns (params: map<string, ParamValue>)
    ensures IsResourceQuery(params, resourceType, tags, name, limit, offset)
    ensures "resource_type" !in params
  {
    params := map["limit" := IntParam(limit.GetOr(DefaultLimit)), "offset" := IntParam(offset.GetOr(DefaultOffset))];
    if Truthy(resourceType) {
      params := params["type" := TextParam(resourceType.value)];
    }
    if Truthy(tags) {
      params := params["tags" := TextParam(tags.value)];
    }
    if Truthy(name) {
      params := params["name" := TextParam(name.value)];
    }
  }

  /** One element of the upstream `content` list. */
  datatype ResourceItem = ResourceItem(
    id: Option<IdValue>, name: Option<string>, resourceType: Option<string>,
    description: Option<string>, tags: Option<seq<string>>,
    createdAt: Option<string>, updatedAt: Option<string>)

  /** The upstream page; `content` may be missing. */
  datatype ResourcePage = ResourcePage(content: Option<seq<ResourceItem>>)

  /** `ResourceResponse`. */
  datatype ResourceSummary = ResourceSummary(
    id: string, name: string, resourceType: string, description: string,
    tags: seq<string>, createdAt: Option<string>, updatedAt: Option<string>)

  /** One `ResourceResponse(...)`: missing text fields become `""`, missing
      tags `[]`, the id is stringified and `createdAt`/`updatedAt` are
      renamed. */
  function SummarizeResource(item: ResourceItem): ResourceSummary {
    ResourceSummary(IdOrEmpty(item.id), item.name.GetOr(""), item.resourceType.GetOr(""),
                    item.description.GetOr(""), item.tags.GetOr([]), item.createdAt, item.updatedAt)
  }

  /** The summaries of `content`, one per item, in order. */
  predicate ShapedResources(content: seq<ResourceItem>, out: seq<ResourceSummary>) {
    |out| == |content| && forall i :: 0 <= i < |content| ==> out[i] == SummarizeResource(content[i])
  }

  /** A present field is copied verbatim, whatever its value. */
  lemma SummaryKeepsPresentFields(item: ResourceItem)
    requires item.name.Some? && item.id.Some? && item.id.value.TextId?
    ensures SummarizeResource(item).name == item.name.value
    ensures SummarizeResource(item).id == item.id.value.s
  {
  }

  /** The transforming loop of `list_resources`. */
  method ShapeResources(content: seq<ResourceItem>) returns (resources: seq<ResourceSummary>)
    ensures ShapedResources(content, resources)
  {
    resources := [];
    for i := 0 to |content|
      invariant |resources| == i
      invariant forall j :: 0 <= j < i ==> resources[j] == SummarizeResource(content[j])
    {
      resources := resources + [SummarizeResource(content[i])];
    }
  }

  /** `result.get("content", [])`, where an empty body reads as `{}`. */
  function PageContent(page: Option<ResourcePage>): seq<ResourceItem> {
    if page.Some? then page.value.content.GetOr([]) else []
  }

  /** `GET /resources`. */
  method ListResources(cache: AuthCache, resourceType: Option<string>, tags: Option<string>,
                       name: Option<string>, limit: Option<int>, offset: Option<int>,
                       env: Option<string>, now: int, reply: Upstream<ResourcePage>)
    returns (sent: Option<Request>, r: Result<seq<ResourceSummary>, int>)
    modifies cache
    ensures var (c, t) := ResolveToken(old(cache.Model()), env, now);
      && cache.Model() == c
      && (t.Err? ==> sent == None && r == Err(t.error))
      && (t.Ok? ==> sent.Some? && sent.value.verb == "GET"
                    && sent.value.url == ApiBase + "/api/v1/rf/resources/public"
                    && sent.value.headers == AuthorizedHeaders(map[], t.value)
                    && IsResourceQuery(sent.value.params, resourceType, tags, name, limit, offset)
                    && (ReplyOutcome(reply).Err? ==> r == Err(ReplyOutcome(reply).error))
                    && (ReplyOutcome(reply).Ok? ==> r.Ok? && ShapedResources(PageContent(ReplyOutcome(reply).value), r.value)))
  {
    var params := ResourceParams(resourceType, tags, name, limit, offset);
    var result;
    sent, result := MakeAuthenticatedRequest(cache, "GET", "/api/v1/rf/resources/public", map[], params, env, now, reply);
    if result.Err? {
      return sent, Err(result.error);
    }
    var resources := ShapeResources(PageContent(result.value));
    r := Ok(resources);
  }

  // ---------------------------------------------------------------------
  // `/projects`
  // ---------------------------------------------------------------------

  datatype ProjectItem = ProjectItem(
    id: Option<IdValue>, name: Option<string>, description: Option<string>,
    ownerId: Option<IdValue>, createdAt: Option<string>, resources: Option<seq<string>>)

  /** `ProjectResponse`. */
  datatype ProjectSummary = ProjectSummary(
    id: string, name: string, description: string, ownerId: string,
    createdAt: Option<string>, resources: seq<string>)

  /** One `ProjectResponse(...)`: `ownerId` is stringified into `owner_id`. */
  function SummarizeProject(item: ProjectItem): ProjectSummary {
    ProjectSummary(IdOrEmpty(item.id), item.name.GetOr(""), item.description.GetOr(""),
                   IdOrEmpty(item.ownerId), item.createdAt, item.resources.GetOr([]))
  }

  predicate ShapedProjects(items: seq<ProjectItem>, out: seq<ProjectSummary>) {
    |out| == |items| && forall i :: 0 <= i < |items| ==> out[i] == SummarizeProject(items[i])
  }

  /** The transforming loop of `list_projects`. */
  method ShapeProjects(items: seq<ProjectItem>) returns (projects: seq<ProjectSummary>)
    ensures ShapedProjects(items, projects)
  {
    projects := [];
    for i := 0 to |items|
      invariant |projects| == i
      invariant forall j :: 0 <= j < i ==> projects[j] == SummarizeProject(items[j])
    {
      projects := projects + [SummarizeProject(items[i])];
    }
  }

  /** `GET /projects`; an empty body iterates as `{}`, giving no projects. */
  method ListProjects(cache: AuthCache, env: Option<string>, now: int, reply: Upstream<seq<ProjectItem>>)
    returns (sent: Option<Request>, r: Result<seq<ProjectSummary>, int>)
    modifies cache
    ensures var (c, t) := ResolveToken(old(cache.Model()), env, now);
      && cache.Model() == c
      && (t.Err? ==> sent == None && r == Err(t.error))
      && (t.Ok? ==> sent == Some(Request("GET", ApiBase + "/api/v1/rf/projects/", AuthorizedHeaders(map[], t.value), map[]))
                    && (ReplyOutcome(reply).Err? ==> r == Err(ReplyOutcome(reply).error))
                    && (ReplyOutcome(reply).Ok? ==> r.Ok? && ShapedProjects(ReplyOutcome(reply).value.GetOr([]), r.value)))
  {
    var result;
    sent, result := MakeAuthenticatedRequest(cache, "GET", "/api/v1/rf/projects/", map[], map[], env, now, reply);
    if result.Err? {
      return sent, Err(result.error);
    }
    var projects := ShapeProjects(result.value.GetOr([]));
    r := Ok(projects);
  }

  // ---------------------------------------------------------------------
  // `/sessions`
  // ---------------------------------------------------------------------

  /** The query of `list_sessions`: `status` exactly when one is given. */
  method SessionParams(status: Option<string>) returns (params: map<string, ParamValue>)
    ensures "status" in params <==> Truthy(status)
    ensures params.Keys <= {"status"}
    ensures Truthy(status) ==> params["status"] == TextParam(status.value)
  {
    params := map[];
    if Truthy(status) {
      params := params["status" := TextParam(status.value)];
    }
  }

  datatype SessionItem = SessionItem(
    id: Option<IdValue>, projectId: Option<IdValue>, name: Option<string>,
    status: Option<string>, createdAt: Option<string>)

  /** `SessionResponse`. */
  datatype SessionSummary = SessionSummary(
    id: string, projectId: string, name: string, status: string, createdAt: Option<string>)

  /** One `SessionResponse(...)`: `projectId` is stringified into `project_id`. */
  function SummarizeSession(item: SessionItem): SessionSummary {
    SessionSummary(IdOrEmpty(item.id), IdOrEmpty(item.projectId), item.name.GetOr(""),
                   item.status.GetOr(""), item.createdAt)
  }

  predicate ShapedSessions(items: seq<SessionItem>, out: seq<SessionSummary>) {
    |out| == |items| && forall i :: 0 <= i < |items| ==> out[i] == SummarizeSession(items[i])
  }

  /** The transforming loop of `list_sessions`. */
  method ShapeSessions(items: seq<SessionItem>) returns (sessions: seq<SessionSummary>)
    ensures ShapedSessions(items, sessions)
  {
    sessions := [];
    for i := 0 to |items|
      invariant |sessions| == i
      invariant forall j :: 0 <= j < i ==> sessions[j] == SummarizeSession(items[j])
    {
      sessions := sessions + [SummarizeSession(items[i])];
    }
  }

  /** `GET /sessions`. */
  method ListSessions(cache: AuthCache, status: Option<string>, env: Option<string>, now: int,
                      reply: Upstream<seq<SessionItem>>)
    returns (sent: Option<Request>, r: Result<seq<SessionSummary>, int>)
    modifies cache
    ensures var (c, t) := ResolveToken(old(cache.Model()), env, now);
      && cache.Model() == c
      && (t.Err? ==> sent == None && r == Err(t.error))
      && (t.Ok? ==> sent.Some? && sent.value.verb == "GET"
                    && sent.value.url == ApiBase + "/api/v1/rf/sessions/"
                    && sent.value.headers == AuthorizedHeaders(map[], t.value)
                    && ("status" in sent.value.params <==> Truthy(status))
                    && (Truthy(status) ==> sent.value.params["status"] == TextParam(status.value))
                    && sent.value.params.Keys <= {"status"}
                    && (ReplyOutcome(reply).Err? ==> r == Err(ReplyOutcome(reply).error))
                    && (ReplyOutcome(reply).Ok? ==> r.Ok? && ShapedSessions(ReplyOutcome(reply).value.GetOr([]), r.value)))
  {
    var params := SessionParams(status);
    var result;
    sent, result := MakeAuthenticatedRequest(cache, "GET", "/api/v1/rf/sessions/", map[], params, env, now, reply);
    if result.Err? {
      return sent, Err(result.error);
    }
    var sessions := ShapeSessions(result.value.GetOr([]));
    r := Ok(sessions);
  }
}
