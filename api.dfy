/**
 * src/api.js: tenant resolution and the request context every remote call carries.
 *
 * The browser's localStorage is the class LocalStorage; the functions below read a snapshot of its
 * items, so that they stay pure as in the source. The build-time VITE_TENANT_SLUG and the page's
 * host name are the environment Env.
 */
module Api {
  import opened Wrappers
  import opened Strings

  const TokenKey := "crm_token"
  const TenantIdKey := "crm_tenant_id"
  const TenantSlugKey := "crm_tenant_slug"

  const ContentType := "Content-Type"
  const Authorization := "Authorization"
  const TenantIdHeader := "X-Tenant-ID"
  const TenantSlugHeader := "X-Tenant-Slug"
  const RequestFailed := "Request failed"

  /** localStorage: the durable key/value store shared by every part of the client. */
  class LocalStorage {
    var items: map<string, string>

    constructor (initial: map<string, string>)
      ensures items == initial
    {
      items := initial;
    }

    method SetItem(key: string, value: string)
      modifies this
      ensures items == old(items)[key := value]
    {
      items := items[key := value];
    }

    method RemoveItem(key: string)
      modifies this
      ensures items == old(items) - {key}
    {
      items := items - {key};
    }
  }

  /**
   * What the client reads from its deployment: VITE_TENANT_SLUG (None when unset) and
   * window.location.hostname (None when there is no window).
   */
  datatype Env = Env(tenantSlug: Option<string>, host: Option<string>)

  /** localStorage.getItem on a snapshot: null (None) for a key that is not stored. */
  function GetItem(items: map<string, string>, key: string): Option<string>
  {
    if key in items then Some(items[key]) else None
  }

  /** JavaScript truthiness of a string that may be null: present and not empty. */
  predicate Truthy(v: Option<string>) {
    v.Some? && v.value != ""
  }

  function GetToken(items: map<string, string>): Option<string>
  {
    GetItem(items, TokenKey)
  }

  /** The slug a host name yields: its leftmost label, for non-local hosts of three labels or more. */
  function HostSlug(host: Option<string>): Option<string>
  {
    if host.None? then None
    else if host.value == "" || host.value == "localhost" || host.value == "127.0.0.1" then None
    else
      var parts := Split(host.value, '.');
      if |parts| < 3 then None else Some(parts[0])
  }

  /** getTenantSlug: stored slug, else configured slug, else the slug of the host. */
  function GetTenantSlug(items: map<string, string>, env: Env): Option<string>
  {
    var stored := GetItem(items, TenantSlugKey);
    if Truthy(stored) then stored
    else if Truthy(env.tenantSlug) then env.tenantSlug
    else HostSlug(env.host)
  }

  /** A non-empty stored slug is returned as is, whatever the configuration and the host. */
  lemma StoredSlugWins(items: map<string, string>, env: Env, env': Env)
    requires TenantSlugKey in items && items[TenantSlugKey] != ""
    ensures GetTenantSlug(items, env) == Some(items[TenantSlugKey])
    ensures GetTenantSlug(items, env) == GetTenantSlug(items, env')
  {
  }

  /** With no stored slug, a non-empty configured slug wins over any host. */
  lemma ConfiguredSlugBeforeHost(items: map<string, string>, slug: string, host: Option<string>, host': Option<string>)
    requires !Truthy(GetItem(items, TenantSlugKey)) && slug != ""
    ensures GetTenantSlug(items, Env(Some(slug), host)) == Some(slug)
    ensures GetTenantSlug(items, Env(Some(slug), host)) == GetTenantSlug(items, Env(Some(slug), host'))
  {
  }

  /**
   * The host is the last resort: it yields a slug exactly when it is a non-local name with at
   * least two dots, and the slug is then the text before the first dot.
   */
  lemma HostSlugIsFirstLabel(items: map<string, string>, env: Env)
    requires !Truthy(GetItem(items, TenantSlugKey)) && !Truthy(env.tenantSlug)
    ensures var r := GetTenantSlug(items, env);
      r.Some? <==> (env.host.Some? && env.host.value !in {"", "localhost", "127.0.0.1"}
                    && Count(env.host.value, '.') >= 2)
    ensures var r := GetTenantSlug(items, env);
      r.Some? ==> var h, l := env.host.value, r.value;
        |l| < |h| && l == h[..|l|] && h[|l|] == '.' && '.' !in l
  {
    if env.host.Some? {
      SplitJoin(env.host.value, '.');
      SplitFirst(env.host.value, '.');
    }
  }

  /** getTenantHeaders: X-Tenant-ID and X-Tenant-Slug, each only when its value is non-empty. */
  function TenantHeaders(items: map<string, string>, env: Env): (h: map<string, string>)
    ensures h.Keys <= {TenantIdHeader, TenantSlugHeader}
    ensures TenantIdHeader in h <==> Truthy(GetItem(items, TenantIdKey))
    ensures TenantIdHeader in h ==> h[TenantIdHeader] == items[TenantIdKey]
    ensures TenantSlugHeader in h <==> Truthy(GetTenantSlug(items, env))
    ensures TenantSlugHeader in h ==> h[TenantSlugHeader] == GetTenantSlug(items, env).value
  {
    var id := GetItem(items, TenantIdKey);
    var slug := GetTenantSlug(items, env);
    var withId := if Truthy(id) then map[TenantIdHeader := id.value] else map[];
    if Truthy(slug) then withId[TenantSlugHeader := slug.value] else withId
  }

  /** The bearer token of a request: the explicit one when non-empty, else the stored one. */
  function AuthToken(items: map<string, string>, token: Option<string>): Option<string>
  {
    if Truthy(token) then token else GetToken(items)
  }

  /**
   * The headers of request(): JSON content type, the tenant headers, and a bearer authorization
   * when a token is available.
   */
  function RequestHeaders(items: map<string, string>, env: Env, token: Option<string>): map<string, string>
  {
    var base := map[ContentType := "application/json"] + TenantHeaders(items, env);
    var auth := AuthToken(items, token);
    if Truthy(auth) then base[Authorization := "Bearer " + auth.value] else base
  }

  /**
   * What request() sends: the JSON content type, every tenant header unchanged, and an
   * authorization exactly when an explicit or a stored token is non-empty, the explicit one first;
   * no other header.
   */
  lemma RequestHeadersContents(items: map<string, string>, env: Env, token: Option<string>)
    ensures var h := RequestHeaders(items, env, token);
      ContentType in h && h[ContentType] == "application/json"
    ensures var h := RequestHeaders(items, env, token);
      forall k :: k in TenantHeaders(items, env) ==> k in h && h[k] == TenantHeaders(items, env)[k]
    ensures var h := RequestHeaders(items, env, token);
      Authorization in h <==> Truthy(token) || Truthy(GetToken(items))
    ensures Truthy(token) ==> RequestHeaders(items, env, token)[Authorization] == "Bearer " + token.value
    ensures !Truthy(token) && Truthy(GetToken(items)) ==>
      RequestHeaders(items, env, token)[Authorization] == "Bearer " + items[TokenKey]
    ensures var h := RequestHeaders(items, env, token);
      h.Keys == {ContentType} + TenantHeaders(items, env).Keys + (if Authorization in h then {Authorization} else {})
  {
  }

  /** One outbound call: its HTTP method, its path and the headers it carries. */
  datatype Call = Call(verb: string, path: string, headers: map<string, string>)

  /** The call request() makes for a path, with the store as it is at that moment. */
  function Outbound(items: map<string, string>, env: Env, verb: string, path: string, token: Option<string>): Call
  {
    Call(verb, path, RequestHeaders(items, env, token))
  }

  /**
   * The response half of request(). A non-ok response throws the message of its JSON error body
   * (errorMessage: None when that body does not parse or has no message), else "Request failed".
   * Status 204 gives null, any other status the parsed body, or the parser's error.
   */
  function Response<T>(ok: bool, status: int, errorMessage: Option<string>, body: Result<T>): (r: Result<Option<T>>)
    ensures !ok ==> r.Err? && r.message != ""
    ensures !ok ==> (r.message == RequestFailed || (Truthy(errorMessage) && r.message == errorMessage.value))
    ensures !ok && Truthy(errorMessage) ==> r.message == errorMessage.value
    ensures ok && status == 204 ==> r == Ok(None)
    ensures ok && status != 204 && body.Ok? ==> r == Ok(Some(body.value))
    ensures ok && status != 204 && body.Err? ==> r == Err(body.message)
  {
    if !ok then Err(if Truthy(errorMessage) then errorMessage.value else RequestFailed)
    else if status == 204 then Ok(None)
    else match body
      case Ok(v) => Ok(Some(v))
      case Err(m) => Err(m)
  }
}
