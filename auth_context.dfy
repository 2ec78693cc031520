/**
 * src/context/AuthContext.jsx: the session (user, tenant, loading), its one-time bootstrap from
 * the stored token, login, logout and the branding written into the page's CSS variables.
 *
 * Remote answers (/users/me, /tenants/me, /auth/login) are parameters of the methods; each method
 * returns the calls it made, with the headers request() gave them at that moment.
 */
module AuthContext {
  import opened Wrappers
  import opened Api

  datatype User = User(name: string, role: string)

  datatype Branding = Branding(logoUrl: string, primaryColor: string, secondaryColor: string, theme: string)

  /** A tenant record; empty text stands for a field the server left out. */
  datatype Tenant = Tenant(id: string, slug: string, name: string, branding: Option<Branding>)

  /** The body of POST /auth/login. */
  datatype LoginReply = LoginReply(token: string, user: Option<User>, tenant: Option<Tenant>)

  /** The JSON body POST /auth/login carries. */
  datatype Credentials = Credentials(email: string, password: string)

  const SuperAdmin := "super_admin"

  const BrandPrimary := "--brand-primary"
  const BrandSecondary := "--brand-secondary"
  const Accent := "--accent"
  const AccentDark := "--accent-dark"

  const NoBranding := Branding("", "", "", "")

  predicate IsSuperAdmin(user: Option<User>) {
    user.Some? && user.value.role == SuperAdmin
  }

  /** The CSS variables a branding writes: the primary pair and the secondary pair, when set. */
  function BrandingWrites(b: Option<Branding>): set<string>
  {
    if b.None? then {}
    else
      (if b.value.primaryColor != "" then {BrandPrimary, Accent} else {})
      + (if b.value.secondaryColor != "" then {BrandSecondary, AccentDark} else {})
  }

  /** The style map after applyBranding(b). */
  function Branded(style: map<string, string>, b: Option<Branding>): (r: map<string, string>)
    ensures r.Keys == style.Keys + BrandingWrites(b)
    ensures forall k :: k in style && k !in BrandingWrites(b) ==> r[k] == style[k]
    ensures b.Some? && b.value.primaryColor != "" ==>
      r[BrandPrimary] == b.value.primaryColor && r[Accent] == b.value.primaryColor
    ensures b.Some? && b.value.secondaryColor != "" ==>
      r[BrandSecondary] == b.value.secondaryColor && r[AccentDark] == b.value.secondaryColor
  {
    match b
    case None => style
    case Some(br) =>
      var p := if br.primaryColor != "" then style[BrandPrimary := br.primaryColor][Accent := br.primaryColor] else style;
      if br.secondaryColor != "" then p[BrandSecondary := br.secondaryColor][AccentDark := br.secondaryColor] else p
  }

  /** Applying the same branding twice is applying it once. */
  lemma BrandingIdempotent(style: map<string, string>, b: Option<Branding>)
    ensures Branded(Branded(style, b), b) == Branded(style, b)
  {
  }

  /**
   * Partial brandings never reset each other: a primary-only branding followed by a
   * secondary-only one leaves both colours set.
   */
  lemma PartialBrandingsAccumulate(style: map<string, string>, primary: string, secondary: string)
    requires primary != "" && secondary != ""
    ensures var r := Branded(Branded(style, Some(Branding("", primary, "", ""))), Some(Branding("", "", secondary, "")));
      r[BrandPrimary] == primary && r[Accent] == primary
      && r[BrandSecondary] == secondary && r[AccentDark] == secondary
  {
  }

  /** The stored items after a successful login: token set, tenant id and slug set or removed. */
  function LoginItems(items: map<string, string>, data: LoginReply): (r: map<string, string>)
    ensures TokenKey in r && r[TokenKey] == data.token
    ensures var id := if data.tenant.Some? then data.tenant.value.id else "";
      (TenantIdKey in r <==> id != "") && (id != "" ==> r[TenantIdKey] == id)
    ensures var slug := if data.tenant.Some? then data.tenant.value.slug else "";
      (TenantSlugKey in r <==> slug != "") && (slug != "" ==> r[TenantSlugKey] == slug)
    ensures forall k :: k !in {TokenKey, TenantIdKey, TenantSlugKey} ==>
      (k in r <==> k in items) && (k in r ==> r[k] == items[k])
  {
    var withToken := items[TokenKey := data.token];
    var id := if data.tenant.Some? then data.tenant.value.id else "";
    var slug := if data.tenant.Some? then data.tenant.value.slug else "";
    var withId := if id != "" then withToken[TenantIdKey := id] else withToken - {TenantIdKey};
    if slug != "" then withId[TenantSlugKey := slug] else withId - {TenantSlugKey}
  }

  /** The fixed palette written for a super_admin who signs in without a tenant. */
  function PlatformPalette(style: map<string, string>): map<string, string>
  {
    style[BrandPrimary := "#0f172a"][BrandSecondary := "#2563eb"][Accent := "#2563eb"][AccentDark := "#1e3a8a"]
  }

  /** The style map after a successful login. */
  function LoginStyle(style: map<string, string>, data: LoginReply): map<string, string>
  {
    if data.tenant.Some? then Branded(style, Some(data.tenant.value.branding.GetOr(NoBranding)))
    else if IsSuperAdmin(data.user) then PlatformPalette(style)
    else style
  }

  /**
   * A login without a tenant leaves no stale tenant context: the tenant id header disappears and
   * the slug is resolved as if none had ever been stored.
   */
  lemma LoginWithoutTenantClearsContext(items: map<string, string>, env: Env, data: LoginReply)
    requires data.tenant.None?
    ensures TenantIdHeader !in TenantHeaders(LoginItems(items, data), env)
    ensures GetTenantSlug(LoginItems(items, data), env) == GetTenantSlug(map[], env)
  {
  }

  /**
   * A super_admin login without a tenant resets all four variables to the platform palette and
   * keeps every other variable.
   */
  lemma SuperAdminLoginPalette(style: map<string, string>, data: LoginReply)
    requires data.tenant.None? && IsSuperAdmin(data.user)
    ensures var r := LoginStyle(style, data);
      r[BrandPrimary] == "#0f172a" && r[BrandSecondary] == "#2563eb"
      && r[Accent] == "#2563eb" && r[AccentDark] == "#1e3a8a"
    ensures var r := LoginStyle(style, data);
      r.Keys == style.Keys + {BrandPrimary, BrandSecondary, Accent, AccentDark}
      && forall k :: k in style && k !in {BrandPrimary, BrandSecondary, Accent, AccentDark} ==> r[k] == style[k]
  {
  }

  /** document.documentElement.style: the CSS custom properties of the page. */
  class DocumentStyle {
    var vars: map<string, string>

    constructor (initial: map<string, string>)
      ensures vars == initial
    {
      vars := initial;
    }

    method SetProperty(name: string, value: string)
      modifies this
      ensures vars == old(vars)[name := value]
    {
      vars := vars[name := value];
    }
  }

  /** AuthProvider: the session state and the operations that change it. */
  class AuthProvider {
    var user: Option<User>
    var tenant: Option<Tenant>
    var loading: bool
    const storage: LocalStorage
    const style: DocumentStyle
    const env: Env

    /** The provider as it is mounted: no user, no tenant, loading. */
    constructor (storage: LocalStorage, style: DocumentStyle, env: Env)
      ensures this.storage == storage && this.style == style && this.env == env
      ensures user == None && tenant == None && loading
    {
      this.storage := storage;
      this.style := style;
      this.env := env;
      user := None;
      tenant := None;
      loading := true;
    }

    /** applyBranding: the set colours are written, the missing ones left as they were. */
    method ApplyBranding(b: Option<Branding>)
      modifies style
      ensures style.vars == Branded(old(style.vars), b)
    {
      if b.None? {
        return;
      }
      if b.value.primaryColor != "" {
        style.SetProperty(BrandPrimary, b.value.primaryColor);
      }
      if b.value.secondaryColor != "" {
        style.SetProperty(BrandSecondary, b.value.secondaryColor);
      }
      if b.value.primaryColor != "" {
        style.SetProperty(Accent, b.value.primaryColor);
      }
      if b.value.secondaryColor != "" {
        style.SetProperty(AccentDark, b.value.secondaryColor);
      }
    }

    /**
     * bootstrap, run once on mount. me is the outcome of GET /users/me, tenantMe that of
     * GET /tenants/me; calls lists the requests actually made.
     */
    method Bootstrap(me: Result<Option<User>>, tenantMe: Result<Option<Tenant>>) returns (calls: seq<Call>)
      requires loading && user.None? && tenant.None?
      modifies this, storage, style
      ensures !loading
      ensures !Truthy(GetToken(old(storage.items))) ==>
        calls == [] && user.None? && tenant.None?
        && storage.items == old(storage.items) && style.vars == old(style.vars)
      ensures Truthy(GetToken(old(storage.items))) ==>
        1 <= |calls| && calls[0] == Outbound(old(storage.items), env, "GET", "/users/me", None)
      ensures Truthy(GetToken(old(storage.items))) && me.Err? ==>
        |calls| == 1 && user.None? && tenant.None?
        && storage.items == old(storage.items) - {TokenKey} && style.vars == old(style.vars)
      ensures Truthy(GetToken(old(storage.items))) && me.Ok? ==>
        user == me.value && storage.items == old(storage.items)
      ensures Truthy(GetToken(old(storage.items))) && me.Ok? && IsSuperAdmin(me.value) ==>
        |calls| == 1 && tenant.None? && style.vars == old(style.vars)
      ensures Truthy(GetToken(old(storage.items))) && me.Ok? && !IsSuperAdmin(me.value) ==>
        && calls == [calls[0], Outbound(old(storage.items), env, "GET", "/tenants/me", None)]
        && (if tenantMe.Ok? && tenantMe.value.Some? then
              tenant == tenantMe.value
              && style.vars == Branded(old(style.vars), Some(tenantMe.value.value.branding.GetOr(NoBranding)))
            else tenant.None? && style.vars == old(style.vars))
    {
      calls := [];
      var token := GetToken(storage.items);
      if !Truthy(token) {
        loading := false;
        return;
      }
      calls := [Outbound(storage.items, env, "GET", "/users/me", None)];
      match me {
        case Err(_) =>
          storage.RemoveItem(TokenKey);
        case Ok(u) =>
          user := u;
          if !IsSuperAdmin(u) {
            calls := calls + [Outbound(storage.items, env, "GET", "/tenants/me", None)];
            match tenantMe {
              case Ok(Some(t)) =>
                tenant := Some(t);
                ApplyBranding(Some(t.branding.GetOr(NoBranding)));
              case _ =>
                tenant := None;
            }
          } else {
            tenant := None;
          }
      }
      loading := false;
    }

    /**
     * login(email, password): reply is the outcome of POST /auth/login, and sent the body it
     * posted. A rejected login
     * changes nothing; an accepted one rewrites the three keys, the session and the branding and
     * returns the reply's user.
     */
    method Login(email: string, password: string, reply: Result<LoginReply>) returns (r: Result<Option<User>>, call: Call, sent: Credentials)
      modifies this, storage, style
      ensures call == Outbound(old(storage.items), env, "POST", "/auth/login", None)
      ensures sent.email == email && sent.password == password
      ensures reply.Err? ==>
        r == Err(reply.message) && user == old(user) && tenant == old(tenant)
        && storage.items == old(storage.items) && style.vars == old(style.vars)
      ensures reply.Ok? ==>
        && r == Ok(reply.value.user)
        && user == reply.value.user && tenant == reply.value.tenant
        && storage.items == LoginItems(old(storage.items), reply.value)
        && style.vars == LoginStyle(old(style.vars), reply.value)
      ensures loading == old(loading)
    {
      call := Outbound(storage.items, env, "POST", "/auth/login", None);
      sent := Credentials(email, password);
      if reply.Err? {
        return Err(reply.message), call, sent;
      }
      var data := reply.value;
      ghost var items0, vars0 := storage.items, style.vars;
      storage.SetItem(TokenKey, data.token);
      if data.tenant.Some? && data.tenant.value.id != "" {
        storage.SetItem(TenantIdKey, data.tenant.value.id);
      } else {
        storage.RemoveItem(TenantIdKey);
      }
      if data.tenant.Some? && data.tenant.value.slug != "" {
        storage.SetItem(TenantSlugKey, data.tenant.value.slug);
      } else {
        storage.RemoveItem(TenantSlugKey);
      }
      assert storage.items == LoginItems(items0, data);
      user := data.user;
      if data.tenant.Some? {
        tenant := data.tenant;
        ApplyBranding(Some(data.tenant.value.branding.GetOr(NoBranding)));
      } else {
        tenant := None;
        if IsSuperAdmin(data.user) {
          style.SetProperty(BrandPrimary, "#0f172a");
          style.SetProperty(BrandSecondary, "#2563eb");
          style.SetProperty(Accent, "#2563eb");
          style.SetProperty(AccentDark, "#1e3a8a");
        }
      }
      r := Ok(data.user);
    }

    /** logout: the three keys are removed and the session emptied. */
    method Logout()
      modifies this, storage
      ensures storage.items == old(storage.items) - {TokenKey, TenantIdKey, TenantSlugKey}
      ensures user.None? && tenant.None? && loading == old(loading)
    {
      storage.RemoveItem(TokenKey);
      storage.RemoveItem(TenantIdKey);
      storage.RemoveItem(TenantSlugKey);
      user := None;
      tenant := None;
    }
  }
}
