/**
 * src/pages/Login.jsx: the sign-in screen. It pre-fills the tenant slug, previews the tenant the
 * slug names, writes the slug (or, in super-admin mode, clears the tenant keys) before calling
 * login, and routes by the returned role.
 */
module LoginPage {
  import opened Wrappers
  import opened Strings
  import opened Api
  import opened AuthContext
  import App
  import Sidebar

  const LoginFailed := "Login failed"
  const LoginSucceeded := "Login successful. Redirecting to dashboard..."

  /** The slug field's first value: stored slug, else VITE_TENANT_SLUG, else empty. */
  function InitialSlug(items: map<string, string>, env: Env): (s: string)
    ensures Truthy(GetItem(items, TenantSlugKey)) ==> s == items[TenantSlugKey]
    ensures !Truthy(GetItem(items, TenantSlugKey)) && Truthy(env.tenantSlug) ==> s == env.tenantSlug.value
    ensures !Truthy(GetItem(items, TenantSlugKey)) && !Truthy(env.tenantSlug) ==> s == ""
  {
    var stored := GetItem(items, TenantSlugKey).GetOr("");
    var envSlug := env.tenantSlug.GetOr("");
    if stored != "" then stored else if envSlug != "" then envSlug else ""
  }

  /** The pre-filled slug is the slug request() would send, except when only the host names one. */
  lemma InitialSlugAgreesWithResolver(items: map<string, string>, env: Env)
    requires InitialSlug(items, env) != ""
    ensures GetTenantSlug(items, env) == Some(InitialSlug(items, env))
  {
  }

  /** tenantSlug.trim().toLowerCase() */
  function NormalizedSlug(s: string): string
  {
    ToLower(Trim(s))
  }

  /** The slug the preview looks up: none in super-admin mode or for a blank field. */
  function PreviewSlug(superAdminMode: bool, tenantSlug: string): (r: Option<string>)
    ensures r.Some? <==> !superAdminMode && Trim(tenantSlug) != ""
    ensures r.Some? ==> r.value == NormalizedSlug(tenantSlug) && r.value != "" && !IsSpace(r.value[0])
  {
    if superAdminMode then None
    else
      var slug := NormalizedSlug(tenantSlug);
      if slug == "" then None
      else
        TrimIsSlice(tenantSlug);
        LowerCharKeepsSpace(Trim(tenantSlug)[0]);
        Some(slug)
  }

  /** headerTitle */
  function HeaderTitle(superAdminMode: bool, preview: Option<Tenant>): string
  {
    if superAdminMode then "InnoSphear CRM"
    else if preview.Some? && preview.value.name != "" then preview.value.name
    else "Counselor CRM"
  }

  /** The login card and the sidebar name a tenant the same way. */
  lemma HeaderTitleMatchesSidebar(preview: Tenant, user: User)
    requires user.role != SuperAdmin
    ensures HeaderTitle(false, Some(preview)) == Sidebar.Title(Some(user), Some(preview))
    ensures HeaderTitle(true, Some(preview)) == Sidebar.Title(Some(User(user.name, SuperAdmin)), Some(preview))
  {
  }

  /** The stored items once handleSubmit has prepared them, just before login is called. */
  function SubmitItems(items: map<string, string>, superAdminMode: bool, tenantSlug: string): map<string, string>
  {
    if !superAdminMode && tenantSlug != "" then items[TenantSlugKey := NormalizedSlug(tenantSlug)]
    else if superAdminMode then items - {TenantSlugKey, TenantIdKey}
    else items
  }

  /**
   * In tenant mode the login request already carries the slug the user typed, trimmed and
   * lower-cased, whatever was stored, configured or hosted before.
   */
  lemma TenantModeSendsTypedSlug(items: map<string, string>, env: Env, tenantSlug: string)
    requires Trim(tenantSlug) != ""
    ensures var h := RequestHeaders(SubmitItems(items, false, tenantSlug), env, None);
      TenantSlugHeader in h && h[TenantSlugHeader] == NormalizedSlug(tenantSlug)
  {
    assert |NormalizedSlug(tenantSlug)| == |Trim(tenantSlug)|;
    RequestHeadersContents(SubmitItems(items, false, tenantSlug), env, None);
  }

  /**
   * In super-admin mode the login request carries no tenant id, and a slug header only when the
   * deployment itself names a tenant.
   */
  lemma SuperAdminModeDropsTenant(items: map<string, string>, env: Env, tenantSlug: string)
    ensures var h := RequestHeaders(SubmitItems(items, true, tenantSlug), env, None);
      TenantIdHeader !in h
      && (TenantSlugHeader in h <==> Truthy(GetTenantSlug(map[], env)))
  {
    var pre := SubmitItems(items, true, tenantSlug);
    assert GetItem(pre, TenantSlugKey) == None;
    assert GetTenantSlug(pre, env) == GetTenantSlug(map[], env);
    RequestHeadersContents(pre, env, None);
  }

  /** Where a successful login sends the user. */
  function Destination(user: Option<User>): (path: string)
  {
    if IsSuperAdmin(user) then "/admin/tenants" else "/dashboard"
  }

  /**
   * The post-login destination renders for the signed-in user; for a super_admin it is the tenant
   * list, not the platform dashboard the root route sends them to.
   */
  lemma DestinationRenders(user: User)
    ensures App.RouteElement(Destination(Some(user)), Some(user), false).value.Render?
    ensures user.role == SuperAdmin ==> Destination(Some(user)) != App.Landing(Some(user))
    ensures user.role != SuperAdmin ==> Destination(Some(user)) == App.Landing(Some(user))
  {
  }

  /** The state of the sign-in screen. */
  class LoginScreen {
    var email: string
    var password: string
    var tenantSlug: string
    var superAdminMode: bool
    var tenantPreview: Option<Tenant>
    var error: string
    var success: string
    var busy: bool

    /** The screen as it mounts, after its first effect has pre-filled the slug. */
    constructor (items: map<string, string>, env: Env)
      ensures tenantSlug == InitialSlug(items, env)
      ensures email == "" && password == "" && !superAdminMode && tenantPreview.None?
      ensures error == "" && success == "" && !busy
    {
      email, password := "", "";
      superAdminMode := false;
      tenantPreview := None;
      error, success := "", "";
      busy := false;
      tenantSlug := InitialSlug(items, env);
    }

    /**
     * The preview effect, run whenever the slug or the mode changes: in super-admin mode or for a
     * blank slug the preview is cleared; otherwise the preview is kept until the lookup of the
     * returned slug answers (ShowPreview).
     */
    method PreviewEffect() returns (lookup: Option<string>)
      modifies this`tenantPreview
      ensures lookup == PreviewSlug(superAdminMode, tenantSlug)
      ensures lookup.None? ==> tenantPreview.None?
      ensures lookup.None? && !superAdminMode ==> HeaderTitle(superAdminMode, tenantPreview) == "Counselor CRM"
      ensures lookup.Some? ==> tenantPreview == old(tenantPreview)
    {
      if superAdminMode {
        tenantPreview := None;
        return None;
      }
      var slug := NormalizedSlug(tenantSlug);
      if slug == "" {
        tenantPreview := None;
        return None;
      }
      lookup := Some(slug);
    }

    /**
     * The answer of GET /tenants/public for PreviewSlug(superAdminMode, tenantSlug): the preview
     * is shown and its colours written, or cleared when the lookup fails.
     */
    method ShowPreview(style: DocumentStyle, answer: Result<Option<Tenant>>)
      modifies this`tenantPreview, style
      ensures answer.Err? ==> tenantPreview.None? && style.vars == old(style.vars)
      ensures answer.Ok? ==> tenantPreview == answer.value
      ensures answer.Ok? && answer.value.Some? ==> style.vars == Branded(old(style.vars), answer.value.value.branding)
      ensures answer.Ok? && answer.value.None? ==> style.vars == old(style.vars)
    {
      match answer {
        case Err(_) =>
          tenantPreview := None;
        case Ok(data) =>
          tenantPreview := data;
          if data.Some? && data.value.branding.Some? {
            var b := data.value.branding.value;
            if b.primaryColor != "" { style.SetProperty(BrandPrimary, b.primaryColor); }
            if b.secondaryColor != "" { style.SetProperty(BrandSecondary, b.secondaryColor); }
            if b.primaryColor != "" { style.SetProperty(Accent, b.primaryColor); }
            if b.secondaryColor != "" { style.SetProperty(AccentDark, b.secondaryColor); }
          }
      }
    }

    /** The first step of handleSubmit: store the typed slug, or clear the tenant keys in super-admin mode. */
    method PrepareTenantKeys(storage: LocalStorage)
      modifies storage
      ensures storage.items == SubmitItems(old(storage.items), superAdminMode, tenantSlug)
    {
      if !superAdminMode && tenantSlug != "" {
        storage.SetItem(TenantSlugKey, NormalizedSlug(tenantSlug));
      }
      if superAdminMode {
        storage.RemoveItem(TenantSlugKey);
        storage.RemoveItem(TenantIdKey);
        assert storage.items == old(storage.items) - {TenantSlugKey, TenantIdKey};
      }
    }

    /**
     * handleSubmit: prepare the stored tenant keys, call login with the answer reply, then route
     * by role or show the error. navigateTo is the path navigated to, if any, and sent the
     * credentials posted.
     */
    method HandleSubmit(auth: AuthProvider, reply: Result<LoginReply>)
      returns (navigateTo: Option<string>, call: Call, sent: Credentials)
      modifies this, auth, auth.storage, auth.style
      ensures !busy
      ensures sent == Credentials(old(email), old(password))
      ensures email == old(email) && password == old(password) && tenantSlug == old(tenantSlug)
      ensures superAdminMode == old(superAdminMode) && tenantPreview == old(tenantPreview)
      ensures var pre := SubmitItems(old(auth.storage.items), superAdminMode, tenantSlug);
        call == Outbound(pre, auth.env, "POST", "/auth/login", None)
        && (reply.Err? ==> auth.storage.items == pre)
        && (reply.Ok? ==> auth.storage.items == LoginItems(pre, reply.value))
      ensures reply.Err? ==>
        && navigateTo.None? && success == ""
        && error == (if reply.message != "" then reply.message else LoginFailed)
        && auth.user == old(auth.user) && auth.tenant == old(auth.tenant)
        && auth.style.vars == old(auth.style.vars)
      ensures reply.Ok? ==>
        && navigateTo == Some(Destination(reply.value.user))
        && error == "" && success == LoginSucceeded
        && auth.user == reply.value.user && auth.tenant == reply.value.tenant
        && auth.style.vars == LoginStyle(old(auth.style.vars), reply.value)
    {
      error := "";
      success := "";
      busy := true;
      PrepareTenantKeys(auth.storage);
      var r;
      r, call, sent := auth.Login(email, password, reply);
      match r {
        case Ok(user) =>
          success := LoginSucceeded;
          navigateTo := Some(Destination(user));
        case Err(m) =>
          error := if m != "" then m else LoginFailed;
          navigateTo := None;
      }
      busy := false;
    }
  }
}
