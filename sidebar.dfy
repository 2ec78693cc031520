/**
 * src/components/Sidebar.jsx: which navigation links a session sees, and the brand title and
 * subtitle above them.
 */
module Sidebar {
  import opened Wrappers
  import opened AuthContext
  import App

  predicate IsSuperAdminFlag(user: Option<User>) { App.Role(user) == Some(SuperAdmin) }
  predicate IsTenantAdminFlag(user: Option<User>) { App.Role(user) == Some("admin") }
  predicate IsTenantUserFlag(user: Option<User>) { user.Some? && user.value.role != SuperAdmin }

  const TenantLinks := ["/dashboard", "/leads", "/activities", "/messaging", "/calls"]
  const AdminLinks := ["/templates", "/campaigns", "/counselors", "/stages", "/automations", "/reports", "/admin/branding"]
  const PlatformLinks := ["/admin/dashboard", "/admin/tenants"]

  /** The targets of the links shown, in the order the sidebar lists them. */
  function Links(user: Option<User>): seq<string>
  {
    (if IsTenantUserFlag(user) then TenantLinks else [])
    + (if IsTenantAdminFlag(user) then AdminLinks else [])
    + (if IsSuperAdminFlag(user) then PlatformLinks else [])
  }

  /** With no user nothing is shown; each role sees exactly its own groups of links. */
  lemma LinksByRole(user: Option<User>)
    ensures user.None? ==> Links(user) == []
    ensures forall p :: p in TenantLinks ==> (p in Links(user) <==> user.Some? && user.value.role != SuperAdmin)
    ensures forall p :: p in AdminLinks ==> (p in Links(user) <==> user.Some? && user.value.role == "admin")
    ensures forall p :: p in PlatformLinks ==> (p in Links(user) <==> user.Some? && user.value.role == SuperAdmin)
  {
  }

  /**
   * The sidebar never offers a dead end: every link it shows leads, once loading is over, to a
   * route whose guards render the screen for that session.
   */
  lemma ShownLinksAreAdmitted(user: Option<User>, p: string)
    requires p in Links(user)
    ensures App.RouteElement(p, user, false).Some? && App.RouteElement(p, user, false).value.Render?
  {
    assert p in App.GuardedPaths;
    App.GuardsImplementGate(p, user);
  }

  /** A super_admin is admitted to the shared admin screens, but the sidebar does not link them. */
  lemma SuperAdminSharedScreensUnlinked(user: User)
    requires user.role == SuperAdmin
    ensures App.RouteElement("/templates", Some(user), false) == Some(App.Render("Templates"))
    ensures "/templates" !in Links(Some(user))
  {
  }

  /** The brand title: the platform name for super_admin, else the tenant's name, else a default. */
  function Title(user: Option<User>, tenant: Option<Tenant>): string
  {
    if IsSuperAdminFlag(user) then "InnoSphear CRM"
    else if tenant.Some? && tenant.value.name != "" then tenant.value.name
    else "Counselor CRM"
  }

  /** The brand subtitle: the console name, else "<slug>.crm", else a default. */
  function Subtitle(user: Option<User>, tenant: Option<Tenant>): string
  {
    if IsSuperAdminFlag(user) then "Super Admin Console"
    else if tenant.Some? && tenant.value.slug != "" then tenant.value.slug + ".crm"
    else "Admissions Growth"
  }

  /**
   * The header of a super_admin never shows a tenant: whatever tenant the session still holds,
   * title and subtitle are the platform's.
   */
  lemma SuperAdminHeaderIgnoresTenant(user: User, tenant: Option<Tenant>)
    requires user.role == SuperAdmin
    ensures Title(Some(user), tenant) == Title(Some(user), None) == "InnoSphear CRM"
    ensures Subtitle(Some(user), tenant) == Subtitle(Some(user), None) == "Super Admin Console"
  {
  }

  /**
   * For everyone else the header names the tenant when the tenant names itself: its name as the
   * title and "<slug>.crm" below it, and the defaults only for what is missing.
   */
  lemma TenantHeaderNamesTenant(user: User, tenant: Tenant)
    requires user.role != SuperAdmin
    ensures tenant.name != "" ==> Title(Some(user), Some(tenant)) == tenant.name
    ensures tenant.name == "" ==> Title(Some(user), Some(tenant)) == Title(Some(user), None) == "Counselor CRM"
    ensures tenant.slug != "" ==> Subtitle(Some(user), Some(tenant)) == tenant.slug + ".crm"
    ensures tenant.slug == "" ==> Subtitle(Some(user), Some(tenant)) == Subtitle(Some(user), None) == "Admissions Growth"
  {
  }
}
