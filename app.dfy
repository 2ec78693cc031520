/**
 * src/App.jsx: the route guards and the route table. A guard sees the session's user and loading
 * flag and either shows the waiting card, redirects, or renders what it wraps.
 */
module App {
  import opened Wrappers
  import opened AuthContext

  /** What a route element shows: the loading card, a redirect, or a screen. */
  datatype View = Waiting | Redirect(to: string) | Render(screen: string)

  /** user?.role */
  function Role(user: Option<User>): Option<string>
  {
    if user.Some? then Some(user.value.role) else None
  }

  function ProtectedRoute(user: Option<User>, loading: bool, child: View): View
  {
    if loading then Waiting
    else if user.None? then Redirect("/login")
    else child
  }

  function AdminRoute(user: Option<User>, child: View): View
  {
    if Role(user) !in {Some("admin"), Some(SuperAdmin)} then Redirect("/dashboard") else child
  }

  function SuperAdminRoute(user: Option<User>, child: View): View
  {
    if Role(user) != Some(SuperAdmin) then Redirect("/dashboard") else child
  }

  function TenantAdminRoute(user: Option<User>, child: View): View
  {
    if Role(user) != Some("admin") then Redirect("/dashboard") else child
  }

  function LoginRoute(user: Option<User>, loading: bool): View
  {
    if loading then Waiting
    else if user.Some? then Redirect("/dashboard")
    else Render("Login")
  }

  function RootRoute(user: Option<User>, loading: bool): View
  {
    if loading then Waiting
    else if user.None? then Redirect("/login")
    else if user.value.role == SuperAdmin then Redirect("/admin/dashboard")
    else Redirect("/dashboard")
  }

  function DashboardRoute(user: Option<User>, loading: bool): View
  {
    if loading then Waiting
    else if user.None? then Redirect("/login")
    else if user.value.role == SuperAdmin then Redirect("/admin/dashboard")
    else Render("Dashboard")
  }

  /** The route table: the element shown for a path, None for a path no route matches. */
  function RouteElement(path: string, user: Option<User>, loading: bool): Option<View>
  {
    if path == "/login" then Some(LoginRoute(user, loading))
    else if path == "/" then Some(RootRoute(user, loading))
    else if path == "/dashboard" then Some(DashboardRoute(user, loading))
    else if path == "/leads" then Some(ProtectedRoute(user, loading, Render("Leads")))
    else if path == "/activities" then Some(ProtectedRoute(user, loading, Render("Activities")))
    else if path == "/messaging" then Some(ProtectedRoute(user, loading, Render("Messaging")))
    else if path == "/calls" then Some(ProtectedRoute(user, loading, Render("Calls")))
    else if path == "/templates" then Some(ProtectedRoute(user, loading, AdminRoute(user, Render("Templates"))))
    else if path == "/campaigns" then Some(ProtectedRoute(user, loading, AdminRoute(user, Render("Campaigns"))))
    else if path == "/counselors" then Some(ProtectedRoute(user, loading, AdminRoute(user, Render("Counselors"))))
    else if path == "/stages" then Some(ProtectedRoute(user, loading, AdminRoute(user, Render("Stages"))))
    else if path == "/automations" then Some(ProtectedRoute(user, loading, AdminRoute(user, Render("Automations"))))
    else if path == "/reports" then Some(ProtectedRoute(user, loading, AdminRoute(user, Render("Reports"))))
    else if path == "/admin/tenants" then Some(ProtectedRoute(user, loading, SuperAdminRoute(user, Render("AdminTenants"))))
    else if path == "/admin/dashboard" then Some(ProtectedRoute(user, loading, SuperAdminRoute(user, Render("AdminDashboard"))))
    else if path == "/admin/branding" then Some(ProtectedRoute(user, loading, TenantAdminRoute(user, Render("TenantBranding"))))
    else None
  }

  /**
   * The capabilities each screen requires, stated independently of the guards, and which
   * sessions hold them.
   */
  datatype Capability =
    | Authenticated   // any signed-in user
    | TenantMember    // a signed-in user who is not super_admin
    | SharedAdmin     // admin or super_admin
    | TenantAdmin     // strictly admin
    | PlatformAdmin   // strictly super_admin

  predicate CanAccess(user: Option<User>, cap: Capability)
  {
    match cap
    case Authenticated => user.Some?
    case TenantMember => user.Some? && user.value.role != SuperAdmin
    case SharedAdmin => user.Some? && (user.value.role == "admin" || user.value.role == SuperAdmin)
    case TenantAdmin => user.Some? && user.value.role == "admin"
    case PlatformAdmin => user.Some? && user.value.role == SuperAdmin
  }

  /** The screens behind guards and the capabilities each one requires. */
  function Required(path: string): set<Capability>
  {
    if path == "/dashboard" then {Authenticated, TenantMember}
    else if path in {"/leads", "/activities", "/messaging", "/calls"} then {Authenticated}
    else if path in {"/templates", "/campaigns", "/counselors", "/stages", "/automations", "/reports"} then {Authenticated, SharedAdmin}
    else if path in {"/admin/tenants", "/admin/dashboard"} then {Authenticated, PlatformAdmin}
    else if path == "/admin/branding" then {Authenticated, TenantAdmin}
    else {}
  }

  const GuardedPaths: set<string> :=
    {"/dashboard", "/leads", "/activities", "/messaging", "/calls", "/templates", "/campaigns", "/counselors",
     "/stages", "/automations", "/reports", "/admin/tenants", "/admin/dashboard", "/admin/branding"}

  /**
   * The nested guards of every screen implement the gate: once loading is over, a guarded screen
   * renders exactly when the session holds every capability the screen requires.
   */
  lemma GuardsImplementGate(path: string, user: Option<User>)
    requires path in GuardedPaths
    ensures RouteElement(path, user, false).Some?
    ensures RouteElement(path, user, false).value.Render? <==> forall c :: c in Required(path) ==> CanAccess(user, c)
  {
    var v := RouteElement(path, user, false).value;
    if v.Render? {
      forall c | c in Required(path) ensures CanAccess(user, c) {
      }
    } else {
      if user.Some? {
        var c :| c in Required(path) && !CanAccess(user, c);
      } else {
        assert Authenticated in Required(path);
      }
    }
  }

  /** While the session is loading, every route shows the waiting card and decides nothing. */
  lemma LoadingWaits(path: string, user: Option<User>)
    requires RouteElement(path, user, true).Some?
    ensures RouteElement(path, user, true) == Some(Waiting)
  {
  }

  /** Guard nesting is conjunctive: both orders render the child under the same sessions. */
  lemma NestingOrderIrrelevant(user: Option<User>, screen: string)
    ensures (ProtectedRoute(user, false, AdminRoute(user, Render(screen))) == Render(screen))
        <==> (AdminRoute(user, ProtectedRoute(user, false, Render(screen))) == Render(screen))
    ensures (ProtectedRoute(user, false, TenantAdminRoute(user, Render(screen))) == Render(screen))
        <==> (TenantAdminRoute(user, ProtectedRoute(user, false, Render(screen))) == Render(screen))
    ensures (ProtectedRoute(user, false, SuperAdminRoute(user, Render(screen))) == Render(screen))
        <==> (SuperAdminRoute(user, ProtectedRoute(user, false, Render(screen))) == Render(screen))
  {
  }

  /** Where a session lands: the platform dashboard, the tenant dashboard or the login form. */
  function Landing(user: Option<User>): string
  {
    if user.None? then "/login"
    else if user.value.role == SuperAdmin then "/admin/dashboard"
    else "/dashboard"
  }

  /**
   * The entry routes follow the landing: the login form renders only without a user, the root
   * route always redirects to the landing, and /dashboard renders exactly for tenant members and
   * sends everyone else to their landing.
   */
  lemma EntryRoutesFollowLanding(user: Option<User>)
    ensures LoginRoute(user, false).Render? <==> user.None?
    ensures user.Some? ==> LoginRoute(user, false) == Redirect("/dashboard")
    ensures RootRoute(user, false) == Redirect(Landing(user))
    ensures DashboardRoute(user, false).Render? <==> CanAccess(user, TenantMember)
    ensures !DashboardRoute(user, false).Render? ==> DashboardRoute(user, false) == Redirect(Landing(user))
  {
  }

  /**
   * No redirect loops: from any route, after loading, at most two redirects reach the session's
   * landing screen, and that screen renders.
   */
  lemma RedirectsReachLanding(path: string, user: Option<User>)
    requires RouteElement(path, user, false).Some?
    ensures RouteElement(Landing(user), user, false).Some? && RouteElement(Landing(user), user, false).value.Render?
    ensures var v := RouteElement(path, user, false).value;
      || v.Render?
      || v.to == Landing(user)
      || (RouteElement(v.to, user, false).Some? && RouteElement(v.to, user, false).value == Redirect(Landing(user)))
  {
    RedirectTargets(path, user);
  }

  /** Every redirect in the route table goes to the login form or to one of the two dashboards. */
  lemma RedirectTargets(path: string, user: Option<User>)
    requires RouteElement(path, user, false).Some?
    ensures var v := RouteElement(path, user, false).value;
      v.Redirect? ==> v.to == "/login" || v.to == "/dashboard" || v.to == "/admin/dashboard"
  {
  }
}
