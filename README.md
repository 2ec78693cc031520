# InnoSphear CRM client: session, tenancy and page logic in Dafny

This project models the browser client of the InnoSphear multi-tenant admissions CRM. Its core is
the tenant-aware session and authorization logic:

- which tenant a request belongs to, and the headers it carries (`src/api.js`);
- the session store (token, tenant id and tenant slug in `localStorage`) and the branding written
  into the page's CSS variables (`src/context/AuthContext.jsx`);
- the route guards and the route table (`src/App.jsx`), and the links and header the sidebar shows
  for each role (`src/components/Sidebar.jsx`);
- the sign-in screen (`src/pages/Login.jsx`).

Around that core sit the routines of the CRUD pages:

- slug normalisation, dotted-path form edits, tenant selection and submission (AdminTenants);
- grouping leads by stage (Leads);
- toggling lead selections and upserting status logs (Campaigns, Messaging, Calls);
- the submit rules of the counselor, template and campaign forms;
- report query assembly (Reports);
- the tenant summary (AdminDashboard).

Layout, one module per source file plus shared ones:

| file | module | models |
|---|---|---|
| wrappers.dfy | Wrappers | `Option` and `Result` (an error carries its message) |
| strings.dfy | Strings | `trim`, `toLowerCase` (ASCII) and one-character `split`, as JavaScript defines them |
| seqs.dfy | Seqs | `Array.prototype.filter` |
| json_values.dfy | JsonValues | JavaScript values, truthiness, `||` and optional chaining |
| records.dfy | Records | the server records the pages read (lead, account, template, status log, stage) |
| selection.dfy | Selection | toggle, upsert and recipient filters shared by Campaigns, Messaging and Calls |
| api.dfy | Api | `localStorage` as the class `LocalStorage`; tenant slug, tenant headers, request headers, response rule |
| auth_context.dfy | AuthContext | the class `AuthProvider` (user, tenant, loading) over a `LocalStorage` and a `DocumentStyle` |
| app.dfy | App | the guards, the route table, and an independent capability table the guards are proved against |
| sidebar.dfy | Sidebar | role flags, links, title and subtitle |
| login_page.dfy | LoginPage | the class `LoginScreen` |
| admin_tenants.dfy | AdminTenants | `normalizeSlug`, the form tree, the class `TenantsScreen` |
| leads.dfy, campaigns.dfy, messaging.dfy, calls.dfy, counselors.dfy, templates.dfy, reports.dfy, admin_dashboard.dfy | one per page | the page logic named below |

Remote calls are not performed. Each method that awaits the server takes the server's answer as a
parameter: a `Result`, whose `Err` carries the thrown message. Where the source builds a request,
the method returns the request (its path, verb and headers, or its body) so that contracts can
speak about it. The environment the client reads (`VITE_TENANT_SLUG`, the page's host name) is the
datatype `Api.Env`.

## Model

| member | source | states |
|---|---|---|
| Api.GetItem | src/api.js:3 | `localStorage.getItem`: the stored value, none for a key not stored; `Api.LocalStorage.SetItem` and `Api.LocalStorage.RemoveItem` state what it then reads |
| Api.GetToken | src/api.js:3 | the stored `crm_token`; `Api.RequestHeadersContents` states that it is the bearer when no explicit token is given |
| Api.HostSlug | src/api.js:9-14 | stated by `Api.HostSlugIsFirstLabel`: a slug exactly for a non-local host of three labels or more, and it is the first label |
| Api.GetTenantSlug | src/api.js:4-15 | stated by `Api.StoredSlugWins`, `Api.ConfiguredSlugBeforeHost` and `Api.HostSlugIsFirstLabel`: the stored slug, then the configured one, then the host's |
| Api.StoredSlugWins | src/api.js:4-6 | a non-empty stored `crm_tenant_slug` is the slug, and the configuration and the host are not consulted |
| Api.ConfiguredSlugBeforeHost | src/api.js:7-8 | with no stored slug, a non-empty `VITE_TENANT_SLUG` is the slug whatever the host |
| Api.HostSlugIsFirstLabel | src/api.js:9-14 | with neither stored nor configured slug, a slug exists exactly for a non-local, non-empty host with at least two dots, and it is the text before the first dot |
| Api.TenantHeaders | src/api.js:17-24 | the tenant headers hold only `X-Tenant-ID` and `X-Tenant-Slug`; each is present exactly when its value is non-empty, and holds that value unchanged |
| Api.RequestHeadersContents | src/api.js:26-29 | every request carries the JSON content type and every tenant header; `Authorization` is `Bearer` plus the explicit token when it is non-empty, else the stored token, and absent when both are empty; there is no other header |
| Api.AuthToken | src/api.js:28 | stated by `Api.RequestHeadersContents`: the explicit token when non-empty, else the stored one |
| Api.RequestHeaders | src/api.js:26-29 | stated by `Api.RequestHeadersContents`: content type, tenant headers, and the bearer exactly when a token is available |
| Api.Outbound | src/api.js:26-35 | one call's verb, path and `RequestHeaders`; `AuthContext.AuthProvider.Login` and `LoginPage.LoginScreen.HandleSubmit` state which store it reads |
| Api.Response | src/api.js:37-42 | a non-ok response is an error with the server's message, or "Request failed"; 204 gives null; any other status gives the parsed body or the parse error |
| Api.LocalStorage.constructor | src/api.js:3 | the store starts with the given items |
| Api.LocalStorage.SetItem | src/context/AuthContext.jsx:53 | `setItem` writes one key and keeps the rest |
| Api.LocalStorage.RemoveItem | src/context/AuthContext.jsx:41 | `removeItem` deletes one key and keeps the rest |
| AuthContext.Branded | src/context/AuthContext.jsx:11-18 | no branding writes nothing; a non-empty primary colour sets `--brand-primary` and `--accent`, a non-empty secondary colour sets `--brand-secondary` and `--accent-dark`, and every other variable keeps its value |
| AuthContext.BrandingIdempotent | src/context/AuthContext.jsx:11-18 | applying a branding twice is the same as applying it once |
| AuthContext.PartialBrandingsAccumulate | src/context/AuthContext.jsx:14-17 | a primary-only branding followed by a secondary-only one leaves all four variables set, because a missing colour never resets its variable |
| AuthContext.LoginItems | src/context/AuthContext.jsx:53-63 | after a login the token is stored; the tenant id and slug are stored exactly when the reply's tenant carries them and removed otherwise; every other key is untouched |
| AuthContext.LoginWithoutTenantClearsContext | src/context/AuthContext.jsx:54-63 | after a login without a tenant, requests carry no tenant id, and the slug resolves as if none had ever been stored |
| AuthContext.PlatformPalette | src/context/AuthContext.jsx:70-75 | stated by `AuthContext.SuperAdminLoginPalette`: the four platform colours, every other variable kept |
| AuthContext.LoginStyle | src/context/AuthContext.jsx:65-77 | the style after a login: `Branded` with the tenant's branding, else the platform palette for a super_admin, else unchanged; `AuthContext.SuperAdminLoginPalette` states the palette case |
| AuthContext.SuperAdminLoginPalette | src/context/AuthContext.jsx:68-76 | a super_admin login without a tenant writes the fixed palette #0f172a / #2563eb / #2563eb / #1e3a8a, and every other variable keeps its value |
| AuthContext.DocumentStyle.constructor | src/context/AuthContext.jsx:13 | the style starts with the given variables |
| AuthContext.DocumentStyle.SetProperty | src/context/AuthContext.jsx:14 | `setProperty` writes one variable and keeps the rest |
| AuthContext.AuthProvider.constructor | src/context/AuthContext.jsx:6-9 | a mounted provider has no user, no tenant, and is loading |
| AuthContext.AuthProvider.ApplyBranding | src/context/AuthContext.jsx:11-18 | the conditional writes produce exactly `Branded` of the old variables |
| AuthContext.AuthProvider.Bootstrap | src/context/AuthContext.jsx:20-45 | always ends with loading false. No token: no call and nothing changes. Failing `/users/me`: only `crm_token` is removed and there is no user. Otherwise the user is set; a super_admin gets no tenant lookup and no tenant; for anyone else `/tenants/me` is called, and its tenant and branding are taken on success, with no tenant on failure |
| AuthContext.AuthProvider.Login | src/context/AuthContext.jsx:51-79 | the login call posts exactly the given email and password, with the headers of the store as it was; a rejected login changes nothing; an accepted one stores `LoginItems`, sets the user and tenant, writes `LoginStyle`, and returns the reply's user |
| AuthContext.AuthProvider.Logout | src/context/AuthContext.jsx:81-87 | exactly the three keys are removed, and user and tenant become null |
| App.Role | src/App.jsx:29 | `user?.role`, none without a user; the guards built on it are stated by `App.GuardsImplementGate` |
| App.ProtectedRoute | src/App.jsx:20-25 | stated by `App.LoadingWaits` (waiting card while loading) and `App.GuardsImplementGate` (renders exactly for a signed-in user, else redirects to /login) |
| App.AdminRoute | src/App.jsx:27-31 | stated by `App.GuardsImplementGate`: renders exactly for admin or super_admin |
| App.SuperAdminRoute | src/App.jsx:33-37 | stated by `App.GuardsImplementGate`: renders exactly for super_admin |
| App.TenantAdminRoute | src/App.jsx:39-43 | stated by `App.GuardsImplementGate`: renders exactly for admin |
| App.LoginRoute | src/App.jsx:46-51 | stated by `App.EntryRoutesFollowLanding`: the form renders exactly without a user, and a user is sent to /dashboard |
| App.RootRoute | src/App.jsx:53-59 | stated by `App.EntryRoutesFollowLanding`: always redirects to the session's landing |
| App.DashboardRoute | src/App.jsx:61-67 | stated by `App.EntryRoutesFollowLanding`: renders exactly for a signed-in user who is not super_admin, else redirects to the landing |
| App.RouteElement | src/App.jsx:69-202 | the route table; `App.GuardsImplementGate`, `App.LoadingWaits` and `App.RedirectsReachLanding` state what every route shows |
| App.Landing | src/App.jsx:53-67 | where a session lands: /login, /admin/dashboard or /dashboard; `App.RedirectsReachLanding` states that it renders and that redirects reach it |
| App.EntryRoutesFollowLanding | src/App.jsx:46-67 | the login form renders exactly without a user; the root route always redirects to the landing; /dashboard renders exactly for a user who is not super_admin and otherwise redirects to the landing |
| App.GuardsImplementGate | src/App.jsx:20-43 | once loading is over, every guarded screen renders exactly when the session holds each capability the screen requires: signed in; not super_admin for /dashboard; admin or super_admin for the shared admin screens; strictly super_admin for /admin/*; strictly admin for /admin/branding |
| App.LoadingWaits | src/App.jsx:22 | while the session loads, every route shows the waiting card |
| App.NestingOrderIrrelevant | src/App.jsx:111-200 | nested guards are conjunctive: either nesting order renders the child for the same sessions |
| App.RedirectsReachLanding | src/App.jsx:46-67 | from any route, at most two redirects reach the session's landing screen, and that screen renders, so the redirects never loop |
| Sidebar.Links | src/components/Sidebar.jsx:28-41 | stated by `Sidebar.LinksByRole` and `Sidebar.ShownLinksAreAdmitted` |
| Sidebar.Title | src/components/Sidebar.jsx:21 | stated by `Sidebar.SuperAdminHeaderIgnoresTenant` and `Sidebar.TenantHeaderNamesTenant` |
| Sidebar.Subtitle | src/components/Sidebar.jsx:23 | stated by `Sidebar.SuperAdminHeaderIgnoresTenant` and `Sidebar.TenantHeaderNamesTenant` |
| Sidebar.LinksByRole | src/components/Sidebar.jsx:7-9 | no user sees no link; the five tenant links show exactly for a user who is not super_admin; the admin links exactly for role admin; the platform links exactly for super_admin |
| Sidebar.ShownLinksAreAdmitted | src/components/Sidebar.jsx:28-41 | every link the sidebar shows leads to a route whose guards render it for that session |
| Sidebar.SuperAdminSharedScreensUnlinked | src/components/Sidebar.jsx:33 | a super_admin is admitted to /templates but is not linked to it |
| Sidebar.SuperAdminHeaderIgnoresTenant | src/components/Sidebar.jsx:21-23 | a super_admin's title and subtitle are the platform's, whatever tenant the session holds |
| Sidebar.TenantHeaderNamesTenant | src/components/Sidebar.jsx:21-23 | for other users the title is the tenant's name and the subtitle its slug plus ".crm" when set, and the defaults otherwise |
| LoginPage.InitialSlug | src/pages/Login.jsx:18-22 | the slug field starts with the stored slug if non-empty, else `VITE_TENANT_SLUG`, else "" |
| LoginPage.InitialSlugAgreesWithResolver | src/pages/Login.jsx:19-21 | a non-empty pre-filled slug is the slug `getTenantSlug` resolves |
| LoginPage.NormalizedSlug | src/pages/Login.jsx:29 | the trimmed, lower-cased slug; `LoginPage.PreviewSlug` states that it is non-empty and starts with no white space when the preview runs |
| LoginPage.PreviewSlug | src/pages/Login.jsx:24-36 | there is a preview lookup exactly when not in super-admin mode and the trimmed slug is non-empty; it uses the trimmed, lower-cased slug, which is non-empty and does not start with white space |
| LoginPage.HeaderTitle | src/pages/Login.jsx:50-53 | stated by `LoginPage.HeaderTitleMatchesSidebar`: the sidebar's title for the previewed tenant |
| LoginPage.SubmitItems | src/pages/Login.jsx:61-67 | stated by `LoginPage.TenantModeSendsTypedSlug` and `LoginPage.SuperAdminModeDropsTenant` |
| LoginPage.HeaderTitleMatchesSidebar | src/pages/Login.jsx:50-53 | the login card's title is the sidebar's title for the same tenant, in both modes |
| LoginPage.TenantModeSendsTypedSlug | src/pages/Login.jsx:61-63 | in tenant mode the login request carries the typed slug, trimmed and lower-cased, whatever was stored, configured or hosted |
| LoginPage.SuperAdminModeDropsTenant | src/pages/Login.jsx:64-67 | in super-admin mode the login request carries no tenant id, and a slug only when the deployment itself configures or hosts one |
| LoginPage.Destination | src/pages/Login.jsx:71-75 | stated by `LoginPage.DestinationRenders` |
| LoginPage.DestinationRenders | src/pages/Login.jsx:71-75 | the post-login destination renders for the user; for a super_admin it is /admin/tenants, which differs from the root route's landing, and for anyone else it is the landing |
| LoginPage.LoginScreen.constructor | src/pages/Login.jsx:9-22 | the screen mounts with the initial slug, tenant mode, no preview and no message |
| LoginPage.LoginScreen.PreviewEffect | src/pages/Login.jsx:24-36 | in super-admin mode or for a blank trimmed slug the preview is cleared and the card title falls back to "Counselor CRM"; otherwise the preview is kept and the trimmed, lower-cased slug is looked up |
| LoginPage.LoginScreen.ShowPreview | src/pages/Login.jsx:37-45 | a found tenant becomes the preview and its colours are written; a failed lookup clears the preview |
| LoginPage.LoginScreen.PrepareTenantKeys | src/pages/Login.jsx:61-67 | the store holds the normalised slug in tenant mode, loses both tenant keys in super-admin mode, and is otherwise unchanged |
| LoginPage.LoginScreen.HandleSubmit | src/pages/Login.jsx:55-82 | the typed email and password are posted with the prepared store; on success the user is routed by role and the success message shown; on failure there is no navigation, and the error is the message or "Login failed"; busy is false after both |
| AdminTenants.DashRuns | src/pages/AdminTenants.jsx:58 | stated by `AdminTenants.SpaceRunSplitsSlug`: each white-space run becomes one '-' |
| AdminTenants.Strip | src/pages/AdminTenants.jsx:59 | stated by `AdminTenants.NormalizeSlugChars`: only slug characters remain |
| AdminTenants.NormalizeSlug | src/pages/AdminTenants.jsx:54-59 | stated by `AdminTenants.NormalizeSlugChars`, `AdminTenants.NormalizeSlugIdempotent`, `AdminTenants.NormalizeSlugIgnoresOuterSpace` and `AdminTenants.SpaceRunSplitsSlug` |
| AdminTenants.NormalizeSlugChars | src/pages/AdminTenants.jsx:54-59 | a normalised slug holds only a-z, 0-9 and '-' |
| AdminTenants.NormalizeSlugIdempotent | src/pages/AdminTenants.jsx:165 | normalising twice is normalising once, so the per-keystroke and the submit normalisations agree; trim and lower-case also leave a normalised slug unchanged |
| AdminTenants.NormalizeSlugIgnoresOuterSpace | src/pages/AdminTenants.jsx:56 | leading and trailing white space never reaches the slug |
| AdminTenants.SpaceRunSplitsSlug | src/pages/AdminTenants.jsx:54-59 | after a leading word, each run of white space becomes one '-' and the rest, which may hold further runs, is normalised on its own |
| AdminTenants.TwoRunsTwoDashes | src/pages/AdminTenants.jsx:54-59 | three words and two runs, such as "New  York  City", give three normalised words joined by two dashes |
| AdminTenants.SpaceRunBecomesOneDash | src/pages/AdminTenants.jsx:58-59 | a run of white space between two words becomes one '-', however long the run; the two-word case of `AdminTenants.SpaceRunSplitsSlug` |
| AdminTenants.SetPath | src/pages/AdminTenants.jsx:135-147 | stated by `AdminTenants.SetPathThenLookup`, `AdminTenants.SetPathKeepsOtherPaths` and `AdminTenants.SetPathOverwrites` |
| AdminTenants.SetPathThenLookup | src/pages/AdminTenants.jsx:135-147 | after `handleChange(path, value)` the dotted path reads back `value` |
| AdminTenants.SetPathKeepsOtherPaths | src/pages/AdminTenants.jsx:140-144 | every path that leaves the written path at some step reads as before |
| AdminTenants.SetPathOverwrites | src/pages/AdminTenants.jsx:135-147 | writing the same path twice keeps only the second value |
| AdminTenants.SelectTenant | src/pages/AdminTenants.jsx:85-133 | stated by the `AdminTenants.Selected*` lemmas and `AdminTenants.SelectBlankTenant` |
| AdminTenants.SelectedPlanAndStatus | src/pages/AdminTenants.jsx:86-133 | a selected tenant has a truthy plan and status (its own, else "starter" and "active"), its `_id` as id, and blank admin credentials |
| AdminTenants.SelectedFeatures | src/pages/AdminTenants.jsx:123-129 | the five features are flags; campaigns and automations are on exactly when the tenant's value is truthy; messaging, calling and reports are off exactly when the tenant's value is false |
| AdminTenants.SelectedText | src/pages/AdminTenants.jsx:89-90 | a text field takes the tenant's value when truthy, else "" |
| AdminTenants.SelectedRecordCalls | src/pages/AdminTenants.jsx:113 | recordCalls is selected as a flag, on exactly when the tenant's value is truthy |
| AdminTenants.SelectBlankSections | src/pages/AdminTenants.jsx:86-133 | each section selected from nothing is that section of the empty form |
| AdminTenants.SelectBlankTenant | src/pages/AdminTenants.jsx:5-52 | selecting a tenant with nothing set gives the empty form under that tenant's id |
| AdminTenants.SlugText | src/pages/AdminTenants.jsx:165 | the slug field's text; `AdminTenants.ResaveSelectedSlug` states that a normalised slug comes back unchanged |
| AdminTenants.PayloadTwilio | src/pages/AdminTenants.jsx:177-186 | stated by `AdminTenants.ResaveSelectedTwilio`: recordCalls goes out as `Boolean(...)`, and the other fields are copied |
| AdminTenants.PayloadSmtp | src/pages/AdminTenants.jsx:170-176 | the port is sent, as `Number(port)`, exactly when it is truthy, and is left out otherwise |
| AdminTenants.Payload | src/pages/AdminTenants.jsx:163-193 | the payload's slug is normalised, so it holds only slug characters |
| AdminTenants.PlanSubmit | src/pages/AdminTenants.jsx:155-206 | a missing name or slug fails with "Tenant name and slug are required"; in create mode incomplete admin credentials fail with "Tenant admin name, email, and password are required"; otherwise the request is an update exactly when the form has an id, with the payload, and a create carries the three admin credentials |
| AdminTenants.EmptyFormRejected | src/pages/AdminTenants.jsx:155-157 | the empty form cannot be submitted |
| AdminTenants.SelectedSavedByUpdate | src/pages/AdminTenants.jsx:68 | a selected tenant is saved by update, and one without an id is not saved at all, because its admin credentials are blank |
| AdminTenants.ResaveSelectedTwilio | src/pages/AdminTenants.jsx:184 | resaving a selected tenant sends recordCalls as the flag it held |
| AdminTenants.ResaveSelectedSmtp | src/pages/AdminTenants.jsx:172 | resaving a selected tenant sends a port exactly when the tenant had one |
| AdminTenants.ResaveSelectedFeatures | src/pages/AdminTenants.jsx:192 | resaving a selected tenant sends the selected feature flags |
| AdminTenants.ResaveSelectedSlug | src/pages/AdminTenants.jsx:165 | resaving a tenant whose slug is already normalised sends that slug unchanged |
| AdminTenants.TenantsScreen.constructor | src/pages/AdminTenants.jsx:63-66 | the editor starts with the empty form, not busy and with no message |
| AdminTenants.TenantsScreen.Reset | src/pages/AdminTenants.jsx:79-83 | `resetForm` restores the empty form and clears both messages |
| AdminTenants.TenantsScreen.Select | src/pages/AdminTenants.jsx:85-133 | the form becomes `SelectTenant(tenant)` |
| AdminTenants.TenantsScreen.HandleChange | src/pages/AdminTenants.jsx:135-147 | the copy-and-walk loops produce exactly `SetPath` of the old form along the split path |
| AdminTenants.TenantsScreen.Submit | src/pages/AdminTenants.jsx:149-214 | not busy afterwards. A refused plan sends nothing and shows its message. An accepted one is sent; a failed save shows the server message or "Action failed"; an update shows "Tenant updated."; a create resets the form, and that reset clears the message |
| Leads.Group | src/pages/Leads.jsx:104-108 | a stage's column as `Seqs.Filter` by stage id; `Leads.LeadsByStage`, `Leads.GroupSizesSum` and `Leads.BoardHoldsEveryLeadOnce` state the board it builds |
| Leads.StageColumns | src/pages/Leads.jsx:103 | the first loop gives an empty entry for every stage id and no other |
| Leads.PushLead | src/pages/Leads.jsx:104-108 | pushing the next lead onto its group, created when missing, keeps the board exact for the leads seen so far |
| Leads.LeadsByStage | src/pages/Leads.jsx:101-110 | the keys are the stage ids and the leads' stage ids, and each key's list is the leads of that stage in list order |
| Leads.EveryStageAndLeadHasAGroup | src/pages/Leads.jsx:103-106 | every stage has a column, even an empty one, and every lead, including one with a missing or unknown stage, is in the column of its own stage |
| Leads.GroupSizesSum | src/pages/Leads.jsx:104-108 | with each key listed once, the group sizes add up to the number of leads |
| Leads.BoardHoldsEveryLeadOnce | src/pages/Leads.jsx:101-110 | the same, for any duplicate-free listing of the board's keys |
| Leads.DefaultStage | src/pages/Leads.jsx:47-51 | an empty stage takes the first stage's id once stages exist; a chosen stage is kept |
| Leads.DefaultCounselor | src/pages/Leads.jsx:53-57 | for an admin only, an empty counselor takes the first counselor's id |
| Leads.DefaultsSettle | src/pages/Leads.jsx:47-57 | running either default effect again changes nothing |
| Leads.StartEdit | src/pages/Leads.jsx:75-92 | status defaults to "Open", consents to false, and stage and counselor to the populated id or ""; name, email, phone, source, desired program, target college and notes are the lead's |
| Leads.StartEditOfBlankLead | src/pages/Leads.jsx:6-20 | editing a lead with nothing filled in gives exactly the empty form |
| Leads.CounselorChoices | src/pages/Leads.jsx:36-40 | a non-admin gets no counselors; for an admin the choices are exactly the users with role counselor |
| Records.CounselorAccounts | src/pages/Reports.jsx:16 | the counselor filter options are exactly the listed users with role counselor |
| Selection.Remove | src/pages/Campaigns.jsx:36 | every occurrence of the id is removed and every other id is kept |
| Selection.Toggle | src/pages/Campaigns.jsx:36 | stated by `Selection.ToggleFlips`, `Selection.ToggleKeepsNoDup`, `Selection.ToggleTwiceRestores` and `Selection.ToggleTwiceSameMembers` |
| Selection.ToggleFlips | src/pages/Campaigns.jsx:36 | toggling flips the id's membership, keeps every other id, and appends an absent id at the end |
| Selection.ToggleKeepsNoDup | src/pages/Messaging.jsx:43 | a duplicate-free selection stays duplicate-free |
| Selection.ToggleTwiceRestores | src/pages/Calls.jsx:32 | toggling an unselected id twice restores the selection exactly |
| Selection.ToggleTwiceSameMembers | src/pages/Campaigns.jsx:36 | toggling a selected id twice restores the set of selected ids, with the id moved to the end |
| Selection.Upsert | src/pages/Messaging.jsx:36 | the incoming log is first, and the rest are the earlier logs without its id, in their order |
| Selection.UpsertKeepsUniqueKeys | src/pages/Calls.jsx:26 | a log list without repeated ids keeps that property after an upsert |
| Selection.FilterKeepsUniqueKeys | src/pages/Messaging.jsx:36 | filtering keeps ids distinct and keeps only elements of the original list |
| Selection.Recipients | src/pages/Messaging.jsx:46-49 | for email exactly the leads with an email, for any other channel exactly the leads with a phone |
| Selection.Callable | src/pages/Calls.jsx:35 | exactly the leads with a phone, which are the recipients of every non-email channel |
| Campaigns.WellFormed | src/pages/Campaigns.jsx:5-14 | the invariant the form keeps: at least one step and no lead selected twice |
| Campaigns.ToggleLead | src/pages/Campaigns.jsx:33-38 | only the selection changes, and the id's membership flips |
| Campaigns.AddStep | src/pages/Campaigns.jsx:40-42 | a step {1, ""} is appended and the existing steps are kept |
| Campaigns.SetField | src/pages/Campaigns.jsx:46 | only the named field of the step changes |
| Campaigns.UpdateStep | src/pages/Campaigns.jsx:44-48 | the array copy equals `UpdatedSteps`: the step at the index has one field replaced, and every other step is unchanged |
| Campaigns.OperationsKeepWellFormed | src/pages/Campaigns.jsx:12-48 | the empty campaign is well formed, and toggling a lead, adding a step and updating a step (`UpdatedSteps`) keep it so |
| Campaigns.Validate | src/pages/Campaigns.jsx:55-59 | an error exactly when the name is empty or no lead is selected, and it is "Name and leads are required." |
| Campaigns.LeadList | src/pages/Campaigns.jsx:81-84 | `Selection.Recipients` for the form's channel, stated by `Selection.Recipients` and `Campaigns.PhoneChannelsListTheSameLeads` |
| Campaigns.PhoneChannelsListTheSameLeads | src/pages/Campaigns.jsx:81-84 | SMS and WhatsApp list the same leads; only email lists a different set |
| Campaigns.CampaignScreen.constructor | src/pages/Campaigns.jsx:19-21 | the screen starts with the empty campaign and no message |
| Campaigns.CampaignScreen.Submit | src/pages/Campaigns.jsx:50-73 | an invalid form sends nothing and shows the required message; otherwise the form is sent; success shows "Campaign created." and resets the form; failure keeps the form and shows the message or "Create failed" |
| Messaging.FindTemplate | src/pages/Messaging.jsx:53 | `find` returns the first template with the id, and none exactly when no template has it |
| Messaging.TemplateChannel | src/pages/Messaging.jsx:56 | the template's channel, else "sms"; `Messaging.AppliedTemplateStaysOffered` states its effect on the picker |
| Messaging.TemplateOptions | src/pages/Messaging.jsx:93 | the picker offers exactly the templates of the current channel |
| Messaging.AppliedTemplateStaysOffered | src/pages/Messaging.jsx:51-58 | an applied template stays offered exactly when it names its own channel; one without a channel switches to SMS and drops out of the picker |
| Messaging.ValidateSend | src/pages/Messaging.jsx:63-67 | an error exactly when the content is empty or nothing is selected |
| Messaging.MessagingScreen.constructor | src/pages/Messaging.jsx:7-27 | the screen starts with the loaded lists, SMS, and nothing selected |
| Messaging.MessagingScreen.OnStatus | src/pages/Messaging.jsx:35-37 | a status event upserts the log |
| Messaging.MessagingScreen.ToggleLead | src/pages/Messaging.jsx:42-44 | the id's membership in the selection flips |
| Messaging.MessagingScreen.ApplyTemplate | src/pages/Messaging.jsx:51-58 | the id is always taken; content and channel (defaulting to "sms") only from a found template |
| Messaging.MessagingScreen.ChangeChannel | src/pages/Messaging.jsx:104-107 | a new channel clears the chosen template |
| Messaging.MessagingScreen.HandleSend | src/pages/Messaging.jsx:60-79 | an invalid send makes no call; a valid one sends the selection, content, channel, subject and template; success clears content and selection; failure keeps them and shows the message or "Send failed" |
| Calls.ValidateCall | src/pages/Calls.jsx:40-44 | an error exactly when nothing is selected |
| Calls.CallsScreen.constructor | src/pages/Calls.jsx:7-17 | the screen starts with the loaded lists and nothing selected |
| Calls.CallsScreen.OnStatus | src/pages/Calls.jsx:25-27 | a status event upserts the log |
| Calls.CallsScreen.ToggleLead | src/pages/Calls.jsx:31-33 | the id's membership in the selection flips |
| Calls.CallsScreen.HandleCall | src/pages/Calls.jsx:37-55 | an empty selection makes no call and shows "Select leads to call."; otherwise the selection is sent, and success clears it; failure shows the message or "Call failed" |
| Counselors.PlanSubmit | src/pages/Counselors.jsx:28-45 | an empty name or email fails first; an edit is sent without a blank password and with the other fields as typed; a create without a password fails with "Password is required for new counselors." |
| Counselors.Payload | src/pages/Counselors.jsx:34 | the form copied with every key; `Counselors.PlanSubmit` and `Counselors.NoBlankPasswordSent` state when the password is dropped |
| Counselors.NoBlankPasswordSent | src/pages/Counselors.jsx:33-44 | no request ever carries a blank password |
| Counselors.StartEdit | src/pages/Counselors.jsx:58-68 | the password is blank, and the other fields are the user's |
| Counselors.UnchangedEditRoundTrips | src/pages/Counselors.jsx:33-36 | saving an edit straight away sends the user back as listed, without a password |
| Counselors.CounselorsScreen.constructor | src/pages/Counselors.jsx:5-12 | the form starts empty (role counselor, active) with no edit |
| Counselors.CounselorsScreen.StartEditing | src/pages/Counselors.jsx:58-68 | the form is filled from the user, who is now being edited |
| Counselors.CounselorsScreen.Submit | src/pages/Counselors.jsx:23-56 | a refused plan sends nothing; an accepted one is sent; success resets the form and the edit and shows the update or create message; failure shows the message or "Save failed" |
| Templates.PlanSubmit | src/pages/Templates.jsx:29-42 | an error exactly when the name or content is empty; otherwise the form is the body, and the request is an update of the edited id exactly when there is one |
| Templates.StartEdit | src/pages/Templates.jsx:52-63 | channel defaults to "sms", whatsappApproved to false, and the texts are the template's |
| Templates.StartEditDefaultsMatchEmptyForm | src/pages/Templates.jsx:5 | a template with nothing optional set is edited from the empty form's defaults |
| Templates.UnchangedEditRoundTrips | src/pages/Templates.jsx:34-37 | saving an edit straight away updates the same template with its own fields |
| Templates.TemplatesScreen.constructor | src/pages/Templates.jsx:9-12 | the form starts empty with no edit |
| Templates.TemplatesScreen.StartEditing | src/pages/Templates.jsx:52-63 | the form is filled from the template, which is now being edited |
| Templates.TemplatesScreen.Submit | src/pages/Templates.jsx:24-50 | a refused plan sends nothing; an accepted one is sent; success resets the form and the edit; failure shows the message or "Save failed" |
| Reports.SearchParams.constructor | src/pages/Reports.jsx:22 | a new query has no parameter |
| Reports.SearchParams.Append | src/pages/Reports.jsx:23 | `append` adds one pair at the end |
| Reports.FilledInExactly | src/pages/Reports.jsx:22-26 | each filter is sent exactly when it is filled in, with its value, and nothing else is sent |
| Reports.AppendFilters | src/pages/Reports.jsx:23-26 | the four conditional appends add the filled-in filters in the order from, to, counselorId, stageId |
| Reports.ReportQuery | src/pages/Reports.jsx:21-29 | the report query is exactly the filled-in filters |
| Reports.ExportQuery | src/pages/Reports.jsx:31-37 | the export query is the same filters, then the format last |
| Reports.Extension | src/pages/Reports.jsx:59 | the file is ".pdf" exactly for the pdf format, and ".csv" otherwise |
| Reports.ExportHeaders | src/pages/Reports.jsx:40-47 | no content type; a bearer of the stored token exactly when one is stored; the tenant headers unchanged |
| Reports.ExportHeadersAreRequestHeadersWithoutContentType | src/pages/Reports.jsx:44-47 | the export carries the same headers as an API request without an explicit token, except the content type |
| AdminDashboard.Summarize | src/pages/AdminDashboard.jsx:17-25 | total is the number of tenants; active plus suspended is at most the total, and so is the sum of the three subscription counts |
| AdminDashboard.DisjointFiltersAdd | src/pages/AdminDashboard.jsx:19-23 | counts under two exclusive conditions add up to the count under either |
| AdminDashboard.DisplayedStatus | src/pages/AdminDashboard.jsx:72 | the status column shows the tenant's status, or "active" when it has none |
| AdminDashboard.DisplayAndCountDiffer | src/pages/AdminDashboard.jsx:19-23 | a tenant without a status shows as active, and adding a tenant without a status or subscription to any list raises the total and no other count |
| AdminDashboard.CheckoutPlan | src/pages/AdminDashboard.jsx:85 | checkout asks for the tenant's plan, else "starter" |
| Strings.Trim | src/pages/AdminTenants.jsx:56 | stated by `Strings.TrimIsSlice` and `Strings.TrimIdempotent` |
| Strings.TrimIsSlice | src/pages/AdminTenants.jsx:56 | `trim` keeps a contiguous slice that neither starts nor ends with white space, and everything it cuts is white space |
| Strings.TrimIdempotent | src/pages/Login.jsx:29 | trimming twice is trimming once |
| Strings.ToLower | src/pages/Login.jsx:29 | lower-casing keeps the length and maps each character on its own |
| Strings.Split | src/api.js:12 | at least one piece; `Strings.SplitJoin` and `Strings.SplitFirst` state the pieces |
| Strings.SplitJoin | src/api.js:12 | `split` loses no character, holds no separator in any piece, and gives one more piece than there are separators |
| Strings.SplitFirst | src/api.js:14 | the first piece is the longest prefix without a separator |
| Seqs.Filter | src/pages/Leads.jsx:40 | `filter` keeps exactly the elements that pass, and nothing else; `Seqs.FilterIsSubsequence` and `Seqs.FilterCounts` state order and multiplicity |
| Seqs.FilterIsSubsequence | src/pages/Messaging.jsx:36 | `filter` keeps the order of the input: its result is a subsequence of the input |
| Seqs.FilterCounts | src/pages/Leads.jsx:40 | every element that passes is kept as often as it occurs, and no element that fails is kept |
| Seqs.FilterAppend | src/pages/Leads.jsx:104-108 | filtering a concatenation filters each part |
| Seqs.FilterNoDup | src/pages/Campaigns.jsx:36 | filtering keeps a list free of duplicates |

## Left out

- Network and browser I/O are left out: `fetch`, URL building against `API_URL`, JSON parsing, the export download and its blob, socket.io connections, `alert`, `confirm`, `navigate`, `window.location`, timers (the preview debounce) and dates (`toISOString`, the report stamp). Server answers are method parameters. A socket event is the single upsert it triggers. Navigation is the returned path.
- The reloads after a save (`loadData`, `loadTenants`, `loadUsers`) are left out, and so is the error they set when they fail. Initial loads appear only as constructor arguments.
- React rendering, hooks and `useMemo` caching are left out. A memoised value is the function that computes it.
- `Number()` is the caller-supplied `toNumber` in `AdminTenants.PayloadSmtp`. NaN and non-numeric ports are not modelled.
- `Strings.ToLower`: lower-cases ASCII letters only, because locale-aware Unicode case mapping is not modelled. `IsSpace` is the full set of white space JavaScript recognises.
- `AdminTenants.TenantsScreen.HandleChange`: where the path runs through a text, JavaScript would spread the text's characters into index keys; the model replaces the text with an empty object instead.
- `AdminTenants.Payload`: a non-text slug is normalised as "", where JavaScript would throw on `.trim()`. Reading through a missing section gives undefined, where JavaScript would throw a TypeError.
- `AdminTenants.ResaveSelectedSlug`: stated only for a slug that is already normalised, because a raw slug is changed by normalisation on save.
- `Campaigns.SetField`: dayOffset is an integer, where `Number(e.target.value)` can also give a fraction or NaN.
- `Campaigns.CampaignScreen.Submit`: sends the schedule as typed, because the ISO conversion depends on the clock and locale.
- The Leads form's `handleSubmit`, `handleDelete` and `handleDrop` are left out. They only forward the form or an id to the server and then reload.
- Click-to-call in Calls and the deletes in Counselors, Templates and Campaigns are left out. Each is a single forwarded call.
- The billing checkout and portal redirects in AdminDashboard are left out; only the plan the checkout asks for is modelled.
- `typeof document` and `typeof window` checks are left out: a document is always present, and a missing window is a missing host in `Api.Env`.
- The sidebar's logo, user name and role footer are left out. They are display only.
- Stages, Activities, Automations, TenantBranding, Dashboard, Topbar, Layout and StatCard are not part of this model. They copy record fields into forms or display server data.
- A 204 reply to `/users/me` gives a null user. That user is not a super_admin, so the tenant lookup follows, as in the source. A null reply to `/auth/login` is not modelled: the source would dereference it.
