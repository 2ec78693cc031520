/**
 * src/pages/AdminDashboard.jsx: the platform summary over all tenants, the status column and the
 * plan a checkout asks for.
 */
module AdminDashboard {
  import opened Wrappers
  import opened Seqs

  /** A tenant as GET /admin/tenants lists it; subscription is subscription?.status. */
  datatype TenantRow = TenantRow(id: string, name: string, slug: string, status: string, plan: string, subscription: Option<string>)

  datatype Summary = Summary(total: nat, active: nat, suspended: nat, activeSubs: nat, trialing: nat, pastDue: nat)

  /** The number of tenants with the given status. */
  function WithStatus(tenants: seq<TenantRow>, status: string): nat
  {
    |Filter(tenants, (t: TenantRow) => t.status == status)|
  }

  /** The number of tenants whose subscription has the given status. */
  function WithSubscription(tenants: seq<TenantRow>, status: string): nat
  {
    |Filter(tenants, (t: TenantRow) => t.subscription == Some(status))|
  }

  /** Filters with predicates that never both hold add up to the filter by either. */
  lemma {:induction false} DisjointFiltersAdd<T>(s: seq<T>, p: T -> bool, q: T -> bool, pq: T -> bool)
    requires forall x :: !(p(x) && q(x))
    requires forall x :: pq(x) == (p(x) || q(x))
    ensures |Filter(s, p)| + |Filter(s, q)| == |Filter(s, pq)|
  {
    if s != [] {
      DisjointFiltersAdd(s[1..], p, q, pq);
    }
  }

  /** summary */
  function Summarize(tenants: seq<TenantRow>): (s: Summary)
    ensures s.total == |tenants|
    ensures s.active + s.suspended <= s.total
    ensures s.activeSubs + s.trialing + s.pastDue <= s.total
  {
    var r := Summary(
      |tenants|, WithStatus(tenants, "active"), WithStatus(tenants, "suspended"),
      WithSubscription(tenants, "active"), WithSubscription(tenants, "trialing"), WithSubscription(tenants, "past_due"));
    DisjointFiltersAdd(tenants, (t: TenantRow) => t.status == "active", (t: TenantRow) => t.status == "suspended",
      (t: TenantRow) => t.status == "active" || t.status == "suspended");
    var activeOrTrialing := (t: TenantRow) => t.subscription == Some("active") || t.subscription == Some("trialing");
    DisjointFiltersAdd(tenants, (t: TenantRow) => t.subscription == Some("active"),
      (t: TenantRow) => t.subscription == Some("trialing"), activeOrTrialing);
    DisjointFiltersAdd(tenants, activeOrTrialing, (t: TenantRow) => t.subscription == Some("past_due"),
      (t: TenantRow) => activeOrTrialing(t) || t.subscription == Some("past_due"));
    r
  }

  /** The status column: the tenant's status, "active" when it has none. */
  function DisplayedStatus(t: TenantRow): (s: string)
    ensures t.status != "" ==> s == t.status
    ensures t.status == "" ==> s == "active"
  {
    if t.status != "" then t.status else "active"
  }

  /** One more tenant adds one to the status count it matches, and to no other. */
  lemma WithStatusSnoc(tenants: seq<TenantRow>, t: TenantRow, status: string)
    ensures WithStatus(tenants + [t], status) == WithStatus(tenants, status) + (if t.status == status then 1 else 0)
  {
    FilterAppend(tenants, [t], (t: TenantRow) => t.status == status);
  }

  /** One more tenant adds one to the subscription count it matches, and to no other. */
  lemma WithSubscriptionSnoc(tenants: seq<TenantRow>, t: TenantRow, status: string)
    ensures WithSubscription(tenants + [t], status)
      == WithSubscription(tenants, status) + (if t.subscription == Some(status) then 1 else 0)
  {
    FilterAppend(tenants, [t], (t: TenantRow) => t.subscription == Some(status));
  }

  /**
   * A tenant without a status is shown as active but not counted as active, and a tenant without
   * a subscription is counted in no subscription figure: adding one to any list raises the total
   * and nothing else.
   */
  lemma DisplayAndCountDiffer(tenants: seq<TenantRow>, t: TenantRow)
    requires t.status == "" && t.subscription.None?
    ensures DisplayedStatus(t) == "active"
    ensures Summarize(tenants + [t]) == Summarize(tenants).(total := |tenants| + 1)
  {
    WithStatusSnoc(tenants, t, "active");
    WithStatusSnoc(tenants, t, "suspended");
    WithSubscriptionSnoc(tenants, t, "active");
    WithSubscriptionSnoc(tenants, t, "trialing");
    WithSubscriptionSnoc(tenants, t, "past_due");
  }

  /** The plan a checkout asks for: the tenant's, else starter. */
  function CheckoutPlan(t: TenantRow): (plan: string)
    ensures plan != ""
    ensures t.plan != "" ==> plan == t.plan
    ensures t.plan == "" ==> plan == "starter"
  {
    if t.plan != "" then t.plan else "starter"
  }
}
