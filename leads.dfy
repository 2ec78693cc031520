/**
 * src/pages/Leads.jsx: the lead board. Leads are grouped by stage for the kanban view, the form
 * gets its stage and counselor defaults once the lists arrive, and editing fills the form from a
 * lead with fallbacks for missing fields.
 */
module Leads {
  import opened Wrappers
  import opened Seqs
  import opened Records

  /** The leads whose stage id is k, in their list order: what the kanban column for k shows. */
  function Group(leads: seq<Lead>, k: Option<string>): seq<Lead>
  {
    Filter(leads, (l: Lead) => l.stage == k)
  }

  /** The keys leadsByStage ends up with: every stage id and every lead's stage id (or none). */
  function GroupKeys(stages: seq<Stage>, leads: seq<Lead>): set<Option<string>>
  {
    (set i | 0 <= i < |stages| :: Some(stages[i].id)) + (set i | 0 <= i < |leads| :: leads[i].stage)
  }

  /** Appending a lead extends exactly the group of its own stage. */
  lemma GroupSnoc(leads: seq<Lead>, l: Lead, k: Option<string>)
    ensures Group(leads + [l], k) == Group(leads, k) + (if l.stage == k then [l] else [])
  {
    FilterAppend(leads, [l], (x: Lead) => x.stage == k);
  }

  lemma GroupKeysSnoc(stages: seq<Stage>, leads: seq<Lead>, l: Lead)
    ensures GroupKeys(stages, leads + [l]) == GroupKeys(stages, leads) + {l.stage}
  {
    var after := leads + [l];
    forall x | x in GroupKeys(stages, after) ensures x in GroupKeys(stages, leads) + {l.stage} {
      if x !in (set i | 0 <= i < |stages| :: Some(stages[i].id)) {
        var i :| 0 <= i < |after| && after[i].stage == x;
        if i < |leads| {
          assert leads[i] == after[i];
        }
      }
    }
    forall x | x in GroupKeys(stages, leads) ensures x in GroupKeys(stages, after) {
      if x !in (set i | 0 <= i < |stages| :: Some(stages[i].id)) {
        var i :| 0 <= i < |leads| && leads[i].stage == x;
        assert after[i] == leads[i];
      }
    }
    assert after[|leads|] == l;
  }

  /** No lead has stage k: its group is empty. */
  lemma {:induction false} GroupOfAbsentKey(leads: seq<Lead>, k: Option<string>)
    requires forall j :: 0 <= j < |leads| ==> leads[j].stage != k
    ensures Group(leads, k) == []
  {
    if leads != [] {
      GroupOfAbsentKey(leads[1..], k);
    }
  }

  /** groups holds exactly the board of the leads in prefix: the right keys, each with its group. */
  predicate Exact(groups: map<Option<string>, seq<Lead>>, stages: seq<Stage>, prefix: seq<Lead>) {
    && groups.Keys == GroupKeys(stages, prefix)
    && forall k :: k in groups ==> groups[k] == Group(prefix, k)
  }

  /** The entry for l's stage, created empty when missing, with l pushed onto it. */
  function Push(groups: map<Option<string>, seq<Lead>>, l: Lead): map<Option<string>, seq<Lead>>
  {
    groups[l.stage := (if l.stage in groups then groups[l.stage] else []) + [l]]
  }

  /** The first loop of leadsByStage: an empty entry for each stage id. */
  method StageColumns(stages: seq<Stage>) returns (groups: map<Option<string>, seq<Lead>>)
    ensures groups.Keys == set j | 0 <= j < |stages| :: Some(stages[j].id)
    ensures forall k :: k in groups ==> groups[k] == []
  {
    groups := map[];
    var i := 0;
    while i < |stages|
      invariant 0 <= i <= |stages|
      invariant groups.Keys == set j | 0 <= j < i :: Some(stages[j].id)
      invariant forall k :: k in groups ==> groups[k] == []
    {
      groups := groups[Some(stages[i].id) := []];
      i := i + 1;
    }
  }

  /** The empty columns of the stages are the board of no leads. */
  lemma ColumnsAreEmptyBoard(groups: map<Option<string>, seq<Lead>>, stages: seq<Stage>)
    requires groups.Keys == set j | 0 <= j < |stages| :: Some(stages[j].id)
    requires forall k :: k in groups ==> groups[k] == []
    ensures Exact(groups, stages, [])
  {
    assert GroupKeys(stages, []) == set j | 0 <= j < |stages| :: Some(stages[j].id);
  }

  /** One step of the second loop: pushing the next lead onto its group keeps the board exact. */
  lemma PushLead(stages: seq<Stage>, leads: seq<Lead>, i: nat, prev: map<Option<string>, seq<Lead>>)
    requires i < |leads| && Exact(prev, stages, leads[..i])
    ensures Exact(Push(prev, leads[i]), stages, leads[..i + 1])
  {
    var prefix, l := leads[..i], leads[i];
    assert leads[..i + 1] == prefix + [l];
    var next := Push(prev, l);
    GroupKeysSnoc(stages, prefix, l);
    forall k | k in next
      ensures next[k] == Group(prefix + [l], k)
    {
      GroupSnoc(prefix, l, k);
      if k == l.stage && l.stage !in prev {
        GroupOfAbsentKey(prefix, k);
      }
    }
  }

  /**
   * leadsByStage: one entry per stage (empty when no lead is in it), then each lead pushed onto
   * the entry of its stage id, created on the fly for an unknown or missing stage.
   */
  method LeadsByStage(stages: seq<Stage>, leads: seq<Lead>) returns (groups: map<Option<string>, seq<Lead>>)
    ensures groups.Keys == GroupKeys(stages, leads)
    ensures forall k :: k in groups ==> groups[k] == Group(leads, k)
  {
    groups := StageColumns(stages);
    ColumnsAreEmptyBoard(groups, stages);
    var i := 0;
    while i < |leads|
      invariant 0 <= i <= |leads|
      invariant Exact(groups, stages, leads[..i])
    {
      PushLead(stages, leads, i, groups);
      groups := Push(groups, leads[i]);
      i := i + 1;
    }
    assert leads[..i] == leads;
  }

  /** Every stage has a column, even an empty one, and a lead sits in the column of its stage. */
  lemma EveryStageAndLeadHasAGroup(stages: seq<Stage>, leads: seq<Lead>)
    ensures forall i :: 0 <= i < |stages| ==> Some(stages[i].id) in GroupKeys(stages, leads)
    ensures forall i :: 0 <= i < |leads| ==> leads[i].stage in GroupKeys(stages, leads) && leads[i] in Group(leads, leads[i].stage)
  {
  }

  /** The sum of the sizes of the groups under keys. */
  function SumSizes(keys: seq<Option<string>>, leads: seq<Lead>): nat
  {
    if keys == [] then 0 else |Group(leads, keys[0])| + SumSizes(keys[1..], leads)
  }

  /** How many times x is listed in keys. */
  function Occurrences(keys: seq<Option<string>>, x: Option<string>): nat
  {
    if keys == [] then 0 else (if keys[0] == x then 1 else 0) + Occurrences(keys[1..], x)
  }

  lemma {:induction false} OccurrencesOfListed(keys: seq<Option<string>>, x: Option<string>)
    requires NoDup(keys)
    ensures Occurrences(keys, x) == if x in keys then 1 else 0
  {
    if keys != [] {
      OccurrencesOfListed(keys[1..], x);
      assert keys[0] !in keys[1..];
      assert x in keys <==> x == keys[0] || x in keys[1..];
    }
  }

  lemma {:induction false} SumSizesOfNoLeads(keys: seq<Option<string>>)
    ensures SumSizes(keys, []) == 0
  {
    if keys != [] {
      SumSizesOfNoLeads(keys[1..]);
    }
  }

  /** Taking away the first lead shrinks the total by the number of columns keyed by its stage. */
  lemma {:induction false} SumSizesCons(keys: seq<Option<string>>, leads: seq<Lead>)
    requires leads != []
    ensures SumSizes(keys, leads) == SumSizes(keys, leads[1..]) + Occurrences(keys, leads[0].stage)
  {
    if keys != [] {
      SumSizesCons(keys[1..], leads);
      assert |Group(leads, keys[0])| == |Group(leads[1..], keys[0])| + (if leads[0].stage == keys[0] then 1 else 0);
    }
  }

  /**
   * Each lead lands in exactly one group: listing each key once, the group sizes add up to the
   * number of leads.
   */
  lemma {:induction false} GroupSizesSum(keys: seq<Option<string>>, leads: seq<Lead>)
    requires NoDup(keys)
    requires forall i :: 0 <= i < |leads| ==> leads[i].stage in keys
    ensures SumSizes(keys, leads) == |leads|
  {
    if leads == [] {
      SumSizesOfNoLeads(keys);
    } else {
      SumSizesCons(keys, leads);
      OccurrencesOfListed(keys, leads[0].stage);
      GroupSizesSum(keys, leads[1..]);
    }
  }

  /** The same, stated for any duplicate-free listing of the keys leadsByStage produces. */
  lemma BoardHoldsEveryLeadOnce(stages: seq<Stage>, leads: seq<Lead>, keys: seq<Option<string>>)
    requires NoDup(keys)
    requires forall k :: k in keys <==> k in GroupKeys(stages, leads)
    ensures SumSizes(keys, leads) == |leads|
  {
    forall i | 0 <= i < |leads| ensures leads[i].stage in keys {
      assert leads[i].stage in GroupKeys(stages, leads);
    }
    GroupSizesSum(keys, leads);
  }

  /** The form as the page holds it; stage and counselor are ids, "" for none. */
  datatype LeadForm = LeadForm(
    fullName: string, email: string, phone: string, source: string, desiredProgram: string,
    targetCollege: string, stage: string, counselor: string, status: string,
    consentSms: bool, consentCall: bool, consentEmail: bool, notes: string)

  const EmptyLead := LeadForm("", "", "", "", "", "", "", "", "Open", false, false, false, "")

  /** The default-stage effect: an empty form stage takes the first stage's id once stages exist. */
  function DefaultStage(formStage: string, stages: seq<Stage>): (s: string)
    ensures formStage != "" ==> s == formStage
    ensures formStage == "" && |stages| > 0 ==> s == stages[0].id
    ensures formStage == "" && |stages| == 0 ==> s == ""
  {
    if formStage == "" && |stages| > 0 then stages[0].id else formStage
  }

  /** The default-counselor effect: for an admin, an empty counselor takes the first counselor's id. */
  function DefaultCounselor(role: Option<string>, formCounselor: string, counselors: seq<Account>): (c: string)
    ensures role == Some("admin") && formCounselor == "" && |counselors| > 0 ==> c == counselors[0].id
    ensures !(role == Some("admin") && formCounselor == "" && |counselors| > 0) ==> c == formCounselor
  {
    if role == Some("admin") && formCounselor == "" && |counselors| > 0 then counselors[0].id else formCounselor
  }

  /** Running either effect again changes nothing: the defaults settle after one pass. */
  lemma DefaultsSettle(formStage: string, stages: seq<Stage>, role: Option<string>, formCounselor: string, counselors: seq<Account>)
    ensures DefaultStage(DefaultStage(formStage, stages), stages) == DefaultStage(formStage, stages)
    ensures DefaultCounselor(role, DefaultCounselor(role, formCounselor, counselors), counselors)
      == DefaultCounselor(role, formCounselor, counselors)
  {
  }

  /** startEdit: the form filled from a lead, each missing field falling back to the empty form's. */
  function StartEdit(lead: Lead): (f: LeadForm)
    ensures f.status == (if lead.status != "" then lead.status else "Open")
    ensures f.consentSms == (lead.consentSms == Some(true))
    ensures f.consentCall == (lead.consentCall == Some(true))
    ensures f.consentEmail == (lead.consentEmail == Some(true))
    ensures f.stage == (if lead.stage.Some? then lead.stage.value else "")
    ensures f.counselor == (if lead.counselor.Some? then lead.counselor.value else "")
    ensures f.fullName == lead.fullName && f.email == lead.email && f.phone == lead.phone && f.notes == lead.notes
    ensures f.source == lead.source && f.desiredProgram == lead.desiredProgram && f.targetCollege == lead.targetCollege
  {
    LeadForm(
      lead.fullName, lead.email, lead.phone, lead.source, lead.desiredProgram, lead.targetCollege,
      lead.stage.GetOr(""), lead.counselor.GetOr(""),
      if lead.status != "" then lead.status else "Open",
      lead.consentSms.GetOr(false), lead.consentCall.GetOr(false), lead.consentEmail.GetOr(false),
      lead.notes)
  }

  /** Editing a lead that has nothing filled in gives exactly the empty form. */
  lemma StartEditOfBlankLead(id: string)
    ensures StartEdit(Lead(id, "", "", "", "", "", "", None, None, "", None, None, None, "")) == EmptyLead
  {
  }

  /** Whether loadData asks for GET /users: for an admin only. */
  predicate FetchesUsers(role: Option<string>) { role == Some("admin") }

  /** The counselor choices: the listed users with role counselor, and none for a non-admin. */
  function CounselorChoices(role: Option<string>, users: seq<Account>): (r: seq<Account>)
    ensures !FetchesUsers(role) ==> r == []
    ensures forall i :: 0 <= i < |r| ==> r[i] in users && r[i].role == "counselor"
    ensures FetchesUsers(role) ==> forall i :: 0 <= i < |users| && users[i].role == "counselor" ==> users[i] in r
  {
    if FetchesUsers(role) then CounselorAccounts(users) else []
  }
}
