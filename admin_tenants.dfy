/**
 * src/pages/AdminTenants.jsx: the super-admin tenant editor. The slug is normalised as it is typed
 * and again on submit, the form is a tree of objects updated by dotted path, selecting a tenant
 * fills the form with defaults, and submitting checks the required fields and shapes the payload.
 */
module AdminTenants {
  import opened Wrappers
  import opened Strings
  import opened JsonValues

  /** The characters a normalised slug keeps: the class [a-z0-9-]. */
  predicate IsSlugChar(c: char) {
    ('a' <= c <= 'z') || ('0' <= c <= '9') || c == '-'
  }

  /** .replace(/\s+/g, "-"): each maximal run of white space becomes one '-'. */
  function DashRuns(s: string): (r: string)
    decreases |s|
  {
    if s == [] then []
    else if IsSpace(s[0]) then
      var rest := TrimStart(s);
      assert |rest| < |s|;
      "-" + DashRuns(rest)
    else [s[0]] + DashRuns(s[1..])
  }

  /** .replace(/[^a-z0-9-]/g, "") */
  function Strip(s: string): string
  {
    if s == [] then [] else (if IsSlugChar(s[0]) then [s[0]] else []) + Strip(s[1..])
  }

  /** What Strip keeps are slug characters. */
  lemma {:induction false} StripChars(s: string)
    ensures forall i :: 0 <= i < |Strip(s)| ==> IsSlugChar(Strip(s)[i])
  {
    if s != [] {
      StripChars(s[1..]);
    }
  }

  /** Strip keeps a string made of slug characters as it is. */
  lemma {:induction false} StripAll(s: string)
    requires forall i :: 0 <= i < |s| ==> IsSlugChar(s[i])
    ensures Strip(s) == s
  {
    if s != [] {
      StripAll(s[1..]);
      assert s == [s[0]] + s[1..];
    }
  }

  /** Strip works piece by piece. */
  lemma {:induction false} StripAppend(a: string, b: string)
    ensures Strip(a + b) == Strip(a) + Strip(b)
  {
    if a == [] {
      assert a + b == b;
    } else {
      var ab := a + b;
      assert ab[0] == a[0];
      assert ab[1..] == a[1..] + b;
      StripAppend(a[1..], b);
      assert Strip(ab) == (if IsSlugChar(a[0]) then [a[0]] else []) + Strip(a[1..] + b);
    }
  }

  /** normalizeSlug: trim, lower-case, dash the white-space runs, drop every other character. */
  function NormalizeSlug(s: string): string
  {
    Strip(DashRuns(ToLower(Trim(s))))
  }

  /** A normalised slug is made of the characters [a-z0-9-] only. */
  lemma NormalizeSlugChars(s: string)
    ensures forall i :: 0 <= i < |NormalizeSlug(s)| ==> IsSlugChar(NormalizeSlug(s)[i])
  {
    StripChars(DashRuns(ToLower(Trim(s))));
  }

  lemma NoSpaceTrimmed(s: string)
    requires NoSpace(s)
    ensures TrimStart(s) == s && TrimEnd(s) == s && Trim(s) == s
  {
  }

  lemma {:induction false} NoSpaceUndashed(s: string)
    requires NoSpace(s)
    ensures DashRuns(s) == s
  {
    if s != [] {
      NoSpaceUndashed(s[1..]);
    }
  }

  lemma {:induction false} DashRunsAfterWord(a: string, rest: string)
    requires NoSpace(a)
    ensures DashRuns(a + rest) == a + DashRuns(rest)
  {
    if a != [] {
      assert (a + rest)[0] == a[0];
      assert (a + rest)[1..] == a[1..] + rest;
      DashRunsAfterWord(a[1..], rest);
      assert [a[0]] + (a[1..] + DashRuns(rest)) == a + DashRuns(rest);
    } else {
      assert a + rest == rest;
    }
  }

  lemma {:induction false} TrimStartOfRun(ws: string, b: string)
    requires forall i :: 0 <= i < |ws| ==> IsSpace(ws[i])
    requires b == [] || !IsSpace(b[0])
    ensures TrimStart(ws + b) == b
  {
    if ws != [] {
      assert (ws + b)[1..] == ws[1..] + b;
      TrimStartOfRun(ws[1..], b);
    } else {
      assert ws + b == b;
    }
  }

  lemma SlugCharsNoSpace(t: string)
    requires forall i :: 0 <= i < |t| ==> IsSlugChar(t[i])
    ensures NoSpace(t)
  {
  }

  lemma SlugCharsLower(t: string)
    requires forall i :: 0 <= i < |t| ==> IsSlugChar(t[i])
    ensures ToLower(t) == t
  {
    assert forall i :: 0 <= i < |t| ==> LowerChar(t[i]) == t[i];
  }

  /** A normalised slug is left as it is by every step. */
  lemma SlugFixed(t: string)
    requires forall i :: 0 <= i < |t| ==> IsSlugChar(t[i])
    ensures Trim(t) == t && ToLower(t) == t && DashRuns(t) == t && Strip(t) == t
  {
    SlugCharsNoSpace(t);
    SlugCharsLower(t);
    NoSpaceTrimmed(t);
    NoSpaceUndashed(t);
    StripAll(t);
  }

  /**
   * normalizeSlug is idempotent, so normalising on every keystroke and again on submit agrees;
   * and the login screen's trim-and-lower-case leaves a normalised slug as it is.
   */
  lemma NormalizeSlugIdempotent(s: string)
    ensures NormalizeSlug(NormalizeSlug(s)) == NormalizeSlug(s)
    ensures ToLower(Trim(NormalizeSlug(s))) == NormalizeSlug(s)
  {
    NormalizeSlugChars(s);
    SlugFixed(NormalizeSlug(s));
  }

  /** Leading and trailing white space never reaches the slug. */
  lemma NormalizeSlugIgnoresOuterSpace(s: string)
    ensures NormalizeSlug(s) == NormalizeSlug(Trim(s))
  {
    TrimIdempotent(s);
  }

  lemma LowerConcat(x: string, y: string)
    ensures ToLower(x + y) == ToLower(x) + ToLower(y)
  {
    assert forall i :: 0 <= i < |x + y| ==> ToLower(x + y)[i] == (ToLower(x) + ToLower(y))[i];
  }

  lemma LowerKeepsSpaces(x: string)
    ensures forall i :: 0 <= i < |x| ==> (IsSpace(ToLower(x)[i]) <==> IsSpace(x[i]))
  {
    forall i | 0 <= i < |x| ensures IsSpace(ToLower(x)[i]) <==> IsSpace(x[i]) {
      LowerCharKeepsSpace(x[i]);
    }
  }

  lemma StripAroundDash(a: string, b: string)
    ensures Strip(a + "-" + b) == Strip(a) + "-" + Strip(b)
  {
    StripAppend(a + "-", b);
    StripAppend(a, "-");
    assert Strip("-") == "-";
  }

  /** A word without white space is normalised by lower-casing and stripping alone. */
  lemma NormalizeWord(a: string)
    requires NoSpace(a)
    ensures NormalizeSlug(a) == Strip(ToLower(a))
  {
    NoSpaceTrimmed(a);
    LowerKeepsSpaces(a);
    NoSpaceUndashed(ToLower(a));
  }

  /** A string that neither starts nor ends with white space is its own trim. */
  lemma TrimOfInnerText(s: string)
    requires s != [] && !IsSpace(s[0]) && !IsSpace(s[|s| - 1])
    ensures Trim(s) == s
  {
  }

  /** After a word, a run of white space and a text that starts with no space: one dash. */
  lemma DashAfterWordRun(a: string, ws: string, rest: string)
    requires NoSpace(a)
    requires ws != [] && forall i :: 0 <= i < |ws| ==> IsSpace(ws[i])
    requires rest != [] && !IsSpace(rest[0])
    ensures DashRuns(a + ws + rest) == a + "-" + DashRuns(rest)
  {
    assert a + ws + rest == a + (ws + rest);
    DashRunsAfterWord(a, ws + rest);
    assert (ws + rest)[0] == ws[0];
    TrimStartOfRun(ws, rest);
  }

  /** Lower-casing word, run, text lower-cases each part and keeps white space where it was. */
  lemma LowerThreeParts(a: string, ws: string, rest: string)
    requires NoSpace(a)
    requires forall i :: 0 <= i < |ws| ==> IsSpace(ws[i])
    requires rest != [] && !IsSpace(rest[0])
    ensures ToLower(a + ws + rest) == ToLower(a) + ToLower(ws) + ToLower(rest)
    ensures NoSpace(ToLower(a)) && !IsSpace(ToLower(rest)[0])
    ensures forall i :: 0 <= i < |ToLower(ws)| ==> IsSpace(ToLower(ws)[i])
  {
    LowerConcat(a + ws, rest);
    LowerConcat(a, ws);
    LowerKeepsSpaces(a);
    LowerKeepsSpaces(ws);
    LowerKeepsSpaces(rest);
  }

  /**
   * Each interior run of white space becomes a single '-', however long the run: after a leading
   * word the slug is that word, one dash, and the normalised rest, which may hold further runs.
   */
  lemma SpaceRunSplitsSlug(a: string, ws: string, rest: string)
    requires a != [] && NoSpace(a)
    requires ws != [] && forall i :: 0 <= i < |ws| ==> IsSpace(ws[i])
    requires rest != [] && !IsSpace(rest[0]) && !IsSpace(rest[|rest| - 1])
    ensures NormalizeSlug(a + ws + rest) == NormalizeSlug(a) + "-" + NormalizeSlug(rest)
  {
    var s := a + ws + rest;
    assert s[0] == a[0] && s[|s| - 1] == rest[|rest| - 1];
    TrimOfInnerText(s);
    TrimOfInnerText(rest);
    LowerThreeParts(a, ws, rest);
    DashAfterWordRun(ToLower(a), ToLower(ws), ToLower(rest));
    StripAroundDash(ToLower(a), DashRuns(ToLower(rest)));
    NormalizeWord(a);
  }

  /** The case of two words: white space between them becomes a single '-'. */
  lemma SpaceRunBecomesOneDash(a: string, ws: string, b: string)
    requires a != [] && b != [] && ws != [] && NoSpace(a) && NoSpace(b)
    requires forall i :: 0 <= i < |ws| ==> IsSpace(ws[i])
    ensures NormalizeSlug(a + ws + b) == NormalizeSlug(a) + "-" + NormalizeSlug(b)
  {
    SpaceRunSplitsSlug(a, ws, b);
  }

  /** Three words and two runs, as in "New  York  City": every run is one dash. */
  lemma TwoRunsTwoDashes(a: string, w1: string, b: string, w2: string, c: string)
    requires a != [] && b != [] && c != [] && NoSpace(a) && NoSpace(b) && NoSpace(c)
    requires w1 != [] && forall i :: 0 <= i < |w1| ==> IsSpace(w1[i])
    requires w2 != [] && forall i :: 0 <= i < |w2| ==> IsSpace(w2[i])
    ensures NormalizeSlug(a + w1 + (b + w2 + c))
      == NormalizeSlug(a) + "-" + (NormalizeSlug(b) + "-" + NormalizeSlug(c))
  {
    var rest := b + w2 + c;
    assert rest[0] == b[0] && rest[|rest| - 1] == c[|c| - 1];
    SpaceRunSplitsSlug(a, w1, rest);
    SpaceRunSplitsSlug(b, w2, c);
  }

  /** The tenant form: the root object of the tree handleChange edits. */
  type Form = map<string, Json>

  /** v?.k: the property k of an object, undefined for anything else. */
  function At(v: Json, k: string): Json
  {
    Get(Fields(v), k)
  }

  const EmptyBranding: map<string, Json> :=
    map["logoUrl" := Str(""), "primaryColor" := Str(""), "secondaryColor" := Str(""), "theme" := Str("")]
  const EmptySmtp: map<string, Json> :=
    map["host" := Str(""), "port" := Str(""), "user" := Str(""), "pass" := Str(""), "from" := Str("")]
  const EmptyTwilio: map<string, Json> := map[
    "accountSid" := Str(""), "authToken" := Str(""), "fromSms" := Str(""), "fromWhatsApp" := Str(""),
    "fromCall" := Str(""), "twimlUrl" := Str(""), "recordCalls" := Bool(false), "recordingCallbackUrl" := Str("")]
  const EmptyWhatsapp: map<string, Json> := map["businessToken" := Str(""), "businessId" := Str("")]
  const EmptyFeatures: map<string, Json> := map[
    "campaigns" := Bool(false), "automations" := Bool(false), "messaging" := Bool(true),
    "calling" := Bool(true), "reports" := Bool(true)]
  const EmptySettings: map<string, Json> :=
    map["smtp" := Obj(EmptySmtp), "twilio" := Obj(EmptyTwilio), "whatsapp" := Obj(EmptyWhatsapp)]
  const BlankAdmin: map<string, Json> := map["name" := Str(""), "email" := Str(""), "password" := Str("")]

  /** emptyTenant */
  const EmptyTenant: Form := map[
    "id" := Str(""), "name" := Str(""), "slug" := Str(""), "plan" := Str("starter"), "status" := Str("active"),
    "branding" := Obj(EmptyBranding),
    "settings" := Obj(EmptySettings),
    "features" := Obj(EmptyFeatures),
    "admin" := Obj(BlankAdmin)]

  /**
   * The form after handleChange(keys joined by '.', value): every object on the way copied (a
   * missing or non-object one becomes {}), the leaf set.
   */
  function SetPath(m: Form, keys: seq<string>, value: Json): Form
    requires |keys| >= 1
    decreases |keys|
  {
    if |keys| == 1 then m[keys[0] := value]
    else m[keys[0] := Obj(SetPath(Fields(Get(m, keys[0])), keys[1..], value))]
  }

  /** Reading back the path just written gives the value written. */
  lemma {:induction false} SetPathThenLookup(m: Form, keys: seq<string>, value: Json)
    requires |keys| >= 1
    ensures Lookup(Obj(SetPath(m, keys, value)), keys) == value
    decreases |keys|
  {
    if |keys| > 1 {
      SetPathThenLookup(Fields(Get(m, keys[0])), keys[1..], value);
    }
  }

  /**
   * Every leaf off the written path reads as before: a path that leaves keys at step i is looked
   * up in the copies exactly as in the originals.
   */
  lemma {:induction false} SetPathKeepsOtherPaths(m: Form, keys: seq<string>, value: Json, q: seq<string>, i: nat)
    requires i < |keys| && i < |q| && q[..i] == keys[..i] && q[i] != keys[i]
    ensures Lookup(Obj(SetPath(m, keys, value)), q) == Lookup(Obj(m), q)
    decreases i
  {
    if i > 0 {
      assert q[0] == keys[0] by {
        assert q[..i][0] == keys[..i][0];
      }
      assert q[1..][..i - 1] == keys[1..][..i - 1] by {
        assert q[1..][..i - 1] == q[..i][1..];
        assert keys[1..][..i - 1] == keys[..i][1..];
      }
      var inner := Fields(Get(m, keys[0]));
      SetPathKeepsOtherPaths(inner, keys[1..], value, q[1..], i - 1);
    }
  }

  /** Writing the same path twice keeps only the second write. */
  lemma {:induction false} SetPathOverwrites(m: Form, keys: seq<string>, v1: Json, v2: Json)
    requires |keys| >= 1
    ensures SetPath(SetPath(m, keys, v1), keys, v2) == SetPath(m, keys, v2)
    decreases |keys|
  {
    if |keys| > 1 {
      SetPathOverwrites(Fields(Get(m, keys[0])), keys[1..], v1, v2);
    }
  }

  /** v?.k || "" */
  function Text(v: Json, k: string): Json
  {
    Or(At(v, k), Str(""))
  }

  function SelectBranding(b: Json): map<string, Json>
  {
    map["logoUrl" := Text(b, "logoUrl"), "primaryColor" := Text(b, "primaryColor"),
        "secondaryColor" := Text(b, "secondaryColor"), "theme" := Text(b, "theme")]
  }

  function SelectSmtp(s: Json): map<string, Json>
  {
    map["host" := Text(s, "host"), "port" := Text(s, "port"), "user" := Text(s, "user"),
        "pass" := Text(s, "pass"), "from" := Text(s, "from")]
  }

  function SelectTwilio(t: Json): map<string, Json>
  {
    map["accountSid" := Text(t, "accountSid"), "authToken" := Text(t, "authToken"),
        "fromSms" := Text(t, "fromSms"), "fromWhatsApp" := Text(t, "fromWhatsApp"),
        "fromCall" := Text(t, "fromCall"), "twimlUrl" := Text(t, "twimlUrl"),
        "recordCalls" := Bool(Truthy(At(t, "recordCalls"))),
        "recordingCallbackUrl" := Text(t, "recordingCallbackUrl")]
  }

  function SelectWhatsapp(w: Json): map<string, Json>
  {
    map["businessToken" := Text(w, "businessToken"), "businessId" := Text(w, "businessId")]
  }

  function SelectFeatures(f: Json): map<string, Json>
  {
    map["campaigns" := Bool(Truthy(At(f, "campaigns"))), "automations" := Bool(Truthy(At(f, "automations"))),
        "messaging" := Bool(At(f, "messaging") != Bool(false)), "calling" := Bool(At(f, "calling") != Bool(false)),
        "reports" := Bool(At(f, "reports") != Bool(false))]
  }

  function SelectSettings(settings: Json): map<string, Json>
  {
    map["smtp" := Obj(SelectSmtp(At(settings, "smtp"))), "twilio" := Obj(SelectTwilio(At(settings, "twilio"))),
        "whatsapp" := Obj(SelectWhatsapp(At(settings, "whatsapp")))]
  }

  /** selectTenant: the form filled from a listed tenant, each missing field taking its default. */
  function SelectTenant(tenant: Json): Form
  {
    map[
      "id" := At(tenant, "_id"), "name" := Text(tenant, "name"), "slug" := Text(tenant, "slug"),
      "plan" := Or(At(tenant, "plan"), Str("starter")), "status" := Or(At(tenant, "status"), Str("active")),
      "branding" := Obj(SelectBranding(At(tenant, "branding"))),
      "settings" := Obj(SelectSettings(At(tenant, "settings"))),
      "features" := Obj(SelectFeatures(At(tenant, "features"))),
      "admin" := Obj(BlankAdmin)]
  }

  /** A selected tenant always has a plan and a status, its own when it has them. */
  lemma SelectedPlanAndStatus(tenant: Json)
    ensures var f := SelectTenant(tenant);
      && Truthy(f["plan"]) && Truthy(f["status"])
      && (Truthy(At(tenant, "plan")) ==> f["plan"] == At(tenant, "plan"))
      && (!Truthy(At(tenant, "plan")) ==> f["plan"] == Str("starter"))
      && (Truthy(At(tenant, "status")) ==> f["status"] == At(tenant, "status"))
      && (!Truthy(At(tenant, "status")) ==> f["status"] == Str("active"))
      && f["id"] == At(tenant, "_id") && f["admin"] == Obj(BlankAdmin)
  {
  }

  /**
   * Feature flags: each is a flag; campaigns and automations are on only when the tenant turned
   * them on, messaging, calling and reports are off only when the tenant turned them off.
   */
  lemma SelectedFeatures(features: Json)
    ensures var f := SelectFeatures(features);
      && f.Keys == EmptyFeatures.Keys
      && (forall k :: k in f ==> f[k].Bool?)
      && (f["campaigns"].b <==> Truthy(At(features, "campaigns")))
      && (f["automations"].b <==> Truthy(At(features, "automations")))
      && (!f["messaging"].b <==> At(features, "messaging") == Bool(false))
      && (!f["calling"].b <==> At(features, "calling") == Bool(false))
      && (!f["reports"].b <==> At(features, "reports") == Bool(false))
  {
  }

  /** A text field takes the tenant's value when it is set and the empty text otherwise. */
  lemma SelectedText(v: Json, k: string)
    ensures Truthy(Text(v, k)) <==> Truthy(At(v, k))
    ensures Truthy(At(v, k)) ==> Text(v, k) == At(v, k)
    ensures !Truthy(At(v, k)) ==> Text(v, k) == Str("")
  {
  }

  /** recordCalls is selected as a flag, on exactly when the tenant's value is truthy. */
  lemma SelectedRecordCalls(twilio: Json)
    ensures SelectTwilio(twilio)["recordCalls"] == Bool(Truthy(At(twilio, "recordCalls")))
  {
  }

  /** Each section selected from nothing is that section of the empty form. */
  lemma SelectBlankSections()
    ensures SelectBranding(Missing) == EmptyBranding
    ensures SelectSmtp(Missing) == EmptySmtp
    ensures SelectTwilio(Missing) == EmptyTwilio
    ensures SelectWhatsapp(Missing) == EmptyWhatsapp
    ensures SelectFeatures(Missing) == EmptyFeatures
    ensures SelectSettings(Missing) == EmptySettings
  {
  }

  /** Selecting a tenant that has nothing set gives the empty form under that tenant's id. */
  lemma SelectBlankTenant(id: string)
    ensures SelectTenant(Obj(map["_id" := Str(id)])) == EmptyTenant["id" := Str(id)]
  {
    SelectBlankSections();
  }

  const NameSlugRequired := "Tenant name and slug are required"
  const AdminRequired := "Tenant admin name, email, and password are required"
  const ActionFailed := "Action failed"
  const Updated := "Tenant updated."
  const Created := "Tenant created."

  /** isEdit: the form holds a tenant id. */
  predicate IsEdit(form: Form) {
    Truthy(Get(form, "id"))
  }

  /** The admin credentials a new tenant needs are all filled in. */
  predicate AdminComplete(form: Form) {
    var admin := Get(form, "admin");
    Truthy(At(admin, "name")) && Truthy(At(admin, "email")) && Truthy(At(admin, "password"))
  }

  /** The text normalizeSlug is applied to. */
  function SlugText(v: Json): string
  {
    if v.Str? then v.s else ""
  }

  /** The smtp settings sent; port is None when it is left undefined. */
  datatype SmtpPayload = SmtpPayload(host: Json, port: Option<int>, user: Json, pass: Json, from: Json)

  datatype TwilioPayload = TwilioPayload(
    accountSid: Json, authToken: Json, fromSms: Json, fromWhatsApp: Json, fromCall: Json, twimlUrl: Json,
    recordCalls: bool, recordingCallbackUrl: Json)

  datatype WhatsappPayload = WhatsappPayload(businessToken: Json, businessId: Json)

  /** The JSON body of a save, one field per key it carries. */
  datatype TenantPayload = TenantPayload(
    name: Json, slug: string, plan: Json, status: Json, branding: Json,
    smtp: SmtpPayload, twilio: TwilioPayload, whatsapp: WhatsappPayload, features: Json)

  /** The smtp part of the payload. toNumber is JavaScript's Number(); an empty port is left out. */
  function PayloadSmtp(smtp: Json, toNumber: Json -> int): (p: SmtpPayload)
    ensures p.port.Some? <==> Truthy(At(smtp, "port"))
    ensures p.port.Some? ==> p.port.value == toNumber(At(smtp, "port"))
  {
    var port := At(smtp, "port");
    SmtpPayload(At(smtp, "host"), if Truthy(port) then Some(toNumber(port)) else None,
      At(smtp, "user"), At(smtp, "pass"), At(smtp, "from"))
  }

  function PayloadTwilio(twilio: Json): TwilioPayload
  {
    TwilioPayload(At(twilio, "accountSid"), At(twilio, "authToken"), At(twilio, "fromSms"),
      At(twilio, "fromWhatsApp"), At(twilio, "fromCall"), At(twilio, "twimlUrl"),
      Truthy(At(twilio, "recordCalls")), At(twilio, "recordingCallbackUrl"))
  }

  /** The payload object of handleSubmit, with the slug normalised. */
  function Payload(form: Form, toNumber: Json -> int): (p: TenantPayload)
    ensures forall i :: 0 <= i < |p.slug| ==> IsSlugChar(p.slug[i])
  {
    NormalizeSlugChars(SlugText(Get(form, "slug")));
    var settings := Get(form, "settings");
    var whatsapp := At(settings, "whatsapp");
    TenantPayload(
      Get(form, "name"), NormalizeSlug(SlugText(Get(form, "slug"))), Get(form, "plan"), Get(form, "status"),
      Get(form, "branding"),
      PayloadSmtp(At(settings, "smtp"), toNumber),
      PayloadTwilio(At(settings, "twilio")),
      WhatsappPayload(At(whatsapp, "businessToken"), At(whatsapp, "businessId")),
      Get(form, "features"))
  }

  /** PUT /admin/tenants/:id with the payload, or POST /admin/tenants with the admin credentials added. */
  datatype TenantRequest =
    | UpdateTenant(id: Json, payload: TenantPayload)
    | CreateTenant(payload: TenantPayload, adminName: Json, adminEmail: Json, adminPassword: Json)

  /** The decision handleSubmit takes before any call: the error raised, or the request sent. */
  function PlanSubmit(form: Form, toNumber: Json -> int): (r: Result<TenantRequest>)
    ensures !Truthy(Get(form, "name")) || !Truthy(Get(form, "slug")) ==> r == Err(NameSlugRequired)
    ensures Truthy(Get(form, "name")) && Truthy(Get(form, "slug")) && !IsEdit(form) && !AdminComplete(form) ==>
      r == Err(AdminRequired)
    ensures r.Ok? <==> Truthy(Get(form, "name")) && Truthy(Get(form, "slug")) && (IsEdit(form) || AdminComplete(form))
    ensures r.Ok? ==> (r.value.UpdateTenant? <==> IsEdit(form)) && r.value.payload == Payload(form, toNumber)
    ensures r.Ok? && r.value.UpdateTenant? ==> r.value.id == Get(form, "id")
    ensures r.Ok? && r.value.CreateTenant? ==>
      (var admin := Get(form, "admin");
       && Truthy(r.value.adminName) && Truthy(r.value.adminEmail) && Truthy(r.value.adminPassword)
       && r.value.adminName == At(admin, "name") && r.value.adminEmail == At(admin, "email")
       && r.value.adminPassword == At(admin, "password"))
  {
    if !Truthy(Get(form, "name")) || !Truthy(Get(form, "slug")) then Err(NameSlugRequired)
    else if !IsEdit(form) && !AdminComplete(form) then Err(AdminRequired)
    else
      var payload := Payload(form, toNumber);
      var admin := Get(form, "admin");
      if IsEdit(form) then Ok(UpdateTenant(Get(form, "id"), payload))
      else Ok(CreateTenant(payload, At(admin, "name"), At(admin, "email"), At(admin, "password")))
  }

  /** The empty form cannot be submitted. */
  lemma EmptyFormRejected(toNumber: Json -> int)
    ensures PlanSubmit(EmptyTenant, toNumber) == Err(NameSlugRequired)
  {
    assert Get(EmptyTenant, "name") == Str("");
  }

  /** A selected tenant is saved by update, or not at all when it has no id. */
  lemma SelectedSavedByUpdate(tenant: Json, toNumber: Json -> int)
    ensures var r := PlanSubmit(SelectTenant(tenant), toNumber);
      && (Truthy(At(tenant, "_id")) && r.Ok? ==> r.value.UpdateTenant?)
      && (!Truthy(At(tenant, "_id")) ==> r.Err?)
  {
    var f := SelectTenant(tenant);
    SelectedPlanAndStatus(tenant);
    assert Get(f, "id") == At(tenant, "_id");
    assert Get(f, "admin") == Obj(BlankAdmin);
  }

  /** The twilio settings of a selected tenant are saved with recordCalls the flag it held. */
  lemma ResaveSelectedTwilio(twilio: Json)
    ensures PayloadTwilio(Obj(SelectTwilio(twilio))).recordCalls == Truthy(At(twilio, "recordCalls"))
  {
    SelectedRecordCalls(twilio);
  }

  /** The smtp settings of a selected tenant are saved with a port exactly when the tenant had one. */
  lemma ResaveSelectedSmtp(smtp: Json, toNumber: Json -> int)
    ensures PayloadSmtp(Obj(SelectSmtp(smtp)), toNumber).port.Some? <==> Truthy(At(smtp, "port"))
  {
    assert At(Obj(SelectSmtp(smtp)), "port") == Text(smtp, "port");
    SelectedText(smtp, "port");
  }

  /** Saving a selected tenant unchanged sends back the feature flags it was selected with. */
  lemma ResaveSelectedFeatures(tenant: Json, toNumber: Json -> int)
    ensures Payload(SelectTenant(tenant), toNumber).features == Obj(SelectFeatures(At(tenant, "features")))
  {
    assert Get(SelectTenant(tenant), "features") == Obj(SelectFeatures(At(tenant, "features")));
  }

  /** Saving a selected tenant whose slug is already normalised sends that slug back unchanged. */
  lemma ResaveSelectedSlug(tenant: Json, toNumber: Json -> int)
    requires At(tenant, "slug").Str? && NormalizeSlug(At(tenant, "slug").s) == At(tenant, "slug").s
    ensures Payload(SelectTenant(tenant), toNumber).slug == At(tenant, "slug").s
  {
    assert Get(SelectTenant(tenant), "slug") == Text(tenant, "slug");
    SelectedText(tenant, "slug");
  }

  class TenantsScreen {
    var form: Form
    var busy: bool
    var error: string
    var success: string

    constructor ()
      ensures form == EmptyTenant && !busy && error == "" && success == ""
    {
      form := EmptyTenant;
      busy := false;
      error, success := "", "";
    }

    /** resetForm */
    method Reset()
      modifies this`form, this`error, this`success
      ensures form == EmptyTenant && error == "" && success == ""
    {
      form := EmptyTenant;
      error, success := "", "";
    }

    /** selectTenant */
    method Select(tenant: Json)
      modifies this`form, this`error, this`success
      ensures form == SelectTenant(tenant) && error == "" && success == ""
    {
      form := SelectTenant(tenant);
      success, error := "", "";
    }

    /**
     * handleChange: split the path, copy each object on the way while moving the cursor down,
     * set the leaf. The aliasing of the cursor into the copied root is modelled by keeping the
     * copies and linking each one into its parent afterwards.
     */
    method HandleChange(path: string, value: Json)
      modifies this`form
      ensures form == SetPath(old(form), Split(path, '.'), value)
    {
      var keys := Split(path, '.');
      var n := |keys| - 1;
      var copies: seq<Form> := [form];
      var i := 0;
      while i < n
        invariant 0 <= i <= n
        invariant |copies| == i + 1 && copies[0] == form
        invariant forall j :: 0 <= j < i ==> copies[j + 1] == Fields(Get(copies[j], keys[j]))
      {
        copies := copies + [Fields(Get(copies[i], keys[i]))];
        i := i + 1;
      }
      var updated := copies[n][keys[n] := value];
      var j := n;
      while j > 0
        invariant 0 <= j <= n
        invariant updated == SetPath(copies[j], keys[j..], value)
      {
        j := j - 1;
        assert keys[j..][1..] == keys[j + 1..];
        updated := copies[j][keys[j] := Obj(updated)];
      }
      form := updated;
    }

    /**
     * handleSubmit with saved the answer of the update or create call (the reload after it is not
     * modelled). After a create, resetForm clears the message it has just set.
     */
    method Submit(toNumber: Json -> int, saved: Result<()>) returns (request: Option<TenantRequest>)
      modifies this
      ensures !busy
      ensures var plan := PlanSubmit(old(form), toNumber);
        && (plan.Err? ==> (request.None? && error == plan.message && success == "" && form == old(form)))
        && (plan.Ok? ==> request == Some(plan.value))
        && (plan.Ok? && saved.Err? ==>
              (form == old(form) && success == "" && error == (if saved.message != "" then saved.message else ActionFailed)))
        && (plan.Ok? && saved.Ok? && plan.value.UpdateTenant? ==> (form == old(form) && error == "" && success == Updated))
        && (plan.Ok? && saved.Ok? && plan.value.CreateTenant? ==> (form == EmptyTenant && error == "" && success == ""))
    {
      busy := true;
      error := "";
      success := "";
      var plan := PlanSubmit(form, toNumber);
      match plan {
        case Err(m) =>
          error := m;
          request := None;
        case Ok(req) =>
          request := Some(req);
          match saved {
            case Err(m) =>
              error := if m != "" then m else ActionFailed;
            case Ok(_) =>
              if req.UpdateTenant? {
                success := Updated;
              } else {
                success := Created;
                Reset();
              }
          }
      }
      busy := false;
    }
  }
}
