/**
 * src/pages/Templates.jsx: the template form. Saving needs a name and content, then updates the
 * template being edited or creates a new one, and resets the form once the server accepts.
 */
module Templates {
  import opened Wrappers
  import opened Records

  const Required := "Name and content required."
  const Updated := "Template updated."
  const Created := "Template created."
  const SaveFailed := "Save failed"

  datatype TemplateForm = TemplateForm(
    name: string, channel: string, content: string, subject: string, htmlContent: string,
    whatsappTemplateName: string, whatsappApproved: bool)

  const EmptyForm := TemplateForm("", "sms", "", "", "", "", false)

  /** PUT /templates/:id or POST /templates, with the form as the body. */
  datatype TemplateRequest = Update(id: string, body: TemplateForm) | Create(body: TemplateForm)

  /** The decision handleSubmit takes before any call; an editingId of "" stands for null. */
  function PlanSubmit(form: TemplateForm, editingId: string): (r: Result<TemplateRequest>)
    ensures r.Err? <==> form.name == "" || form.content == ""
    ensures r.Err? ==> r.message == Required
    ensures r.Ok? ==> r.value.body == form
    ensures r.Ok? ==> (r.value.Update? <==> editingId != "")
    ensures r.Ok? && r.value.Update? ==> r.value.id == editingId
  {
    if form.name == "" || form.content == "" then Err(Required)
    else if editingId != "" then Ok(Update(editingId, form))
    else Ok(Create(form))
  }

  /** startEdit: the template's fields with defaults for the optional ones. */
  function StartEdit(t: Template): (f: TemplateForm)
    ensures f.channel == (if t.channel != "" then t.channel else "sms")
    ensures f.whatsappApproved == (t.whatsappApproved == Some(true))
    ensures f.name == t.name && f.content == t.content && f.subject == t.subject
    ensures f.htmlContent == t.htmlContent && f.whatsappTemplateName == t.whatsappTemplateName
  {
    TemplateForm(
      t.name, if t.channel != "" then t.channel else "sms", t.content, t.subject, t.htmlContent,
      t.whatsappTemplateName, t.whatsappApproved.GetOr(false))
  }

  /** A template with nothing optional set is edited from the same defaults a new one starts with. */
  lemma StartEditDefaultsMatchEmptyForm(t: Template)
    requires t.channel == "" && t.subject == "" && t.htmlContent == "" && t.whatsappTemplateName == ""
    requires t.whatsappApproved.None?
    ensures StartEdit(t) == EmptyForm.(name := t.name, content := t.content)
  {
  }

  /** Saving an edit straight away updates the same template with its own (defaulted) fields. */
  lemma UnchangedEditRoundTrips(t: Template)
    requires t.id != "" && t.name != "" && t.content != ""
    ensures PlanSubmit(StartEdit(t), t.id) == Ok(Update(t.id, StartEdit(t)))
  {
  }

  class TemplatesScreen {
    var form: TemplateForm
    var editingId: string
    var error: string
    var success: string

    constructor ()
      ensures form == EmptyForm && editingId == "" && error == "" && success == ""
    {
      form, editingId := EmptyForm, "";
      error, success := "", "";
    }

    method StartEditing(t: Template)
      modifies this`form, this`editingId
      ensures form == StartEdit(t) && editingId == t.id
    {
      editingId := t.id;
      form := StartEdit(t);
    }

    /**
     * handleSubmit with saved the answer of the update or create call. request is what was sent,
     * if anything; the reload of the list is not modelled.
     */
    method Submit(saved: Result<()>) returns (request: Option<TemplateRequest>)
      modifies this
      ensures var plan := PlanSubmit(old(form), old(editingId));
        && (plan.Err? ==> (request.None? && error == Required && success == ""
              && form == old(form) && editingId == old(editingId)))
        && (plan.Ok? ==> request == Some(plan.value))
        && (plan.Ok? && saved.Ok? ==> (error == "" && form == EmptyForm && editingId == ""
              && success == (if plan.value.Update? then Updated else Created)))
        && (plan.Ok? && saved.Err? ==> (success == "" && form == old(form) && editingId == old(editingId)
              && error == (if saved.message != "" then saved.message else SaveFailed)))
    {
      error := "";
      success := "";
      var plan := PlanSubmit(form, editingId);
      match plan {
        case Err(m) =>
          error := m;
          request := None;
        case Ok(req) =>
          request := Some(req);
          match saved {
            case Ok(_) =>
              success := if req.Update? then Updated else Created;
              form := EmptyForm;
              editingId := "";
            case Err(m) =>
              error := if m != "" then m else SaveFailed;
          }
      }
    }
  }
}
