/**
 * src/pages/Counselors.jsx: the user form of a tenant admin. Saving checks the required fields,
 * sends an edit without the password when it was left blank, refuses a new user without one, and
 * resets the form once the server accepts.
 */
module Counselors {
  import opened Wrappers
  import opened Records

  const NameEmailRequired := "Name and email are required."
  const PasswordRequired := "Password is required for new counselors."
  const Updated := "User updated successfully."
  const Created := "User created successfully."
  const SaveFailed := "Save failed"

  datatype UserForm = UserForm(name: string, email: string, phone: string, password: string, role: string, active: bool)

  const EmptyForm := UserForm("", "", "", "", "counselor", true)

  /** The object sent; password is None where the key was deleted. */
  datatype UserPayload = UserPayload(name: string, email: string, phone: string, password: Option<string>, role: string, active: bool)

  /** PUT /users/:id or POST /users. */
  datatype UserRequest = Update(id: string, payload: UserPayload) | Create(payload: UserPayload)

  /** The form as a payload with every key kept. */
  function Payload(form: UserForm): UserPayload
  {
    UserPayload(form.name, form.email, form.phone, Some(form.password), form.role, form.active)
  }

  /**
   * The decision handleSubmit takes before any call: the error shown, or the request sent. An
   * editingId of "" stands for null.
   */
  function PlanSubmit(form: UserForm, editingId: string): (r: Result<UserRequest>)
    ensures form.name == "" || form.email == "" ==> r == Err(NameEmailRequired)
    ensures form.name != "" && form.email != "" && editingId == "" && form.password == "" ==> r == Err(PasswordRequired)
    ensures r.Ok? <==> form.name != "" && form.email != "" && (editingId != "" || form.password != "")
    ensures r.Ok? && editingId != "" ==> r.value.Update? && r.value.id == editingId
    ensures r.Ok? && editingId != "" ==>
      r.value.payload == Payload(form).(password := if form.password == "" then None else Some(form.password))
    ensures r.Ok? && editingId == "" ==> r.value == Create(Payload(form)) && form.password != ""
  {
    if form.name == "" || form.email == "" then Err(NameEmailRequired)
    else if editingId != "" then
      var payload := Payload(form);
      Ok(Update(editingId, if payload.password == Some("") then payload.(password := None) else payload))
    else if form.password == "" then Err(PasswordRequired)
    else Ok(Create(Payload(form)))
  }

  /** A request never carries a blank password: it is dropped from an edit and refused on create. */
  lemma NoBlankPasswordSent(form: UserForm, editingId: string)
    requires PlanSubmit(form, editingId).Ok?
    ensures PlanSubmit(form, editingId).value.payload.password != Some("")
  {
  }

  /** startEdit: the user's fields, phone defaulting to "" and the password always blank. */
  function StartEdit(user: Account): (f: UserForm)
    ensures f.password == "" && f.phone == user.phone
    ensures f.name == user.name && f.email == user.email && f.role == user.role && f.active == user.active
  {
    UserForm(user.name, user.email, user.phone, "", user.role, user.active)
  }

  /**
   * Saving an edit straight away sends the user back as listed, without a password, so the stored
   * one is kept.
   */
  lemma UnchangedEditRoundTrips(user: Account)
    requires user.id != "" && user.name != "" && user.email != ""
    ensures PlanSubmit(StartEdit(user), user.id)
      == Ok(Update(user.id, UserPayload(user.name, user.email, user.phone, None, user.role, user.active)))
  {
  }

  class CounselorsScreen {
    var form: UserForm
    var editingId: string
    var error: string
    var success: string

    constructor ()
      ensures form == EmptyForm && editingId == "" && error == "" && success == ""
    {
      form, editingId := EmptyForm, "";
      error, success := "", "";
    }

    method StartEditing(user: Account)
      modifies this`form, this`editingId
      ensures form == StartEdit(user) && editingId == user.id
    {
      editingId := user.id;
      form := StartEdit(user);
    }

    /**
     * handleSubmit with saved the answer of the update or create call. request is what was sent,
     * if anything; the reload of the list is not modelled.
     */
    method Submit(saved: Result<()>) returns (request: Option<UserRequest>)
      modifies this
      ensures var plan := PlanSubmit(old(form), old(editingId));
        && (plan.Err? ==> (request.None? && error == plan.message && success == ""
              && form == old(form) && editingId == old(editingId)))
        && (plan.Ok? ==> request == Some(plan.value))
        && (plan.Ok? && saved.Ok? ==> (error == "" && form == EmptyForm && editingId == ""
              && success == (if plan.value.Update? then Updated else Created)))
        && (plan.Ok? && saved.Err? ==> (success == "" && form == old(form) && editingId == old(editingId)
              && error == (if saved.message != "" then saved.message else SaveFailed)))
    {
      error := "";
      success := "";
      var plan := PlanSubmit(form, editingId);
      match plan {
        case Err(m) =>
          error := m;
          request := None;
        case Ok(req) =>
          request := Some(req);
          match saved {
            case Ok(_) =>
              success := if req.Update? then Updated else Created;
              form := EmptyForm;
              editingId := "";
            case Err(m) =>
              error := if m != "" then m else SaveFailed;
          }
      }
    }
  }
}
