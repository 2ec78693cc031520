/**
 * src/pages/Campaigns.jsx: the campaign form. Leads are toggled in and out of the selection, drip
 * steps are added and edited one field at a time, and a campaign is only sent to the server once it
 * has a name and at least one lead.
 */
module Campaigns {
  import opened Wrappers
  import opened Seqs
  import opened Records
  import Selection

  /** One drip step. */
  datatype Step = Step(dayOffset: int, content: string)

  /** The key and value updateStep writes: dayOffset takes a number, content a text. */
  datatype StepField = DayOffset(days: int) | Content(text: string)

  datatype CampaignForm = CampaignForm(
    name: string, kind: string, channel: string, scheduleAt: string, content: string, subject: string,
    steps: seq<Step>, leadIds: seq<string>)

  const EmptyCampaign := CampaignForm("", "single", "sms", "", "", "", [Step(0, "")], [])
  const Required := "Name and leads are required."
  const Created := "Campaign created."
  const CreateFailed := "Create failed"

  /** What every form the page builds keeps: at least one step, and each lead selected once. */
  predicate WellFormed(form: CampaignForm) {
    |form.steps| >= 1 && NoDup(form.leadIds)
  }

  /** toggleLead on the form's selection; nothing else changes. */
  function ToggleLead(form: CampaignForm, id: string): (f: CampaignForm)
    ensures f == form.(leadIds := f.leadIds)
    ensures id in f.leadIds <==> id !in form.leadIds
    ensures forall y :: y != id ==> (y in f.leadIds <==> y in form.leadIds)
  {
    Selection.ToggleFlips(form.leadIds, id);
    form.(leadIds := Selection.Toggle(form.leadIds, id))
  }

  /** addStep: a step one day out with no content, after the existing ones. */
  function AddStep(form: CampaignForm): (f: CampaignForm)
    ensures |f.steps| == |form.steps| + 1
    ensures f.steps[..|form.steps|] == form.steps && f.steps[|form.steps|] == Step(1, "")
    ensures f == form.(steps := f.steps)
  {
    form.(steps := form.steps + [Step(1, "")])
  }

  /** The step with one field replaced. */
  function SetField(step: Step, field: StepField): (s: Step)
    ensures field.DayOffset? ==> s == Step(field.days, step.content)
    ensures field.Content? ==> s == Step(step.dayOffset, field.text)
  {
    match field
    case DayOffset(d) => step.(dayOffset := d)
    case Content(t) => step.(content := t)
  }

  /** The steps after updateStep: the one at index has one field replaced. */
  function UpdatedSteps(steps: seq<Step>, index: nat, field: StepField): seq<Step>
    requires index < |steps|
  {
    steps[index := SetField(steps[index], field)]
  }

  /**
   * updateStep: copy the steps into a fresh array, replace the one field of step index, and hand
   * the copy back. The index is one the page rendered, so it is within the steps.
   */
  method UpdateStep(steps: seq<Step>, index: nat, field: StepField) returns (next: seq<Step>)
    requires index < |steps|
    ensures |next| == |steps|
    ensures next[index] == SetField(steps[index], field)
    ensures forall j :: 0 <= j < |steps| && j != index ==> next[j] == steps[j]
    ensures next == UpdatedSteps(steps, index, field)
  {
    var copy := new Step[|steps|](j => if 0 <= j < |steps| then steps[j] else Step(0, ""));
    copy[index] := SetField(copy[index], field);
    next := copy[..];
  }

  /** The form-building operations keep the form well formed, starting from the empty campaign. */
  lemma OperationsKeepWellFormed(form: CampaignForm, id: string, index: nat, field: StepField)
    requires WellFormed(form)
    requires index < |form.steps|
    ensures WellFormed(EmptyCampaign)
    ensures WellFormed(ToggleLead(form, id))
    ensures WellFormed(AddStep(form))
    ensures WellFormed(form.(steps := UpdatedSteps(form.steps, index, field)))
  {
    Selection.ToggleKeepsNoDup(form.leadIds, id);
  }

  /** The submit check: the error shown, if any. */
  function Validate(form: CampaignForm): (e: Option<string>)
    ensures e.Some? <==> form.name == "" || |form.leadIds| == 0
    ensures e.Some? ==> e.value == Required
  {
    if form.name == "" || |form.leadIds| == 0 then Some(Required) else None
  }

  /** leadList: the leads the form's channel can reach. */
  function LeadList(leads: seq<Lead>, form: CampaignForm): seq<Lead>
  {
    Selection.Recipients(leads, form.channel)
  }

  /** Switching between SMS and WhatsApp lists the same leads; only email lists a different set. */
  lemma PhoneChannelsListTheSameLeads(leads: seq<Lead>, form: CampaignForm)
    requires form.channel != "email"
    ensures LeadList(leads, form) == LeadList(leads, form.(channel := "sms"))
    ensures LeadList(leads, form) == LeadList(leads, form.(channel := "whatsapp"))
  {
  }

  class CampaignScreen {
    var form: CampaignForm
    var error: string
    var success: string

    constructor ()
      ensures form == EmptyCampaign && error == "" && success == ""
    {
      form := EmptyCampaign;
      error, success := "", "";
    }

    /**
     * handleSubmit with created the answer of POST /campaigns. request is the campaign sent, if
     * any; the ISO conversion of scheduleAt is not modelled, so it is the form as typed.
     */
    method Submit(created: Result<()>) returns (request: Option<CampaignForm>)
      modifies this
      ensures Validate(old(form)).Some? ==>
        request.None? && error == Required && success == "" && form == old(form)
      ensures Validate(old(form)).None? ==> request == Some(old(form))
      ensures Validate(old(form)).None? && created.Ok? ==>
        success == Created && error == "" && form == EmptyCampaign
      ensures Validate(old(form)).None? && created.Err? ==>
        success == "" && form == old(form)
        && error == (if created.message != "" then created.message else CreateFailed)
    {
      error := "";
      success := "";
      var invalid := Validate(form);
      if invalid.Some? {
        error := invalid.value;
        request := None;
        return;
      }
      request := Some(form);
      match created {
        case Ok(_) =>
          success := Created;
          form := EmptyCampaign;
        case Err(m) =>
          error := if m != "" then m else CreateFailed;
      }
    }
  }
}
