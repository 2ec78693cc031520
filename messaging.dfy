/**
 * src/pages/Messaging.jsx: the bulk-message screen. A template fills the content and channel,
 * the channel decides which leads and templates are offered, status events update the log list,
 * and a send is refused until there is content and a recipient.
 */
module Messaging {
  import opened Wrappers
  import opened Seqs
  import opened Records
  import Selection

  const SendRequired := "Select leads and write a message."
  const Queued := "Messages queued successfully."
  const SendFailed := "Send failed"

  /** The body of POST /messages/send. */
  datatype SendRequest = SendRequest(leadIds: seq<string>, content: string, channel: string, subject: string, templateId: string)

  /** templates.find: the first template with the id, if any. */
  function FindTemplate(templates: seq<Template>, id: string): (r: Option<Template>)
    ensures r.None? <==> forall i :: 0 <= i < |templates| ==> templates[i].id != id
    ensures r.Some? ==> r.value in templates && r.value.id == id
    ensures forall i :: 0 <= i < |templates| && templates[i].id == id && (forall j :: 0 <= j < i ==> templates[j].id != id) ==>
      r == Some(templates[i])
  {
    if templates == [] then None
    else if templates[0].id == id then Some(templates[0])
    else
      var r := FindTemplate(templates[1..], id);
      assert forall i :: 1 <= i < |templates| ==> templates[i] == templates[1..][i - 1];
      r
  }

  /** The channel a template sets: its own, or SMS when it has none. */
  function TemplateChannel(t: Template): string
  {
    if t.channel != "" then t.channel else "sms"
  }

  /** The templates offered in the picker: those of the current channel. */
  function TemplateOptions(templates: seq<Template>, channel: string): (r: seq<Template>)
    ensures forall i :: 0 <= i < |r| ==> r[i] in templates && r[i].channel == channel
    ensures forall i :: 0 <= i < |templates| && templates[i].channel == channel ==> templates[i] in r
  {
    Filter(templates, (t: Template) => t.channel == channel)
  }

  /**
   * A picked template that names its channel is still offered once applied; one without a channel
   * switches the screen to SMS and drops out of the picker.
   */
  lemma AppliedTemplateStaysOffered(templates: seq<Template>, id: string)
    requires FindTemplate(templates, id).Some?
    ensures var t := FindTemplate(templates, id).value;
      t in TemplateOptions(templates, TemplateChannel(t)) <==> t.channel != ""
  {
    var t := FindTemplate(templates, id).value;
    var i :| 0 <= i < |templates| && templates[i] == t;
    if t.channel == "" {
      assert t !in TemplateOptions(templates, "sms");
    }
  }

  /** The send check: the error shown, if any. */
  function ValidateSend(content: string, selected: seq<string>): (e: Option<string>)
    ensures e.Some? <==> content == "" || |selected| == 0
    ensures e.Some? ==> e.value == SendRequired
  {
    if content == "" || |selected| == 0 then Some(SendRequired) else None
  }

  class MessagingScreen {
    var leads: seq<Lead>
    var selected: seq<string>
    var content: string
    var channel: string
    var subject: string
    var logs: seq<StatusLog>
    var templates: seq<Template>
    var templateId: string
    var error: string
    var success: string

    /** The screen once loadData has filled the lists. */
    constructor (leads: seq<Lead>, logs: seq<StatusLog>, templates: seq<Template>)
      ensures this.leads == leads && this.logs == logs && this.templates == templates
      ensures selected == [] && content == "" && channel == "sms" && subject == "" && templateId == ""
      ensures error == "" && success == ""
    {
      this.leads, this.logs, this.templates := leads, logs, templates;
      selected := [];
      content, channel, subject, templateId := "", "sms", "", "";
      error, success := "", "";
    }

    /** eligibleLeads */
    function EligibleLeads(): seq<Lead>
      reads this
    {
      Selection.Recipients(leads, channel)
    }

    /** A message:status event. */
    method OnStatus(log: StatusLog)
      modifies this`logs
      ensures logs == Selection.Upsert(old(logs), log, (l: StatusLog) => l.id)
    {
      logs := Selection.Upsert(logs, log, (l: StatusLog) => l.id);
    }

    /** toggleLead */
    method ToggleLead(id: string)
      modifies this`selected
      ensures selected == Selection.Toggle(old(selected), id)
      ensures id in selected <==> id !in old(selected)
    {
      Selection.ToggleFlips(selected, id);
      selected := Selection.Toggle(selected, id);
    }

    /** applyTemplate: the id is always taken; content and channel only from a found template. */
    method ApplyTemplate(id: string)
      modifies this`templateId, this`content, this`channel
      ensures templateId == id
      ensures FindTemplate(templates, id).None? ==> content == old(content) && channel == old(channel)
      ensures FindTemplate(templates, id).Some? ==>
        content == FindTemplate(templates, id).value.content && channel == TemplateChannel(FindTemplate(templates, id).value)
    {
      templateId := id;
      var template := FindTemplate(templates, id);
      if template.Some? {
        content := template.value.content;
        channel := TemplateChannel(template.value);
      }
    }

    /** The channel picker: a new channel forgets the chosen template. */
    method ChangeChannel(c: string)
      modifies this`channel, this`templateId
      ensures channel == c && templateId == ""
    {
      channel := c;
      templateId := "";
    }

    /**
     * handleSend with sent the answer of POST /messages/send. request is the body sent, if any; the
     * reload after a successful send is not modelled.
     */
    method HandleSend(sent: Result<()>) returns (request: Option<SendRequest>)
      modifies this`error, this`success, this`content, this`selected
      ensures ValidateSend(old(content), old(selected)).Some? ==>
        request.None? && error == SendRequired && success == ""
        && content == old(content) && selected == old(selected)
      ensures ValidateSend(old(content), old(selected)).None? ==>
        request == Some(SendRequest(old(selected), old(content), channel, subject, templateId))
      ensures ValidateSend(old(content), old(selected)).None? && sent.Ok? ==>
        success == Queued && error == "" && content == "" && selected == []
      ensures ValidateSend(old(content), old(selected)).None? && sent.Err? ==>
        success == "" && content == old(content) && selected == old(selected)
        && error == (if sent.message != "" then sent.message else SendFailed)
    {
      error := "";
      success := "";
      var invalid := ValidateSend(content, selected);
      if invalid.Some? {
        error := invalid.value;
        request := None;
        return;
      }
      request := Some(SendRequest(selected, content, channel, subject, templateId));
      match sent {
        case Ok(_) =>
          success := Queued;
          content := "";
          selected := [];
        case Err(m) =>
          error := if m != "" then m else SendFailed;
      }
    }
  }
}
