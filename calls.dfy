/**
 * src/pages/Calls.jsx: the bulk-call screen. Only leads with a phone are offered, status events
 * update the log list, and a bulk call is refused until a lead is selected.
 */
module Calls {
  import opened Wrappers
  import opened Records
  import Selection

  const CallRequired := "Select leads to call."
  const Queued := "Calls queued successfully."
  const CallFailed := "Call failed"

  /** The call check: the error shown, if any. */
  function ValidateCall(selected: seq<string>): (e: Option<string>)
    ensures e.Some? <==> |selected| == 0
    ensures e.Some? ==> e.value == CallRequired
  {
    if |selected| == 0 then Some(CallRequired) else None
  }

  class CallsScreen {
    var leads: seq<Lead>
    var selected: seq<string>
    var logs: seq<StatusLog>
    var error: string
    var success: string

    /** The screen once loadData has filled the lists. */
    constructor (leads: seq<Lead>, logs: seq<StatusLog>)
      ensures this.leads == leads && this.logs == logs && selected == [] && error == "" && success == ""
    {
      this.leads, this.logs := leads, logs;
      selected := [];
      error, success := "", "";
    }

    /** eligibleLeads */
    function EligibleLeads(): seq<Lead>
      reads this
    {
      Selection.Callable(leads)
    }

    /** A call:status event. */
    method OnStatus(log: StatusLog)
      modifies this`logs
      ensures logs == Selection.Upsert(old(logs), log, (l: StatusLog) => l.id)
    {
      logs := Selection.Upsert(logs, log, (l: StatusLog) => l.id);
    }

    /** toggleLead */
    method ToggleLead(id: string)
      modifies this`selected
      ensures selected == Selection.Toggle(old(selected), id)
      ensures id in selected <==> id !in old(selected)
    {
      Selection.ToggleFlips(selected, id);
      selected := Selection.Toggle(selected, id);
    }

    /**
     * handleCall with placed the answer of POST /calls/initiate. request is the selection sent, if any;
     * the reload after a successful call is not modelled.
     */
    method HandleCall(placed: Result<()>) returns (request: Option<seq<string>>)
      modifies this`error, this`success, this`selected
      ensures ValidateCall(old(selected)).Some? ==>
        request.None? && error == CallRequired && success == "" && selected == old(selected)
      ensures ValidateCall(old(selected)).None? ==> request == Some(old(selected))
      ensures ValidateCall(old(selected)).None? && placed.Ok? ==>
        success == Queued && error == "" && selected == []
      ensures ValidateCall(old(selected)).None? && placed.Err? ==>
        success == "" && selected == old(selected)
        && error == (if placed.message != "" then placed.message else CallFailed)
    {
      error := "";
      success := "";
      var invalid := ValidateCall(selected);
      if invalid.Some? {
        error := invalid.value;
        request := None;
        return;
      }
      request := Some(selected);
      match placed {
        case Ok(_) =>
          success := Queued;
          selected := [];
        case Err(m) =>
          error := if m != "" then m else CallFailed;
      }
    }
  }
}
