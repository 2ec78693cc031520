/**
 * The server records the pages read. Empty text stands for a text field the server left out (both
 * are falsy to the pages); a flag that may be missing is an Option.
 */
module Records {
  import opened Wrappers
  import opened Seqs

  /** A lead; stage and counselor are the _id of the populated reference, if any. */
  datatype Lead = Lead(
    id: string, fullName: string, email: string, phone: string, source: string,
    desiredProgram: string, targetCollege: string, stage: Option<string>, counselor: Option<string>,
    status: string, consentSms: Option<bool>, consentCall: Option<bool>, consentEmail: Option<bool>,
    notes: string)

  /** A user of the tenant as GET /users lists it. */
  datatype Account = Account(id: string, name: string, email: string, phone: string, role: string, active: bool)

  /** The users with role counselor, in list order: the choices wherever a counselor is picked. */
  function CounselorAccounts(users: seq<Account>): (r: seq<Account>)
    ensures forall i :: 0 <= i < |r| ==> r[i] in users && r[i].role == "counselor"
    ensures forall i :: 0 <= i < |users| && users[i].role == "counselor" ==> users[i] in r
  {
    Filter(users, (u: Account) => u.role == "counselor")
  }

  /** A message template. */
  datatype Template = Template(
    id: string, name: string, channel: string, content: string, subject: string, htmlContent: string,
    whatsappTemplateName: string, whatsappApproved: Option<bool>)

  /** A message or call log as the list and the status events carry it. */
  datatype StatusLog = StatusLog(id: string, leadId: string, status: string)

  /** A pipeline stage. */
  datatype Stage = Stage(id: string, name: string)
}
