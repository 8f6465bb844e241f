/**
 * The request handler of server/api/send-notification.ts: it checks the request, picks the
 * subject and the body of the email by notification type, sends it through the mail service
 * and logs one row per claim. The mail service's answer is an input. The four templated
 * bodies come from lib/notifications.ts, which is not part of this model: they appear as
 * `Template` values naming the template and its arguments.
 */
module SendNotification {
  import opened Wrappers

  /** The request body's fields. A string field that is missing, `null` or empty is `""` (all
      falsy); `claimIds` is a JSON array or missing; the two details fields are objects or
      missing, and only their presence matters to the handler. */
  datatype Fields = Fields(
    recipientEmail: string,
    recipientName: string,
    claimId: string,
    claimIds: Option<seq<string>>,
    claimDetails: Option<string>,
    claimsDetails: Option<string>,
    notificationType: string,
    employeeName: string,
    rejectedBy: string,
    rejectionReason: string,
    htmlContent: string
  )

  /** The parsed body, or none (destructuring `undefined` throws). */
  datatype Body = NoBody | Body(fields: Fields)

  /** Why the request was refused (the 400 errors of lines 30-51 and 105-109). */
  datatype Refusal =
    | MissingRecipient
    | MissingConsolidatedFields
    | MissingSingleFields
    | InvalidType

  /** The templates of lib/notifications.ts. */
  datatype TemplateKind = SubmissionTemplate | AdminVerificationTemplate | ManagerApprovalTemplate | RejectionTemplate

  /** The HTML body of the email: a template applied to three fields, or the caller's HTML. */
  datatype Html = Template(kind: TemplateKind, recipientName: string, claimDetails: string, third: string) | Verbatim(html: string)

  datatype Email = Email(from: string, to: string, subject: string, html: Html)

  /** What the mail service did: accepted the email (with an id or none), answered with an
      error, or threw. */
  datatype SendOutcome = Accepted(messageId: Option<string>) | SendError | SendThrew

  /** A row of `email_notifications` (the `sent_at` time stamp is left out). */
  datatype LogRecord = LogRecord(claimId: string, recipientEmail: string, notificationType: string,
                                 sentBy: Option<string>, status: string)

  datatype Response = Succeeded(messageId: Option<string>) | Failure(statusCode: nat, statusMessage: string)

  const Consolidated: string := "consolidated_submission"
  const FailureMessage: string := "Failed to send notification"

  /** The five accepted notification types. */
  predicate KnownType(t: string) {
    t in {"submission", "admin_verification", "manager_approval", "rejection", Consolidated}
  }

  /** A request that names its recipient, has a known type and carries the fields that type
      needs: the claim ids, their details and the HTML for a consolidated notification, the
      claim id and its details for any other. */
  predicate Complete(f: Fields) {
    && f.recipientEmail != ""
    && KnownType(f.notificationType)
    && (f.notificationType == Consolidated ==> f.claimIds.Some? && f.claimsDetails.Some? && f.htmlContent != "")
    && (f.notificationType != Consolidated ==> f.claimId != "" && f.claimDetails.Some?)
  }

  /** Lines 30-51 and 63-109, in their order: the recipient first, then the fields of the
      claim or claims, then the type. Note that `claimIds` passes when it is an empty array. */
  function Check(f: Fields): (r: Option<Refusal>)
    ensures r.None? ==> f.recipientEmail != "" && KnownType(f.notificationType)
    ensures r.None? && f.notificationType == Consolidated ==>
              f.claimIds.Some? && f.claimsDetails.Some? && f.htmlContent != ""
    ensures r.None? && f.notificationType != Consolidated ==> f.claimId != "" && f.claimDetails.Some?
    ensures r.None? <==> Complete(f)
  {
    if f.recipientEmail == "" then Some(MissingRecipient)
    else if f.notificationType == Consolidated then
      if f.claimIds.None? || f.claimsDetails.None? || f.htmlContent == "" then Some(MissingConsolidatedFields)
      else None
    else if f.claimId == "" || f.claimDetails.None? then Some(MissingSingleFields)
    else if !KnownType(f.notificationType) then Some(InvalidType)
    else None
  }

  /** The subject for each accepted type (lines 63-103); none for any other. */
  function Subject(t: string): (r: Option<string>)
    ensures r.Some? <==> KnownType(t)
  {
    match t
    case "submission" => Some("New Reimbursement Claim Submitted")
    case "admin_verification" => Some("Reimbursement Claim Verified by Admin")
    case "manager_approval" => Some("Reimbursement Claim Approved by Manager")
    case "rejection" => Some("Your Reimbursement Claim Has Been Rejected")
    case "consolidated_submission" => Some("New Reimbursement Claims Submitted")
    case _ => None
  }

  /** Different types get different subjects, so the subject tells the type. */
  lemma SubjectsDistinct(t: string, u: string)
    requires Subject(t).Some? && Subject(t) == Subject(u)
    ensures t == u
  {
  }

  /** The email body for an accepted type (lines 63-103): consolidated mail carries the
      caller's HTML as it is, rejections the reason, the others the employee's name. */
  function Content(f: Fields): (r: Html)
    requires KnownType(f.notificationType) && (f.notificationType != Consolidated ==> f.claimDetails.Some?)
    ensures f.notificationType == Consolidated <==> r.Verbatim?
    ensures r.Verbatim? ==> r.html == f.htmlContent
    ensures r.Template? ==> r.recipientName == f.recipientName && r.claimDetails == f.claimDetails.value
    ensures r.Template? ==> (r.kind == RejectionTemplate <==> f.notificationType == "rejection")
    ensures r.Template? && r.kind != RejectionTemplate ==> r.third == f.employeeName
    ensures r.Template? && r.kind == RejectionTemplate ==> r.third == f.rejectionReason
    ensures f.notificationType == "submission" ==> r.Template? && r.kind == SubmissionTemplate
    ensures f.notificationType == "admin_verification" ==> r.Template? && r.kind == AdminVerificationTemplate
    ensures f.notificationType == "manager_approval" ==> r.Template? && r.kind == ManagerApprovalTemplate
  {
    match f.notificationType
    case "submission" => Template(SubmissionTemplate, f.recipientName, f.claimDetails.value, f.employeeName)
    case "admin_verification" => Template(AdminVerificationTemplate, f.recipientName, f.claimDetails.value, f.employeeName)
    case "manager_approval" => Template(ManagerApprovalTemplate, f.recipientName, f.claimDetails.value, f.employeeName)
    case "rejection" => Template(RejectionTemplate, f.recipientName, f.claimDetails.value, f.rejectionReason)
    case _ => Verbatim(f.htmlContent)
  }

  /** One log row (lines 129-136 and 141-148): `sent_by` is `rejectedBy || null`. */
  function Record(f: Fields, claimId: string): (r: LogRecord)
    ensures r.status == "sent" && r.claimId == claimId && r.recipientEmail == f.recipientEmail
    ensures r.notificationType == f.notificationType
    ensures r.sentBy.Some? <==> f.rejectedBy != ""
    ensures r.sentBy.Some? ==> r.sentBy.value == f.rejectedBy
  {
    LogRecord(claimId, f.recipientEmail, f.notificationType,
              if f.rejectedBy != "" then Some(f.rejectedBy) else None, "sent")
  }

  /** Lines 125-149: one row per claim id of a consolidated notification, else one row. */
  function Records(f: Fields): (r: seq<LogRecord>)
    requires f.notificationType == Consolidated ==> f.claimIds.Some?
  {
    if f.notificationType == Consolidated then
      seq(|f.claimIds.value|, i requires 0 <= i < |f.claimIds.value| => Record(f, f.claimIds.value[i]))
    else [Record(f, f.claimId)]
  }

  /** The rows written: for a consolidated notification one per claim id, in order, and for any
      other exactly one, for `claimId`; all with status "sent". */
  lemma RecordsPerClaim(f: Fields)
    requires f.notificationType == Consolidated ==> f.claimIds.Some?
    ensures f.notificationType == Consolidated ==>
              |Records(f)| == |f.claimIds.value|
              && forall i :: 0 <= i < |Records(f)| ==> Records(f)[i].claimId == f.claimIds.value[i]
    ensures f.notificationType != Consolidated ==> |Records(f)| == 1 && Records(f)[0].claimId == f.claimId
    ensures forall r :: r in Records(f) ==> r.status == "sent" && r.recipientEmail == f.recipientEmail
  {
  }

  /** The handler: the response, the email handed to the mail service, and the rows logged.
      Every failure, the 400 refusals included, is answered by the `catch` of line 152 with 500. */
  function Handle(body: Body, emailFrom: string, send: SendOutcome): (r: (Response, Option<Email>, seq<LogRecord>))
    ensures r.0.Failure? ==> r.0 == Failure(500, FailureMessage) && r.2 == []
    ensures body.NoBody? ==> r.0.Failure? && r.1.None?
    ensures body.Body? && Check(body.fields).Some? ==> r.0.Failure? && r.1.None?
    ensures body.Body? && Check(body.fields).None? ==>
              && r.1.Some?
              && r.1.value.from == "Gibraltar Reimbursement <" + emailFrom + ">"
              && r.1.value.to == body.fields.recipientEmail
              && Subject(body.fields.notificationType) == Some(r.1.value.subject)
              && r.1.value.html == Content(body.fields)
              && (r.0.Succeeded? <==> send.Accepted?)
              && (r.0.Succeeded? ==> r.0.messageId == send.messageId && r.2 == Records(body.fields))
  {
    match body
    case NoBody => (Failure(500, FailureMessage), None, [])
    case Body(f) =>
      if Check(f).Some? then (Failure(500, FailureMessage), None, [])
      else
        var email := Email("Gibraltar Reimbursement <" + emailFrom + ">", f.recipientEmail,
                           Subject(f.notificationType).value, Content(f));
        match send
        case Accepted(id) => (Succeeded(id), Some(email), Records(f))
        case _ => (Failure(500, FailureMessage), Some(email), [])
  }

  /** A request without a recipient is refused first, whatever else it holds. */
  lemma RecipientCheckedFirst(f: Fields)
    requires f.recipientEmail == ""
    ensures Check(f) == Some(MissingRecipient)
  {
  }

  /** Every type other than the consolidated one, unknown types included, needs `claimId` and
      `claimDetails`, and that is checked before the type is. */
  lemma SingleFieldsBeforeType(f: Fields)
    requires f.recipientEmail != "" && f.notificationType != Consolidated
    ensures Check(f) == Some(MissingSingleFields) <==> f.claimId == "" || f.claimDetails.None?
    ensures f.claimId != "" && f.claimDetails.Some? ==> (Check(f) == Some(InvalidType) <==> !KnownType(f.notificationType))
  {
  }

  /** A consolidated notification needs `claimIds`, `claimsDetails` and `htmlContent`. */
  lemma ConsolidatedFields(f: Fields)
    requires f.recipientEmail != "" && f.notificationType == Consolidated
    ensures Check(f) == Some(MissingConsolidatedFields) <==> f.claimIds.None? || f.claimsDetails.None? || f.htmlContent == ""
    ensures Check(f) != Some(MissingConsolidatedFields) ==> Check(f).None?
  {
  }

  /** A request is answered with success exactly when it passes the checks and the mail
      service accepts the email; rows are only logged then. */
  lemma SuccessIffSent(body: Body, emailFrom: string, send: SendOutcome)
    ensures Handle(body, emailFrom, send).0.Succeeded? <==> body.Body? && Check(body.fields).None? && send.Accepted?
    ensures Handle(body, emailFrom, send).2 != [] ==> Handle(body, emailFrom, send).0.Succeeded?
  {
  }
}
