/**
 * The decision modal of the approval workflow
 * (app/dashboard/_components/UpdateReportStatusModal.tsx): the ordered validation of a
 * manager's decision, the payload it sends, and the form state handleSubmit leaves behind.
 * The client never computes the next status of a report; the server decides it.
 */
module StatusModal {
  import opened Wrappers
  import opened Api
  import Text

  datatype Action = Approve | RequestChanges | NeedsRevision

  /** The body of a decision request: the action and, when one was typed, the trimmed comment. */
  datatype DecisionPayload = DecisionPayload(action: Action, comment: Option<string>)

  /** The failed checks, in the order handleSubmit runs them. */
  datatype ValidationError = CommentMissing | DgmStatus | GmStatus {
    function Message(): string {
      match this
      case CommentMissing => "Comment is required when requesting changes or revisions"
      case DgmStatus => "DGM can only review reports with status 'submitted' or 'needs_revision'"
      case GmStatus => "GM can only review reports with status 'dgm_approved' or 'gm_approved'"
    }
  }

  const DgmReviewable: seq<string> := ["submitted", "needs_revision"]
  const GmReviewable: seq<string> := ["dgm_approved", "gm_approved"]

  predicate NeedsComment(a: Action) {
    a == RequestChanges || a == NeedsRevision
  }

  /** `!comment.trim()`. */
  predicate CommentBlank(comment: string) {
    Text.Trim(comment) == []
  }

  predicate IsGM(role: Option<UserRole>) { role == Some(GeneralManager) }
  predicate IsDGM(role: Option<UserRole>) { role == Some(DeputyGeneralManager) }

  /** The validation chain of handleSubmit: the first check that fails, or None. */
  function Validate(action: Action, comment: string, role: Option<UserRole>, status: string): (r: Option<ValidationError>)
    // The comment check comes first and depends on nothing else.
    ensures r == Some(CommentMissing) <==> NeedsComment(action) && Text.AllWhitespace(comment)
    // A DGM acts only on submitted or needs_revision reports.
    ensures IsDGM(role) ==>
              (r == Some(DgmStatus) <==> r != Some(CommentMissing) && status != "submitted" && status != "needs_revision")
    // A GM acts only on dgm_approved or gm_approved reports.
    ensures IsGM(role) ==>
              (r == Some(GmStatus) <==> r != Some(CommentMissing) && status != "dgm_approved" && status != "gm_approved")
    // Every other role, and no role at all, is not gated by status.
    ensures !IsDGM(role) ==> r != Some(DgmStatus)
    ensures !IsGM(role) ==> r != Some(GmStatus)
    // Approval never needs a comment.
    ensures action == Approve ==> r != Some(CommentMissing)
  {
    Text.TrimEmptyIff(comment);
    if NeedsComment(action) && CommentBlank(comment) then Some(CommentMissing)
    else if IsDGM(role) && status !in DgmReviewable then Some(DgmStatus)
    else if IsGM(role) && status !in GmReviewable then Some(GmStatus)
    else None
  }

  /** The payload handleSubmit sends. */
  function BuildPayload(action: Action, comment: string): (p: DecisionPayload)
    ensures p.action == action
    ensures p.comment.Some? <==> !Text.AllWhitespace(comment)
    ensures p.comment.Some? ==> p.comment.value == Text.Trim(comment)
  {
    Text.TrimEmptyIff(comment);
    DecisionPayload(action, if CommentBlank(comment) then None else Some(Text.Trim(comment)))
  }

  /** A decision that passes validation and requires a comment always carries one. */
  lemma ValidDecisionCarriesComment(action: Action, comment: string, role: Option<UserRole>, status: string)
    requires Validate(action, comment, role, status).None? && NeedsComment(action)
    ensures BuildPayload(action, comment).comment.Some?
  {
  }

  /**
   * A comment in the payload is non-empty, has no whitespace at either end, and is the typed
   * comment without its surrounding whitespace.
   */
  lemma PayloadCommentIsTrimmed(action: Action, comment: string) returns (i: nat, j: nat)
    requires BuildPayload(action, comment).comment.Some?
    ensures var c := BuildPayload(action, comment).comment.value;
            && c != [] && !Text.IsJsWhitespace(c[0]) && !Text.IsJsWhitespace(c[|c| - 1])
            && i <= j <= |comment| && c == comment[i..j]
            && Text.AllWhitespace(comment[..i]) && Text.AllWhitespace(comment[j..])
  {
    i, j := Text.TrimIsCore(comment);
    Text.TrimEmptyIff(comment);
  }

  /** Trimming again changes nothing, so re-submitting a payload comment would send it unchanged. */
  lemma PayloadCommentStable(action: Action, comment: string)
    requires BuildPayload(action, comment).comment.Some?
    ensures BuildPayload(action, BuildPayload(action, comment).comment.value) == BuildPayload(action, comment)
  {
    Text.TrimIdempotent(comment);
    Text.TrimEmptyIff(Text.Trim(comment));
    Text.TrimEmptyIff(comment);
  }

  /** The message handleSubmit shows for a rejected submission. */
  function RejectionMessage(outcome: RemoteOutcome): string
    requires !outcome.Fulfilled?
  {
    if outcome.RejectedWithError? then outcome.message else "Failed to update report status"
  }

  /** A call of onSubmit: the report, the payload and the isGM flag. */
  datatype Submission = Submission(reportId: string, payload: DecisionPayload, isGM: bool)

  /** The modal's form state. */
  class UpdateReportStatusModal {
    var action: Action
    var comment: string
    var isSubmitting: bool
    var error: Option<string>

    constructor ()
      ensures action == Approve && comment == "" && !isSubmitting && error == None
    {
      action, comment, isSubmitting, error := Approve, "", false, None;
    }

    /** The action selector's onChange. */
    method SetAction(a: Action)
      modifies this`action
      ensures action == a
    {
      action := a;
    }

    /** The comment field's onChange. */
    method SetComment(c: string)
      modifies this`comment
      ensures comment == c
    {
      comment := c;
    }

    /**
     * handleSubmit, as one sequential step. `outcome` is how onSubmit settles if it is called;
     * `sent` is the call made to onSubmit, if any, and `closed` whether onClose ran.
     */
    method HandleSubmit(report: Option<Report>, role: Option<UserRole>, outcome: RemoteOutcome)
      returns (sent: Option<Submission>, closed: bool)
      modifies this
      // Without a report nothing happens.
      ensures report.None? ==>
                sent.None? && !closed && unchanged(this)
      // A failed check shows its message and sends nothing.
      ensures report.Some? && Validate(old(action), old(comment), role, report.value.status).Some? ==>
                && sent.None? && !closed
                && error == Some(Validate(old(action), old(comment), role, report.value.status).value.Message())
                && action == old(action) && comment == old(comment) && isSubmitting == old(isSubmitting)
      // A valid decision is sent once, with the payload and isGM == (role is general_manager).
      ensures report.Some? && Validate(old(action), old(comment), role, report.value.status).None? ==>
                && sent == Some(Submission(report.value.id, BuildPayload(old(action), old(comment)), IsGM(role)))
                && !isSubmitting
                && closed == outcome.Fulfilled?
                && (outcome.Fulfilled? ==> error == None && action == Approve && comment == "")
                && (!outcome.Fulfilled? ==>
                      error == Some(RejectionMessage(outcome)) && action == old(action) && comment == old(comment))
    {
      sent, closed := None, false;
      if report.None? {
        return;
      }
      var r := report.value;
      var failed := Validate(action, comment, role, r.status);
      if failed.Some? {
        error := Some(failed.value.Message());
        return;
      }
      error := None;
      isSubmitting := true;
      var payload := BuildPayload(action, comment);
      sent := Some(Submission(r.id, payload, IsGM(role)));
      if outcome.Fulfilled? {
        closed := true;
        action := Approve;
        comment := "";
      } else {
        error := Some(RejectionMessage(outcome));
      }
      isSubmitting := false;
    }
  }
}
