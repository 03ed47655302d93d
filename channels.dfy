/**
 * The two human channels of main.py as outcomes on the store's value
 * (`workflow_states` as a map from id to record): the UI form
 * (`process_ui_approval`) and the e-mail reply (`process_email_approval`).
 * Neither consults the status, so both also act on rejected workflows.
 * The `Store` class in main_store.dfy runs each of them in place.
 */
module Channels {
  import opened Values
  import opened Text
  import opened EmailParsing
  import opened Records

  /** The `ValueError`s that `process_ui_approval` raises. */
  datatype UiError = UnknownWorkflow(id: string) | AllStepsDone | WrongApprover(expected: string, got: string)
  {
    function Message(): string
    {
      match this
      case UnknownWorkflow(id) => "Workflow " + id + " not found"
      case AllStepsDone => "Workflow has already completed all approval steps"
      case WrongApprover(expected, got) => "Expected approval from " + expected + ", but got " + got
    }
  }

  /**
   * `process_ui_approval` (main.py:365-404): three guards, then the shared
   * decision update with method "ui". The record's status is never read.
   */
  function UiDecision(view: map<string, Record>, id: string, approver: string, approved: bool, reason: string, now: string)
    : (out: Result<Record, UiError>)
    ensures id !in view ==> out == Err(UnknownWorkflow(id))
    ensures id in view && view[id].currentStep >= |view[id].approvalSequence| ==> out == Err(AllStepsDone)
    ensures id in view && view[id].currentStep < |view[id].approvalSequence| && approver != view[id].approvalSequence[view[id].currentStep]
      ==> out == Err(WrongApprover(view[id].approvalSequence[view[id].currentStep], approver))
    ensures out.Ok? ==>
      && id in view && view[id].currentStep < |view[id].approvalSequence|
      && approver == view[id].approvalSequence[view[id].currentStep]
      && out.value == Apply(view[id], approver, approved, reason, Some("ui"), now)
  {
    if id !in view then Err(UnknownWorkflow(id))
    else
      var r := view[id];
      if r.currentStep >= |r.approvalSequence| then Err(AllStepsDone)
      else if approver != r.approvalSequence[r.currentStep] then Err(WrongApprover(r.approvalSequence[r.currentStep], approver))
      else Ok(Apply(r, approver, approved, reason, Some("ui"), now))
  }

  /**
   * An accepted UI decision records the boolean for the role due, logs one
   * entry with method "ui", and moves on or rejects (main.py:385-399).
   */
  lemma UiDecisionEffects(view: map<string, Record>, id: string, approver: string, approved: bool, reason: string, now: string)
    requires UiDecision(view, id, approver, approved, reason, now).Ok?
    ensures var r, r' := view[id], UiDecision(view, id, approver, approved, reason, now).value;
      && r'.approvals == r.approvals[approver := approved]
      && r'.messages == r.messages + [Message(approver, DecisionWord(approved), reason, Some("ui"), now)]
      && (approved ==> r'.currentStep == r.currentStep + 1
                       && (r'.status == Completed <==> r'.currentStep >= |r.approvalSequence| || r.status == Completed))
      && (!approved ==> r'.status == Rejected && r'.currentStep == r.currentStep)
  {
    var r, r' := view[id], UiDecision(view, id, approver, approved, reason, now).value;
    assert r'.messages == r'.messages[..|r.messages|] + [r'.messages[|r.messages|]];
  }

  /** Every UI outcome keeps the sequence invariant of the record it touches. */
  lemma UiKeepsIntegrity(view: map<string, Record>, id: string, approver: string, approved: bool, reason: string, now: string)
    requires id in view && Integrity(view[id])
    requires UiDecision(view, id, approver, approved, reason, now).Ok?
    ensures Integrity(UiDecision(view, id, approver, approved, reason, now).value)
  {
    ApplyKeepsIntegrity(view[id], approved, reason, Some("ui"), now);
  }

  /**
   * The UI channel accepts a decision on a workflow that is already
   * rejected: approving the last step of a rejected workflow completes it.
   */
  lemma UiCompletesRejected(view: map<string, Record>, id: string, reason: string, now: string)
    requires id in view && view[id].status == Rejected
    requires |view[id].approvalSequence| == view[id].currentStep + 1
    ensures var out := UiDecision(view, id, view[id].approvalSequence[view[id].currentStep], true, reason, now);
      out.Ok? && out.value.status == Completed
  {
  }

  // ---------------------------------------------------------------------------
  // E-mail
  // ---------------------------------------------------------------------------

  /** The id the e-mail acts on: the one passed in if it is non-empty, else the first `[WF-<digits>]` token (main.py:414-421). */
  function EmailTarget(text: string, givenId: Option<string>): (id: Option<string>)
    ensures givenId.Some? && givenId.value != "" ==> id == givenId
    ensures (givenId.None? || givenId.value == "") ==> id == WorkflowIdIn(text)
  {
    if givenId.Some? && givenId.value != "" then givenId else WorkflowIdIn(text)
  }

  /**
   * `process_email_approval` (main.py:407-469): `None` when no id is
   * found, the id is unknown, the text holds no keyword, or every step is
   * done; otherwise the id and the record after the shared decision update
   * for the role due, with the extracted reason and method "email".
   */
  function EmailDecision(view: map<string, Record>, text: string, givenId: Option<string>, now: string)
    : (out: Option<(string, Record)>)
    ensures out.Some? <==>
      && EmailTarget(text, givenId).Some? && EmailTarget(text, givenId).value in view
      && Intent(text).Some?
      && view[EmailTarget(text, givenId).value].currentStep < |view[EmailTarget(text, givenId).value].approvalSequence|
    ensures out.Some? ==>
      && EmailTarget(text, givenId) == Some(out.value.0) && out.value.0 in view
      && var r := view[out.value.0];
      out.value.1 == Apply(r, r.approvalSequence[r.currentStep], Intent(text).value, ReasonIn(text), Some("email"), now)
  {
    match EmailTarget(text, givenId)
    case None => None
    case Some(id) =>
      if id !in view then None
      else
        match Intent(text)
        case None => None
        case Some(approved) =>
          var r := view[id];
          if r.currentStep >= |r.approvalSequence| then None
          else Some((id, Apply(r, r.approvalSequence[r.currentStep], approved, ReasonIn(text), Some("email"), now)))
  }

  /** Every e-mail outcome keeps the sequence invariant of the record it touches. */
  lemma EmailKeepsIntegrity(view: map<string, Record>, text: string, givenId: Option<string>, now: string)
    requires forall id :: id in view ==> Integrity(view[id])
    requires EmailDecision(view, text, givenId, now).Some?
    ensures Integrity(EmailDecision(view, text, givenId, now).value.1)
  {
    var id := EmailDecision(view, text, givenId, now).value.0;
    ApplyKeepsIntegrity(view[id], Intent(text).value, ReasonIn(text), Some("email"), now);
  }

  /**
   * A text that carries both an approval and a rejection keyword approves
   * for the role due (main.py:429-432, 449).
   */
  lemma EmailWithBothSignalsApproves(view: map<string, Record>, text: string, givenId: Option<string>, now: string)
    requires ApprovalSignal(text) && RejectionSignal(text)
    requires EmailDecision(view, text, givenId, now).Some?
    ensures var id := EmailDecision(view, text, givenId, now).value.0;
      var r, r' := view[id], EmailDecision(view, text, givenId, now).value.1;
      && r'.approvals[r.approvalSequence[r.currentStep]]
      && r'.currentStep == r.currentStep + 1
      && r'.messages[|r.messages|].decision == "approve"
  {
  }

  /** The reply "I approve this invoice. Reason: looks fine. [WF-123]" (`ExampleEmail`), sent to a fresh workflow stored as "WF-123". */
  lemma ExampleEmailApprovesFinancialStep(view: map<string, Record>, invoice: Invoice, createdAt: string, now: string)
    requires "WF-123" in view && view["WF-123"] == NewRecord(invoice, createdAt)
    ensures EmailDecision(view, ExampleEmail, None, now) == Some(("WF-123",
      NewRecord(invoice, createdAt).(
        currentStep := 1,
        approvals := map[FinancialApprover := true],
        messages := [Message(FinancialApprover, "approve", "looks fine. [WF-123]", Some("email"), now)])))
  {
    WorkflowIdOfExample();
    ReasonOfExample();
    IntentOfExample();
    var r := NewRecord(invoice, createdAt);
    assert EmailTarget(ExampleEmail, None) == Some("WF-123");
    var r' := Apply(r, FinancialApprover, true, "looks fine. [WF-123]", Some("email"), now);
    assert EmailDecision(view, ExampleEmail, None, now) == Some(("WF-123", r'));
    assert r'.approvals == map[FinancialApprover := true];
  }

  // ---------------------------------------------------------------------------
  // The simulated reply of simulate_email_approval
  // ---------------------------------------------------------------------------

  /** The text before the action word in the simulated reply. */
  function SimulatedEmailHead(id: string): string
  {
    "\n    Subject: RE: [Invoice Approval] [" + id + "]\n    \n    I "
  }

  /** The text after the action word in the simulated reply. */
  function SimulatedEmailTail(approve: bool): string
  {
    var verdict := if approve then "acceptable" else "unacceptable";
    " this invoice.\n    \n    Reason: Reviewed and found " + verdict + ".\n    \n    Best regards,\n    Test User\n    "
  }

  /** The reply `simulate_email_approval` composes (main.py:594-605). */
  function SimulatedEmail(id: string, approve: bool): string
  {
    SimulatedEmailHead(id) + (if approve then "approve" else "reject") + SimulatedEmailTail(approve)
  }

  /**
   * The simulated reply always carries a keyword, and the approving one is
   * read as an approval, whatever the id.
   */
  lemma SimulatedEmailIsClear(id: string, approve: bool)
    ensures Intent(SimulatedEmail(id, approve)).Some?
    ensures approve ==> Intent(SimulatedEmail(id, approve)) == Some(true)
  {
    var text := SimulatedEmail(id, approve);
    var pat := if approve then "approve" else "reject";
    var p := |SimulatedEmailHead(id)|;
    MatchBetween(SimulatedEmailHead(id), pat, SimulatedEmailTail(approve));
    LowerKeepsMatch(text, pat, p);
  }

  /**
   * `simulate_email_approval(id, True)` on a workflow with a step left
   * records an approval for the role due through the e-mail channel.
   */
  lemma SimulatedApprovalEmailApproves(view: map<string, Record>, id: string, now: string)
    requires id in view && id != "" && view[id].currentStep < |view[id].approvalSequence|
    ensures var r := view[id];
      EmailDecision(view, SimulatedEmail(id, true), Some(id), now)
        == Some((id, Apply(r, r.approvalSequence[r.currentStep], true, ReasonIn(SimulatedEmail(id, true)), Some("email"), now)))
  {
    SimulatedEmailIsClear(id, true);
  }

  /**
   * `simulate_ui_approval` submits the role due, so its call to
   * `process_ui_approval` never raises when a step is left (main.py:620-633).
   */
  lemma SimulatedUiNeverFails(view: map<string, Record>, id: string, approve: bool, reason: string, now: string)
    requires id in view && view[id].currentStep < |view[id].approvalSequence|
    ensures UiDecision(view, id, view[id].approvalSequence[view[id].currentStep], approve, reason, now).Ok?
  {
  }
}
