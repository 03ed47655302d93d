/**
 * The HTTP side of the workflow (api.py): the validated decision path
 * `process_approval_decision`, the four POST handlers that feed it, and
 * the two read-only projections of the store. A request body is the
 * decoded JSON object with string values; a reply is a status code and
 * a JSON body.
 */
module Api {
  import opened Values
  import opened Text
  import opened Records
  import opened Main

  /** What a handler returns: the HTTP status code and the JSON body. */
  datatype Reply = Reply(code: nat, body: Json)

  /** `jsonify({'error': message}), code`. */
  function ErrorReply(code: nat, message: string): Reply
  {
    Reply(code, Obj(map["error" := Str(message)]))
  }

  // ---------------------------------------------------------------------------
  // process_approval_decision (api.py:154-209)
  // ---------------------------------------------------------------------------

  /** The six rejections of `process_approval_decision`, in the order it checks them. */
  datatype DecisionError =
    | NotFound(id: string)
    | NotPending(id: string, status: Status)
    | NotInSequence(approver: string)
    | StepsDone
    | OutOfTurn(expected: string, approver: string)
    | BadDecision
  {
    /** 404 for an unknown workflow, 400 for everything else. */
    function Code(): nat
    {
      if NotFound? then 404 else 400
    }

    function Message(): string
    {
      match this
      case NotFound(id) => "Workflow " + id + " not found"
      case NotPending(id, status) => "Workflow " + id + " is already " + status.Name()
      case NotInSequence(approver) => approver + " is not part of the approval sequence"
      case StepsDone => "Workflow has already completed all approval steps"
      case OutOfTurn(expected, approver) => "Expected approval from " + expected + ", not " + approver
      case BadDecision => "Decision must be \"approve\" or \"reject\""
    }
  }

  /** The conditions under which a decision is accepted, stated together. */
  predicate Acceptable(view: map<string, Record>, id: string, approver: string, decision: string)
  {
    && id in view
    && view[id].status == Pending
    && view[id].currentStep < |view[id].approvalSequence|
    && approver == view[id].approvalSequence[view[id].currentStep]
    && (decision == "approve" || decision == "reject")
  }

  /**
   * The guard chain of api.py:156-178. The first failing guard decides the
   * error; a decision passes exactly when it is acceptable.
   */
  function Validate(view: map<string, Record>, id: string, approver: string, decision: string): (e: Option<DecisionError>)
    ensures e.None? <==> Acceptable(view, id, approver, decision)
    ensures id !in view ==> e == Some(NotFound(id))
    ensures id in view && view[id].status != Pending ==> e == Some(NotPending(id, view[id].status))
    ensures id in view && view[id].status == Pending && approver !in view[id].approvalSequence
      ==> e == Some(NotInSequence(approver))
    ensures id in view && view[id].status == Pending && approver in view[id].approvalSequence
      && view[id].currentStep >= |view[id].approvalSequence|
      ==> e == Some(StepsDone)
    ensures id in view && view[id].status == Pending && approver in view[id].approvalSequence
      && view[id].currentStep < |view[id].approvalSequence| && approver != view[id].approvalSequence[view[id].currentStep]
      ==> e == Some(OutOfTurn(view[id].approvalSequence[view[id].currentStep], approver))
    ensures id in view && view[id].status == Pending
      && view[id].currentStep < |view[id].approvalSequence| && approver == view[id].approvalSequence[view[id].currentStep]
      && decision != "approve" && decision != "reject"
      ==> e == Some(BadDecision)
  {
    if id !in view then Some(NotFound(id))
    else
      var r := view[id];
      if r.status != Pending then Some(NotPending(id, r.status))
      else if approver !in r.approvalSequence then Some(NotInSequence(approver))
      else if r.currentStep >= |r.approvalSequence| then Some(StepsDone)
      else if approver != r.approvalSequence[r.currentStep] then Some(OutOfTurn(r.approvalSequence[r.currentStep], approver))
      else if decision != "approve" && decision != "reject" then Some(BadDecision)
      else None
  }

  /** The confirmation text as api.py:208 builds it: the decision word with "d" appended. */
  function MessageAsWritten(approver: string, decision: string): string
  {
    approver + " has " + (decision + "d") + " the invoice."
  }

  /** Appending "d" gives the right past tense for "approve" but not for "reject". */
  lemma RejectionMessageMisspelled(approver: string)
    ensures MessageAsWritten(approver, "approve") == approver + " has " + "approved" + " the invoice."
    ensures MessageAsWritten(approver, "reject") == approver + " has " + "rejectd" + " the invoice."
    ensures MessageAsWritten(approver, "reject") != approver + " has " + "rejected" + " the invoice."
  {
    assert "approve" + "d" == "approved";
    assert "reject" + "d" == "rejectd";
    var head := approver + " has ";
    var written, intended := head + "rejectd", head + "rejected";
    assert written[|head| + 6] == 'd' && intended[|head| + 6] == 'e';
    assert (written + " the invoice.")[|head| + 6] == 'd';
    assert (intended + " the invoice.")[|head| + 6] == 'e';
  }

  /** The past tense of an accepted decision word. */
  function PastTense(decision: string): string
  {
    if decision == "approve" then "approved" else "rejected"
  }

  /**
   * The confirmation text as evidently intended, with the past tense
   * spelled out; for an approval it is the text api.py:208 builds.
   */
  function ConfirmationMessage(approver: string, decision: string): (m: string)
    ensures decision == "approve" ==> m == MessageAsWritten(approver, decision)
  {
    assert "approve" + "d" == "approved";
    approver + " has " + PastTense(decision) + " the invoice."
  }

  /** The confirmation body of an accepted decision (api.py:204-209), with the message text as written. */
  function SuccessReply(id: string, status: Status, approver: string, decision: string): (reply: Reply)
    ensures reply.code == 200 && reply.body.Obj?
    ensures "status" in reply.body.fields && reply.body.fields["status"] == Str("success")
    ensures "workflow_id" in reply.body.fields && reply.body.fields["workflow_id"] == Str(id)
    ensures "workflow_status" in reply.body.fields && reply.body.fields["workflow_status"] == Str(status.Name())
    ensures "message" in reply.body.fields && reply.body.fields["message"] == Str(MessageAsWritten(approver, decision))
  {
    var fields := map[
      "status" := Str("success"),
      "workflow_id" := Str(id),
      "workflow_status" := Str(status.Name()),
      "message" := Str(MessageAsWritten(approver, decision))];
    assert "status" in fields && "workflow_id" in fields && "workflow_status" in fields && "message" in fields;
    Reply(200, Obj(fields))
  }

  /**
   * `process_approval_decision` as the reply and the store it leaves: a
   * failed guard changes nothing; an accepted decision is applied and
   * followed by `advance_workflow` (api.py:202), and the reply reports the
   * status after both.
   */
  function Decide(view: map<string, Record>, id: string, approver: string, decision: string, reason: string, now: string)
    : (out: (Reply, map<string, Record>))
    ensures Validate(view, id, approver, decision).Some? ==>
      var e := Validate(view, id, approver, decision).value;
      out == (ErrorReply(e.Code(), e.Message()), view)
    ensures Validate(view, id, approver, decision).None? ==>
      && id in view && id in out.1
      && out.1 == view[id := out.1[id]]
      && out.1[id] == Advance(Apply(view[id], approver, decision == "approve", reason, None, now))
      && out.0 == SuccessReply(id, out.1[id].status, approver, decision)
      && out.0.code == 200 && out.0.body.Obj? && "message" in out.0.body.fields
      && out.0.body.fields["message"] == Str(MessageAsWritten(approver, decision))
  {
    match Validate(view, id, approver, decision)
    case Some(e) => (ErrorReply(e.Code(), e.Message()), view)
    case None =>
      var r' := Advance(Apply(view[id], approver, decision == "approve", reason, None, now));
      (SuccessReply(id, r'.status, approver, decision), view[id := r'])
  }

  /**
   * An accepted decision on a record that keeps the sequence invariant:
   * the trailing `advance_workflow` changes nothing, so the stored record
   * is the shared decision update with the decision word logged as given
   * (api.py:180-202).
   */
  lemma AcceptedDecision(view: map<string, Record>, id: string, approver: string, decision: string, reason: string, now: string)
    requires Validate(view, id, approver, decision).None?
    requires Integrity(view[id])
    ensures var r, r' := view[id], Decide(view, id, approver, decision, reason, now).1[id];
      && r'.approvals == r.approvals[approver := (decision == "approve")]
      && r'.messages == r.messages + [Message(approver, decision, reason, None, now)]
      && (decision == "approve" ==>
            && r'.currentStep == r.currentStep + 1
            && (r'.status == Completed <==> r'.currentStep >= |r.approvalSequence|)
            && (r'.status == Pending <==> r'.currentStep < |r.approvalSequence|))
      && (decision == "reject" ==> r'.status == Rejected && r'.currentStep == r.currentStep)
  {
    var r := view[id];
    var applied := Apply(r, approver, decision == "approve", reason, None, now);
    AdvanceAfterApplyIsNoOp(r, decision == "approve", reason, None, now);
    assert applied.messages == applied.messages[..|r.messages|] + [applied.messages[|r.messages|]];
  }

  /** Every outcome of `process_approval_decision` keeps the full invariant of every record. */
  lemma DecideKeepsConsistent(view: map<string, Record>, id: string, approver: string, decision: string, reason: string, now: string)
    requires forall k :: k in view ==> Consistent(view[k])
    ensures var after := Decide(view, id, approver, decision, reason, now).1;
      forall k :: k in after ==> Consistent(after[k])
  {
    if Validate(view, id, approver, decision).None? {
      var r := view[id];
      ApplyKeepsConsistent(r, decision == "approve", reason, None, now);
      ConsistentAdvanceIsNoOp(Apply(r, approver, decision == "approve", reason, None, now));
    }
  }

  /** Under the full invariant the "all steps done" guard never fires: a pending record always has a step left. */
  lemma StepsDoneUnreachable(view: map<string, Record>, id: string, approver: string, decision: string)
    requires id in view && Consistent(view[id])
    ensures Validate(view, id, approver, decision) != Some(StepsDone)
  {
  }

  /**
   * After an accepted rejection every later call on that workflow fails at
   * the pending check and changes nothing (api.py:160-161, 193-194).
   */
  lemma RejectionIsFinal(view: map<string, Record>, id: string, approver: string, reason: string, now: string,
                         laterApprover: string, laterDecision: string, laterReason: string, later: string)
    requires Validate(view, id, approver, "reject").None?
    ensures var after := Decide(view, id, approver, "reject", reason, now).1;
      Decide(after, id, laterApprover, laterDecision, laterReason, later)
        == (ErrorReply(400, "Workflow " + id + " is already rejected"), after)
  {
    var after := Decide(view, id, approver, "reject", reason, now).1;
    assert after[id].status == Rejected;
    assert Validate(after, id, laterApprover, laterDecision) == Some(NotPending(id, Rejected));
    assert " is already " + "rejected" == " is already rejected";
    assert NotPending(id, Rejected).Message() == "Workflow " + id + " is already rejected";
  }

  /** Once completed, a workflow refuses every further decision. */
  lemma CompletionIsFinal(view: map<string, Record>, id: string, laterApprover: string, laterDecision: string, reason: string, now: string)
    requires id in view && view[id].status == Completed
    ensures Decide(view, id, laterApprover, laterDecision, reason, now)
      == (ErrorReply(400, "Workflow " + id + " is already completed"), view)
  {
    assert Validate(view, id, laterApprover, laterDecision) == Some(NotPending(id, Completed));
    assert " is already " + "completed" == " is already completed";
    assert NotPending(id, Completed).Message() == "Workflow " + id + " is already completed";
  }

  /**
   * The corrected confirmation names the approver and the decision in the
   * past tense; it differs from the text as written only for a rejection.
   */
  lemma SuccessMessage(approver: string)
    ensures ConfirmationMessage(approver, "approve") == approver + " has " + "approved" + " the invoice."
    ensures ConfirmationMessage(approver, "reject") == approver + " has " + "rejected" + " the invoice."
    ensures ConfirmationMessage(approver, "approve") == MessageAsWritten(approver, "approve")
    ensures ConfirmationMessage(approver, "reject") != MessageAsWritten(approver, "reject")
  {
    RejectionMessageMisspelled(approver);
  }

  /**
   * The reply to an accepted rejection carries the text as api.py:208
   * writes it, "rejectd".
   */
  lemma AcceptedRejectionReply(view: map<string, Record>, id: string, approver: string, reason: string, now: string)
    requires Validate(view, id, approver, "reject").None?
    ensures var reply := Decide(view, id, approver, "reject", reason, now).0;
      && reply.code == 200 && reply.body.Obj? && "message" in reply.body.fields
      && reply.body.fields["message"] == Str(approver + " has " + "rejectd" + " the invoice.")
      && reply.body.fields["message"] != Str(ConfirmationMessage(approver, "reject"))
  {
    RejectionMessageMisspelled(approver);
  }

  // ---------------------------------------------------------------------------
  // Scenarios on a fresh workflow
  // ---------------------------------------------------------------------------

  /** One approval by the role due on a pending workflow with the standard sequence. */
  lemma InOrderApproval(view: map<string, Record>, id: string, k: nat, reason: string, now: string)
    requires id in view && Integrity(view[id]) && view[id].status == Pending
    requires view[id].approvalSequence == ApprovalSequence && view[id].currentStep == k < |ApprovalSequence|
    ensures var out := Decide(view, id, ApprovalSequence[k], "approve", reason, now);
      var r' := out.1[id];
      && id in out.1
      && out.0 == SuccessReply(id, r'.status, ApprovalSequence[k], "approve")
      && Integrity(r') && r'.approvalSequence == ApprovalSequence
      && r'.currentStep == k + 1
      && r'.approvals == view[id].approvals[ApprovalSequence[k] := true]
      && (k + 1 < |ApprovalSequence| ==> r'.status == Pending)
      && (k + 1 == |ApprovalSequence| ==> r'.status == Completed)
  {
    var role := ApprovalSequence[k];
    assert role in view[id].approvalSequence;
    assert Validate(view, id, role, "approve").None?;
    AcceptedDecision(view, id, role, "approve", reason, now);
    ApplyKeepsIntegrity(view[id], true, reason, None, now);
    AdvanceAfterApplyIsNoOp(view[id], true, reason, None, now);
  }

  /** Approving the three roles in sequence order completes a fresh workflow (api.py:172-174, 197-199). */
  lemma ApprovingInOrderCompletes(view: map<string, Record>, id: string, invoice: Invoice, createdAt: string, reason: string, now: string)
    requires id in view && view[id] == NewRecord(invoice, createdAt)
    ensures var v1 := Decide(view, id, FinancialApprover, "approve", reason, now).1;
      var v2 := Decide(v1, id, DepartmentApprover, "approve", reason, now).1;
      var out := Decide(v2, id, ExecutiveApprover, "approve", reason, now);
      && out.1[id].status == Completed
      && out.1[id].currentStep == 3
      && out.1[id].approvals == map[FinancialApprover := true, DepartmentApprover := true, ExecutiveApprover := true]
      && out.0 == SuccessReply(id, Completed, ExecutiveApprover, "approve")
  {
    InOrderApproval(view, id, 0, reason, now);
    var v1 := Decide(view, id, FinancialApprover, "approve", reason, now).1;
    InOrderApproval(v1, id, 1, reason, now);
    var v2 := Decide(v1, id, DepartmentApprover, "approve", reason, now).1;
    InOrderApproval(v2, id, 2, reason, now);
  }

  /** Submitting the department role first fails with the expected and the received role named. */
  lemma OutOfOrderRefused(view: map<string, Record>, id: string, invoice: Invoice, createdAt: string, reason: string, now: string)
    requires id in view && view[id] == NewRecord(invoice, createdAt)
    ensures Decide(view, id, DepartmentApprover, "approve", reason, now)
      == (ErrorReply(400, "Expected approval from " + FinancialApprover + ", not " + DepartmentApprover), view)
  {
    assert DepartmentApprover in view[id].approvalSequence by {
      assert view[id].approvalSequence[1] == DepartmentApprover;
    }
    assert Validate(view, id, DepartmentApprover, "approve") == Some(OutOfTurn(FinancialApprover, DepartmentApprover));
  }

  // ---------------------------------------------------------------------------
  // Request handlers (api.py:60-152)
  // ---------------------------------------------------------------------------

  /** A decoded request body; `request.get_json() or {}` turns a missing body into the empty map. */
  type Request = map<string, string>

  const GenericFields: seq<string> := ["workflow_id", "approver_type", "decision", "reason"]
  const RoleFields: seq<string> := ["workflow_id", "decision", "reason"]

  /**
   * Where the `for field in required` loop stops: the position of the
   * first field the request lacks, or the length when none is missing.
   */
  function MissingAt(req: Request, fields: seq<string>): (i: nat)
    ensures i <= |fields|
    ensures forall j :: 0 <= j < i ==> fields[j] in req
    ensures i < |fields| ==> fields[i] !in req
  {
    if |fields| == 0 || fields[0] !in req then 0
    else 1 + MissingAt(req, fields[1..])
  }

  /** The first field the request lacks, if any. */
  function FirstMissing(req: Request, fields: seq<string>): (m: Option<string>)
    ensures m.None? <==> forall f :: f in fields ==> f in req
    ensures m.Some? ==>
      && m.value !in req
      && exists i :: 0 <= i < |fields| && fields[i] == m.value && forall j :: 0 <= j < i ==> fields[j] in req
  {
    var i := MissingAt(req, fields);
    if i < |fields| then Some(fields[i]) else None
  }

  /** The 400 reply for a missing field. */
  function MissingFieldReply(field: string): Reply
  {
    ErrorReply(400, "Missing required field: " + field)
  }

  /** `generic_approval` (api.py:60-83): the four fields are required, and the decision is lower-cased. */
  function GenericOutcome(view: map<string, Record>, req: Request, now: string): (out: (Reply, map<string, Record>))
    ensures FirstMissing(req, GenericFields).Some? ==>
      out == (MissingFieldReply(FirstMissing(req, GenericFields).value), view)
    ensures FirstMissing(req, GenericFields).None? ==>
      && (forall f :: f in GenericFields ==> f in req)
      && out == Decide(view, req["workflow_id"], req["approver_type"], Lower(req["decision"]), req["reason"], now)
  {
    match FirstMissing(req, GenericFields)
    case Some(field) => (MissingFieldReply(field), view)
    case None =>
      assert GenericFields[0] in req && GenericFields[1] in req && GenericFields[2] in req && GenericFields[3] in req;
      Decide(view, req["workflow_id"], req["approver_type"], Lower(req["decision"]), req["reason"], now)
  }

  /**
   * The role-scoped handlers (api.py:85-152): three fields are required,
   * the role is their own whatever the body says, and the decision is
   * lower-cased.
   */
  function RoleOutcome(view: map<string, Record>, req: Request, role: string, now: string): (out: (Reply, map<string, Record>))
    ensures FirstMissing(req, RoleFields).Some? ==>
      out == (MissingFieldReply(FirstMissing(req, RoleFields).value), view)
    ensures FirstMissing(req, RoleFields).None? ==>
      && (forall f :: f in RoleFields ==> f in req)
      && out == Decide(view, req["workflow_id"], role, Lower(req["decision"]), req["reason"], now)
  {
    match FirstMissing(req, RoleFields)
    case Some(field) => (MissingFieldReply(field), view)
    case None =>
      assert RoleFields[0] in req && RoleFields[1] in req && RoleFields[2] in req;
      Decide(view, req["workflow_id"], role, Lower(req["decision"]), req["reason"], now)
  }

  /** The missing-field reply names the first absent field in the order workflow_id, approver_type, decision, reason. */
  lemma GenericReportsFirstMissing(view: map<string, Record>, req: Request, now: string)
    ensures "workflow_id" !in req ==>
      GenericOutcome(view, req, now) == (MissingFieldReply("workflow_id"), view)
    ensures "workflow_id" in req && "approver_type" !in req ==>
      GenericOutcome(view, req, now) == (MissingFieldReply("approver_type"), view)
    ensures "workflow_id" in req && "approver_type" in req && "decision" !in req ==>
      GenericOutcome(view, req, now) == (MissingFieldReply("decision"), view)
    ensures "workflow_id" in req && "approver_type" in req && "decision" in req && "reason" !in req ==>
      GenericOutcome(view, req, now) == (MissingFieldReply("reason"), view)
  {
    var fs := GenericFields;
    assert fs[0] == "workflow_id" && fs[1] == "approver_type" && fs[2] == "decision" && fs[3] == "reason";
    assert "approver_type" != "workflow_id" && "decision" != "workflow_id" && "reason" != "workflow_id";
    assert "decision" != "approver_type" && "reason" != "approver_type" && "reason" != "decision";
  }

  /** An upper-case "APPROVE" is accepted like "approve". */
  lemma UpperCaseDecisionAccepted(view: map<string, Record>, req: Request, now: string)
    requires forall f :: f in GenericFields ==> f in req
    requires req["decision"] == "APPROVE"
    ensures GenericOutcome(view, req, now)
      == Decide(view, req["workflow_id"], req["approver_type"], "approve", req["reason"], now)
  {
    assert GenericFields[0] in req && GenericFields[1] in req && GenericFields[2] in req && GenericFields[3] in req;
    assert Lower("APPROVE") == "approve";
  }

  // ---------------------------------------------------------------------------
  // Readers (api.py:9-58)
  // ---------------------------------------------------------------------------

  /** `dict.get(key)`: the stored value, or null when absent. */
  function Lookup(fields: map<string, Json>, key: string): (v: Json)
    ensures key in fields ==> v == fields[key]
    ensures key !in fields ==> v == Null
  {
    if key in fields then fields[key] else Null
  }

  function Strings(s: seq<string>): Json
  {
    Arr(seq(|s|, i requires 0 <= i < |s| => Str(s[i])))
  }

  /** One entry of `get_all_workflows` (api.py:26-35). */
  function Summary(id: string, r: Record): (j: Json)
    ensures j.Obj? && "workflow_id" in j.fields && j.fields["workflow_id"] == Str(id)
    ensures "status" in j.fields && j.fields["status"] == Str(r.status.Name())
    ensures "invoice_number" in j.fields && j.fields["invoice_number"] == Lookup(r.invoiceData, "invoice_number")
    ensures "vendor" in j.fields && j.fields["vendor"] == Lookup(r.invoiceData, "vendor")
    ensures "amount" in j.fields && j.fields["amount"] == Lookup(r.invoiceData, "total_amount")
  {
    var fields := map[
      "workflow_id" := Str(id),
      "status" := Str(r.status.Name()),
      "created_at" := Str(r.createdAt),
      "invoice_number" := Lookup(r.invoiceData, "invoice_number"),
      "vendor" := Lookup(r.invoiceData, "vendor"),
      "amount" := Lookup(r.invoiceData, "total_amount"),
      "current_step" := Num(r.currentStep as real),
      "approval_sequence" := Strings(r.approvalSequence)];
    assert "workflow_id" in fields && "status" in fields && "invoice_number" in fields;
    assert "vendor" in fields && "amount" in fields;
    Obj(fields)
  }

  /** The id a summary carries. */
  function SummaryId(j: Json): Option<string>
  {
    if j.Obj? && "workflow_id" in j.fields && j.fields["workflow_id"].Str? then Some(j.fields["workflow_id"].s) else None
  }

  /** The summaries of the ids, in order. */
  function Summaries(view: map<string, Record>, ids: seq<string>): (items: seq<Json>)
    requires forall i :: 0 <= i < |ids| ==> ids[i] in view
    ensures |items| == |ids|
    ensures forall i :: 0 <= i < |ids| ==> items[i] == Summary(ids[i], view[ids[i]])
  {
    seq(|ids|, i requires 0 <= i < |ids| => Summary(ids[i], view[ids[i]]))
  }

  /** A prefix one longer is the prefix followed by the next element. */
  lemma PrefixSnoc(s: seq<string>, i: nat)
    requires i < |s|
    ensures s[..i + 1] == s[..i] + [s[i]]
  {
  }

  /** The summaries of a list with one more id end with that id's summary. */
  lemma SummariesSnoc(view: map<string, Record>, ids: seq<string>, id: string)
    requires forall i :: 0 <= i < |ids| ==> ids[i] in view
    requires id in view
    ensures Summaries(view, ids + [id]) == Summaries(view, ids) + [Summary(id, view[id])]
  {
    var longer := ids + [id];
    assert forall i :: 0 <= i < |ids| ==> longer[i] == ids[i];
  }

  /**
   * `get_all_workflows` (api.py:9-36): one summary per stored workflow,
   * in the dictionary's iteration order.
   */
  method GetAllWorkflows(store: Store) returns (reply: Reply)
    requires store.Valid()
    ensures forall i :: 0 <= i < |store.order| ==> store.order[i] in store.View()
    ensures reply == Reply(200, Obj(map["workflows" := Arr(Summaries(store.View(), store.order))]))
  {
    ghost var view := store.View();
    var order := store.order;
    assert forall k :: 0 <= k < |order| ==> order[k] in store.workflows && order[k] in view;
    var items: seq<Json> := [];
    var i := 0;
    while i < |order|
      invariant 0 <= i <= |order|
      invariant view == store.View()
      invariant forall k :: 0 <= k < |order| ==> order[k] in view
      invariant items == Summaries(view, order[..i])
    {
      var id := order[i];
      var r := store.workflows[id].Value();
      store.ViewAt(id);
      SummariesSnoc(view, order[..i], id);
      PrefixSnoc(order, i);
      items := items + [Summary(id, r)];
      i := i + 1;
    }
    assert order[..i] == order;
    reply := Reply(200, Obj(map["workflows" := Arr(items)]));
  }

  /** The summary list names every stored workflow exactly once. */
  lemma OneSummaryPerWorkflow(view: map<string, Record>, order: seq<string>)
    requires Distinct(order) && forall id :: id in view <==> id in order
    ensures var items := Summaries(view, order);
      && (forall id :: id in view <==> exists i :: 0 <= i < |items| && SummaryId(items[i]) == Some(id))
      && (forall i, j :: 0 <= i < j < |items| ==> SummaryId(items[i]) != SummaryId(items[j]))
  {
    var items := Summaries(view, order);
    forall i | 0 <= i < |items| ensures SummaryId(items[i]) == Some(order[i]) {
      assert items[i] == Summary(order[i], view[order[i]]);
    }
    forall id | id in view ensures exists i :: 0 <= i < |items| && SummaryId(items[i]) == Some(id) {
      var i :| 0 <= i < |order| && order[i] == id;
      assert SummaryId(items[i]) == Some(id);
    }
  }

  /** A logged decision as `jsonify` writes it; the "method" key is present only for the UI and e-mail channels. */
  function MessageJson(m: Message): Json
  {
    var base := map["role" := Str(m.role), "decision" := Str(m.decision), "reason" := Str(m.reason), "timestamp" := Str(m.timestamp)];
    Obj(if m.channel.Some? then base["method" := Str(m.channel.value)] else base)
  }

  /** Reads a logged decision back from its JSON form. */
  function MessageOf(j: Json): Option<Message>
  {
    if j.Obj? && "role" in j.fields && "decision" in j.fields && "reason" in j.fields && "timestamp" in j.fields
      && j.fields["role"].Str? && j.fields["decision"].Str? && j.fields["reason"].Str? && j.fields["timestamp"].Str?
    then
      var channel := if "method" in j.fields && j.fields["method"].Str? then Some(j.fields["method"].s) else None;
      Some(Message(j.fields["role"].s, j.fields["decision"].s, j.fields["reason"].s, channel, j.fields["timestamp"].s))
    else None
  }

  /** The JSON form of a logged decision loses nothing. */
  lemma MessageRoundTrip(m: Message)
    ensures MessageOf(MessageJson(m)) == Some(m)
  {
    var base := map["role" := Str(m.role), "decision" := Str(m.decision), "reason" := Str(m.reason), "timestamp" := Str(m.timestamp)];
    assert "method" !in base;
  }

  function MessagesJson(ms: seq<Message>): Json
  {
    Arr(seq(|ms|, i requires 0 <= i < |ms| => MessageJson(ms[i])))
  }

  function ApprovalsJson(a: map<string, bool>): Json
  {
    Obj(map role | role in a :: Bool(a[role]))
  }

  /** Reads the approvals map back from its JSON form. */
  function ApprovalsOf(j: Json): Option<map<string, bool>>
  {
    if j.Obj? && forall role :: role in j.fields ==> j.fields[role].Bool?
    then Some(map role | role in j.fields :: j.fields[role].b)
    else None
  }

  /** The JSON form of the approvals map loses nothing. */
  lemma ApprovalsRoundTrip(a: map<string, bool>)
    ensures ApprovalsOf(ApprovalsJson(a)) == Some(a)
  {
    var j := ApprovalsJson(a);
    assert j.fields.Keys == a.Keys;
    assert forall role :: role in j.fields ==> j.fields[role] == Bool(a[role]);
    assert forall role :: role in j.fields ==> j.fields[role].Bool?;
    assert (map role | role in j.fields :: j.fields[role].b) == a;
  }

  /** The detail body of `get_workflow` (api.py:48-57). */
  function Detail(id: string, r: Record): (j: Json)
    ensures j.Obj? && "invoice_data" in j.fields && j.fields["invoice_data"] == Obj(r.invoiceData)
    ensures "approvals" in j.fields && j.fields["approvals"] == ApprovalsJson(r.approvals)
    ensures "messages" in j.fields && j.fields["messages"] == MessagesJson(r.messages)
  {
    var fields := map[
      "workflow_id" := Str(id),
      "status" := Str(r.status.Name()),
      "created_at" := Str(r.createdAt),
      "current_step" := Num(r.currentStep as real),
      "approval_sequence" := Strings(r.approvalSequence),
      "invoice_data" := Obj(r.invoiceData),
      "approvals" := ApprovalsJson(r.approvals),
      "messages" := MessagesJson(r.messages)];
    assert "invoice_data" in fields && "approvals" in fields && "messages" in fields;
    Obj(fields)
  }

  /**
   * `get_workflow` (api.py:38-58): 404 for an unknown id; otherwise the
   * record with its approvals and its log given back in full.
   */
  function GetWorkflow(view: map<string, Record>, id: string): (reply: Reply)
    ensures id !in view <==> reply == ErrorReply(404, "Workflow " + id + " not found")
    ensures id in view ==>
      && reply.code == 200 && reply.body.Obj?
      && "invoice_data" in reply.body.fields && "approvals" in reply.body.fields && "messages" in reply.body.fields
      && reply.body.fields["invoice_data"] == Obj(view[id].invoiceData)
      && ApprovalsOf(reply.body.fields["approvals"]) == Some(view[id].approvals)
      && reply.body.fields["messages"].Arr?
      && |reply.body.fields["messages"].items| == |view[id].messages|
      && forall i :: 0 <= i < |view[id].messages| ==>
           MessageOf(reply.body.fields["messages"].items[i]) == Some(view[id].messages[i])
  {
    if id !in view then ErrorReply(404, "Workflow " + id + " not found")
    else
      var r := view[id];
      ApprovalsRoundTrip(r.approvals);
      forall i | 0 <= i < |r.messages| ensures MessageOf(MessageJson(r.messages[i])) == Some(r.messages[i]) {
        MessageRoundTrip(r.messages[i]);
      }
      Reply(200, Detail(id, r))
  }

  // ---------------------------------------------------------------------------
  // The handlers on the store
  // ---------------------------------------------------------------------------

  /** `process_approval_decision` on the store (api.py:154-209). */
  method ProcessApprovalDecision(store: Store, id: string, approver: string, decision: string, reason: string, now: string)
    returns (reply: Reply)
    requires store.Valid()
    modifies store.workflows.Values
    ensures (reply, store.View()) == Decide(old(store.View()), id, approver, decision, reason, now)
    ensures Validate(old(store.View()), id, approver, decision).None? ==>
      && reply.code == 200 && reply.body.Obj? && "message" in reply.body.fields
      && reply.body.fields["message"] == Str(MessageAsWritten(approver, decision))
  {
    if id !in store.workflows {
      return ErrorReply(404, "Workflow " + id + " not found");
    }
    var w := store.workflows[id];
    if w.status != Pending {
      return ErrorReply(400, NotPending(id, w.status).Message());
    }
    if approver !in w.approvalSequence {
      return ErrorReply(400, NotInSequence(approver).Message());
    }
    if w.currentStep >= |w.approvalSequence| {
      return ErrorReply(400, StepsDone.Message());
    }
    var expected := w.approvalSequence[w.currentStep];
    if approver != expected {
      return ErrorReply(400, OutOfTurn(expected, approver).Message());
    }
    if decision != "approve" && decision != "reject" {
      return ErrorReply(400, BadDecision.Message());
    }
    ghost var applied := Apply(w.Value(), approver, decision == "approve", reason, None, now);
    w.RecordDecision(approver, decision == "approve", reason, None, now);
    store.Touched(id);
    ghost var v1 := store.View();
    var advanced := store.AdvanceWorkflow(id);
    Store.Rebound(old(store.View()), id, applied, Advance(applied));
    reply := SuccessReply(id, w.status, approver, decision);
  }

  /** `generic_approval` on the store (api.py:60-83). */
  method GenericApproval(store: Store, req: Request, now: string) returns (reply: Reply)
    requires store.Valid()
    modifies store.workflows.Values
    ensures (reply, store.View()) == GenericOutcome(old(store.View()), req, now)
  {
    var missing := FirstMissing(req, GenericFields);
    if missing.Some? {
      return MissingFieldReply(missing.value);
    }
    assert GenericFields[0] in req && GenericFields[1] in req && GenericFields[2] in req && GenericFields[3] in req;
    reply := ProcessApprovalDecision(store, req["workflow_id"], req["approver_type"], Lower(req["decision"]), req["reason"], now);
  }

  /** The shared body of the three role-scoped handlers (api.py:85-152). */
  method RoleApproval(store: Store, req: Request, role: string, now: string) returns (reply: Reply)
    requires store.Valid()
    modifies store.workflows.Values
    ensures (reply, store.View()) == RoleOutcome(old(store.View()), req, role, now)
  {
    var missing := FirstMissing(req, RoleFields);
    if missing.Some? {
      return MissingFieldReply(missing.value);
    }
    assert RoleFields[0] in req && RoleFields[1] in req && RoleFields[2] in req;
    reply := ProcessApprovalDecision(store, req["workflow_id"], role, Lower(req["decision"]), req["reason"], now);
  }

  /** `financial_approval` (api.py:85-106). */
  method FinancialApproval(store: Store, req: Request, now: string) returns (reply: Reply)
    requires store.Valid()
    modifies store.workflows.Values
    ensures (reply, store.View()) == RoleOutcome(old(store.View()), req, FinancialApprover, now)
  {
    reply := RoleApproval(store, req, FinancialApprover, now);
  }

  /** `department_approval` (api.py:108-129). */
  method DepartmentApproval(store: Store, req: Request, now: string) returns (reply: Reply)
    requires store.Valid()
    modifies store.workflows.Values
    ensures (reply, store.View()) == RoleOutcome(old(store.View()), req, DepartmentApprover, now)
  {
    reply := RoleApproval(store, req, DepartmentApprover, now);
  }

  /** `executive_approval` (api.py:131-152). */
  method ExecutiveApproval(store: Store, req: Request, now: string) returns (reply: Reply)
    requires store.Valid()
    modifies store.workflows.Values
    ensures (reply, store.View()) == RoleOutcome(old(store.View()), req, ExecutiveApprover, now)
  {
    reply := RoleApproval(store, req, ExecutiveApprover, now);
  }
}
