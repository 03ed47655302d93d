/**
 * The in-place side of main.py: the stored workflow record as an object
 * whose fields the handlers update, and the global `workflow_states`
 * dictionary as a store of such objects. Every method is specified by the
 * value-level function in records.dfy or channels.dfy that it carries out.
 */
module Main {
  import opened Values
  import opened EmailParsing
  import opened Records
  import opened Channels

  /** One stored workflow record (main.py:192-200), updated in place. */
  class Workflow {
    var invoiceData: Invoice
    var approvalSequence: seq<string>
    var currentStep: nat
    var approvals: map<string, bool>
    var status: Status
    var createdAt: string
    var messages: seq<Message>

    /** The record as a value. */
    function Value(): Record
      reads this
    {
      Record(invoiceData, approvalSequence, currentStep, approvals, status, createdAt, messages)
    }

    /** The dictionary literal of `create_approval_workflow` (main.py:186-200). */
    constructor (invoice: Invoice, now: string)
      ensures Value() == NewRecord(invoice, now)
    {
      invoiceData := invoice;
      approvalSequence := ApprovalSequence;
      currentStep := 0;
      approvals := map[];
      status := Pending;
      createdAt := now;
      messages := [];
    }

    /** Record a decision, log it, then reject or move one step on (api.py:181-199, main.py:385-399, 449-464). */
    method RecordDecision(approver: string, approved: bool, reason: string, channel: Option<string>, now: string)
      modifies this
      ensures Value() == Apply(old(Value()), approver, approved, reason, channel, now)
    {
      approvals := approvals[approver := approved];
      messages := messages + [Message(approver, DecisionWord(approved), reason, channel, now)];
      if !approved {
        status := Rejected;
      } else {
        currentStep := currentStep + 1;
        if currentStep >= |approvalSequence| {
          status := Completed;
        }
      }
    }

    /** The body of `advance_workflow` once the record is found (main.py:221-246). */
    method AdvanceStep()
      modifies this
      ensures Value() == Advance(old(Value()))
    {
      if currentStep >= |approvalSequence| {
        status := Completed;
        return;
      }
      var current := approvalSequence[currentStep];
      if current in approvals && approvals[current] {
        currentStep := currentStep + 1;
        if currentStep >= |approvalSequence| {
          status := Completed;
        }
      }
    }

    /** The update of one automatic approver, whose decision is always "approve" (main.py:266-283). */
    method RecordAutoApproval(role: string, reason: string, now: string)
      modifies this
      ensures Value() == AutoApprove(old(Value()), role, reason, now)
    {
      approvals := approvals[role := true];
      messages := messages + [Message(role, "approve", reason, None, now)];
    }
  }

  /**
   * `workflow_states` (main.py:21): workflow objects by id, with the ids in
   * the order the dictionary iterates them (first insertion first).
   */
  class Store {
    var workflows: map<string, Workflow>
    var order: seq<string>

    /** Each id is listed once, the listed ids are the stored ones, and no two ids share an object. */
    ghost predicate Valid()
      reads this
    {
      && Distinct(order)
      && (forall id :: id in workflows <==> id in order)
      && (forall a, b :: a in workflows && b in workflows && a != b ==> workflows[a] != workflows[b])
    }

    /** The store as a value. */
    ghost function View(): map<string, Record>
      reads this, workflows.Values
    {
      map id | id in workflows :: workflows[id].Value()
    }

    constructor ()
      ensures Valid() && View() == map[] && order == []
    {
      workflows := map[];
      order := [];
    }

    /**
     * `create_approval_workflow` with the id and the clock reading passed
     * in (main.py:178-205). A repeated id replaces the old record and keeps
     * its place in the iteration order.
     */
    method CreateApprovalWorkflow(id: string, invoice: Invoice, now: string) returns (created: string)
      requires Valid()
      modifies this
      ensures Valid()
      ensures created == id
      ensures View() == old(View())[id := NewRecord(invoice, now)]
      ensures order == if id in old(order) then old(order) else old(order) + [id]
      ensures id in workflows && fresh(workflows[id]) && workflows == old(workflows)[id := workflows[id]]
    {
      var w := new Workflow(invoice, now);
      workflows := workflows[id := w];
      if id !in order {
        order := order + [id];
      }
      created := id;
      Replaced(id);
    }

    /** The view holds, under each stored id, that object's record. */
    lemma ViewAt(id: string)
      requires id in workflows
      ensures id in View() && View()[id] == workflows[id].Value()
    {
    }

    /** Binding a key twice keeps the second value. */
    static lemma Rebound(m: map<string, Record>, id: string, a: Record, b: Record)
      ensures m[id := a][id := b] == m[id := b]
    {
    }

    /** The view after `id` is bound to an object, every other id keeping its untouched object. */
    twostate lemma Replaced(id: string)
      requires id in workflows
      requires forall other :: other in workflows && other != id ==>
        other in old(workflows) && workflows[other] == old(workflows[other]) && unchanged(workflows[other])
      requires forall other :: other in old(workflows) ==> other in workflows
      ensures View() == old(View())[id := workflows[id].Value()]
    {
    }

    /** `advance_workflow` (main.py:208-246); the `ValueError` becomes `Err`. */
    method AdvanceWorkflow(id: string) returns (result: Result<Record, string>)
      requires Valid()
      modifies workflows.Values
      ensures id !in old(View()) ==> result == Err("Workflow " + id + " not found") && View() == old(View())
      ensures id in old(View()) ==>
        && View() == old(View())[id := Advance(old(View())[id])]
        && result == Ok(View()[id])
    {
      if id !in workflows {
        return Err("Workflow " + id + " not found");
      }
      var w := workflows[id];
      w.AdvanceStep();
      result := Ok(w.Value());
      assert View() == old(View())[id := w.Value()] by { Touched(id); }
    }

    /** The view after a change to the object stored under `id` alone. */
    twostate lemma Touched(id: string)
      requires Valid() && id in workflows
      requires unchanged(this)
      requires forall other :: other in workflows && other != id ==> unchanged(workflows[other])
      ensures View() == old(View())[id := workflows[id].Value()]
    {
    }

    /** The shared body of the three automatic approvers (main.py:249-362). */
    method RunApprover(id: string, role: string, reason: string, now: string) returns (result: Result<Record, string>)
      requires Valid()
      modifies workflows.Values
      ensures id !in old(View()) ==> result == Err("Workflow " + id + " not found") && View() == old(View())
      ensures id in old(View()) ==>
        && View() == old(View())[id := AutoApprove(old(View())[id], role, reason, now)]
        && result == Ok(View()[id])
    {
      if id !in workflows {
        return Err("Workflow " + id + " not found");
      }
      var w := workflows[id];
      w.RecordAutoApproval(role, reason, now);
      result := Ok(w.Value());
      assert View() == old(View())[id := w.Value()] by { Touched(id); }
    }

    /** `financial_approver` (main.py:249-284). */
    method FinancialApproverStep(id: string, now: string) returns (result: Result<Record, string>)
      requires Valid()
      modifies workflows.Values
      ensures id !in old(View()) ==> result == Err("Workflow " + id + " not found") && View() == old(View())
      ensures id in old(View()) ==>
        && View() == old(View())[id := AutoApprove(old(View())[id], FinancialApprover, FinancialReason, now)]
        && result == Ok(View()[id])
    {
      result := RunApprover(id, FinancialApprover, FinancialReason, now);
    }

    /** `department_approver` (main.py:287-326). */
    method DepartmentApproverStep(id: string, now: string) returns (result: Result<Record, string>)
      requires Valid()
      modifies workflows.Values
      ensures id !in old(View()) ==> result == Err("Workflow " + id + " not found") && View() == old(View())
      ensures id in old(View()) ==>
        && View() == old(View())[id := AutoApprove(old(View())[id], DepartmentApprover, DepartmentReason, now)]
        && result == Ok(View()[id])
    {
      result := RunApprover(id, DepartmentApprover, DepartmentReason, now);
    }

    /** `executive_approver` (main.py:329-362). */
    method ExecutiveApproverStep(id: string, now: string) returns (result: Result<Record, string>)
      requires Valid()
      modifies workflows.Values
      ensures id !in old(View()) ==> result == Err("Workflow " + id + " not found") && View() == old(View())
      ensures id in old(View()) ==>
        && View() == old(View())[id := AutoApprove(old(View())[id], ExecutiveApprover, ExecutiveReason, now)]
        && result == Ok(View()[id])
    {
      result := RunApprover(id, ExecutiveApprover, ExecutiveReason, now);
    }

    /** `process_ui_approval` (main.py:365-404); the `ValueError`s become `Err`. */
    method ProcessUiApproval(id: string, approver: string, approved: bool, reason: string, now: string)
      returns (result: Result<Record, UiError>)
      requires Valid()
      modifies workflows.Values
      ensures result == UiDecision(old(View()), id, approver, approved, reason, now)
      ensures View() == if result.Ok? then old(View())[id := result.value] else old(View())
    {
      if id !in workflows {
        return Err(UnknownWorkflow(id));
      }
      var w := workflows[id];
      if w.currentStep >= |w.approvalSequence| {
        return Err(AllStepsDone);
      }
      var expected := w.approvalSequence[w.currentStep];
      if approver != expected {
        return Err(WrongApprover(expected, approver));
      }
      w.RecordDecision(approver, approved, reason, Some("ui"), now);
      result := Ok(w.Value());
      assert View() == old(View())[id := w.Value()] by { Touched(id); }
    }

    /** `process_email_approval` (main.py:407-469); `givenId` is the optional `workflow_id` argument. */
    method ProcessEmailApproval(text: string, givenId: Option<string>, now: string) returns (result: Option<Record>)
      requires Valid()
      modifies workflows.Values
      ensures var out := EmailDecision(old(View()), text, givenId, now);
        && (out.None? ==> result.None? && View() == old(View()))
        && (out.Some? ==> result == Some(out.value.1) && View() == old(View())[out.value.0 := out.value.1])
    {
      var id: string;
      if givenId.None? || givenId.value == "" {
        var found := WorkflowIdIn(text);
        if found.None? {
          return None;
        }
        id := found.value;
      } else {
        id := givenId.value;
      }
      if id !in workflows {
        return None;
      }
      var w := workflows[id];
      var intent := Intent(text);
      if intent.None? {
        return None;
      }
      if w.currentStep >= |w.approvalSequence| {
        return None;
      }
      var approver := w.approvalSequence[w.currentStep];
      var reason := ReasonIn(text);
      w.RecordDecision(approver, intent.value, reason, Some("email"), now);
      result := Some(w.Value());
      assert View() == old(View())[id := w.Value()] by { Touched(id); }
    }

    /**
     * The dispatch on the role due inside the auto-approve loop
     * (main.py:522-530): runs the approver for a known role and reports
     * whether there was one.
     */
    method DispatchApprover(id: string, role: string, now: string) returns (known: bool)
      requires Valid() && id in workflows
      modifies workflows.Values
      ensures known == AutoReason(role).Some?
      ensures known ==> View() == old(View())[id := AutoApprove(old(View())[id], role, AutoReason(role).value, now)]
      ensures !known ==> View() == old(View())
    {
      var approved: Result<Record, string>;
      if role == FinancialApprover {
        approved := FinancialApproverStep(id, now);
      } else if role == DepartmentApprover {
        approved := DepartmentApproverStep(id, now);
      } else if role == ExecutiveApprover {
        approved := ExecutiveApproverStep(id, now);
      } else {
        return false;
      }
      known := true;
    }

    /**
     * One turn of the auto-approve loop of `process_invoice`
     * (main.py:510-536) on a pending workflow. `stop` says the loop breaks
     * here; otherwise the role due has approved and the workflow has moved
     * one step on.
     */
    method AutoTurn(id: string, now: string) returns (stop: bool)
      requires Valid() && id in workflows && workflows[id].status == Pending
      modifies workflows.Values
      ensures View() == old(View())[id := workflows[id].Value()]
      ensures stop ==> workflows[id].Value() == AutoLoop(old(View())[id], now)
      ensures !stop ==>
        && AutoLoop(workflows[id].Value(), now) == AutoLoop(old(View())[id], now)
        && workflows[id].approvalSequence == old(workflows[id].approvalSequence)
        && old(workflows[id].currentStep) < workflows[id].currentStep <= |workflows[id].approvalSequence|
    {
      var w := workflows[id];
      ghost var before := w.Value();
      if w.currentStep >= |w.approvalSequence| {
        w.status := Completed;
        assert View() == old(View())[id := w.Value()] by { Touched(id); }
        return true;
      }
      var current := w.approvalSequence[w.currentStep];
      var known := DispatchApprover(id, current, now);
      if !known {
        return true;
      }
      ghost var auto := AutoApprove(before, current, AutoReason(current).value, now);
      assert View() == old(View())[id := auto];
      ViewAt(id);
      assert w.Value() == auto;
      if w.status == Rejected {
        return true;
      }
      assert AutoLoop(before, now) == AutoLoop(Advance(auto), now);
      var advanced := AdvanceWorkflow(id);
      Rebound(old(View()), id, auto, Advance(auto));
      stop := false;
    }

    /**
     * The `while status == "pending"` loop of `process_invoice` with
     * auto-approval (main.py:505-536).
     */
    method RunAutoApproval(id: string, now: string)
      requires Valid() && id in workflows
      modifies workflows.Values
      ensures Valid()
      ensures View() == old(View())[id := AutoLoop(old(View())[id], now)]
    {
      var w := workflows[id];
      ghost var start := w.Value();
      while w.status == Pending
        invariant Valid() && id in workflows && workflows[id] == w
        invariant View() == old(View())[id := w.Value()]
        invariant AutoLoop(w.Value(), now) == AutoLoop(start, now)
        decreases |w.approvalSequence| - w.currentStep
      {
        ghost var v0 := View();
        var stop := AutoTurn(id, now);
        Rebound(old(View()), id, v0[id], w.Value());
        if stop {
          break;
        }
      }
    }

    /**
     * `process_invoice` from the extracted text on (main.py:472-576): the
     * PDF text and the parsed invoice are passed in. An empty text or an
     * empty invoice ends the run with nothing stored; otherwise a workflow
     * is created and, with auto-approval on, run through the loop.
     */
    method ProcessInvoice(pdfText: string, invoice: Invoice, id: string, now: string, autoApprove: bool)
      returns (result: Option<string>)
      requires Valid()
      modifies this, workflows.Values
      ensures Valid()
      ensures pdfText == "" || invoice == map[] ==> result == None && View() == old(View()) && order == old(order)
      ensures pdfText != "" && invoice != map[] ==>
        && result == Some(id)
        && View() == old(View())[id := if autoApprove then AutoLoop(NewRecord(invoice, now), now) else NewRecord(invoice, now)]
        && order == if id in old(order) then old(order) else old(order) + [id]
    {
      if pdfText == "" {
        return None;
      }
      if invoice == map[] {
        return None;
      }
      var created := CreateApprovalWorkflow(id, invoice, now);
      ghost var initial := NewRecord(invoice, now);
      ghost var v1 := View();
      assert v1 == old(View())[id := initial];
      if autoApprove {
        RunAutoApproval(created, now);
        assert View() == v1[id := AutoLoop(initial, now)];
        Rebound(old(View()), id, initial, AutoLoop(initial, now));
      }
      result := Some(created);
    }

    /**
     * `simulate_email_approval` (main.py:579-613): the composed reply goes
     * through the e-mail channel with the id passed along.
     */
    method SimulateEmailApproval(id: string, approve: bool, now: string) returns (result: Option<Record>)
      requires Valid()
      modifies workflows.Values
      ensures id !in old(View()) || old(View())[id].currentStep >= |old(View())[id].approvalSequence| ==>
        result.None? && View() == old(View())
      ensures id in old(View()) && old(View())[id].currentStep < |old(View())[id].approvalSequence| ==>
        var out := EmailDecision(old(View()), SimulatedEmail(id, approve), Some(id), now);
        && (out.None? ==> result.None? && View() == old(View()))
        && (out.Some? ==> result == Some(out.value.1) && View() == old(View())[out.value.0 := out.value.1])
    {
      if id !in workflows {
        return None;
      }
      var w := workflows[id];
      if w.currentStep >= |w.approvalSequence| {
        return None;
      }
      result := ProcessEmailApproval(SimulatedEmail(id, approve), Some(id), now);
    }

    /**
     * `simulate_ui_approval` (main.py:615-635): the role due decides
     * through the UI channel, which then cannot raise.
     */
    method SimulateUiApproval(id: string, approve: bool, reason: string, now: string) returns (result: Option<Record>)
      requires Valid()
      modifies workflows.Values
      ensures id !in old(View()) || old(View())[id].currentStep >= |old(View())[id].approvalSequence| ==>
        result.None? && View() == old(View())
      ensures id in old(View()) && old(View())[id].currentStep < |old(View())[id].approvalSequence| ==>
        var r := old(View())[id];
        && result == Some(Apply(r, r.approvalSequence[r.currentStep], approve, reason, Some("ui"), now))
        && View() == old(View())[id := result.value]
    {
      if id !in workflows {
        return None;
      }
      var w := workflows[id];
      if w.currentStep >= |w.approvalSequence| {
        return None;
      }
      var approver := w.approvalSequence[w.currentStep];
      var outcome := ProcessUiApproval(id, approver, approve, reason, now);
      result := Some(outcome.value);
    }
  }
}
