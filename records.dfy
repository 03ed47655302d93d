/**
 * One entry of the workflow store (the dictionary that
 * `create_approval_workflow` puts into `workflow_states`, main.py:192-200)
 * as a value, and the updates that main.py and api.py make to it. The
 * `Workflow` class in main_store.dfy holds the same fields and each of its
 * methods is specified by one of these functions.
 */
module Records {
  import opened Values

  /** The extracted invoice fields; the workflow engine only reads them for display. */
  type Invoice = map<string, Json>

  const FinancialApprover: string := "financial_approver"
  const DepartmentApprover: string := "department_approver"
  const ExecutiveApprover: string := "executive_approver"

  /** The order every workflow is created with (main.py:186-190). */
  const ApprovalSequence: seq<string> := [FinancialApprover, DepartmentApprover, ExecutiveApprover]

  /** The three values ever stored under "status". */
  datatype Status = Pending | Rejected | Completed {
    function Name(): string
    {
      match this
      case Pending => "pending"
      case Rejected => "rejected"
      case Completed => "completed"
    }
  }

  /**
   * One audit entry. `channel` is the "method" key: "ui" or "email" for those
   * channels, absent for decisions from the API and the automatic approvers.
   */
  datatype Message = Message(role: string, decision: string, reason: string, channel: Option<string>, timestamp: string)

  datatype Record = Record(
    invoiceData: Invoice,
    approvalSequence: seq<string>,
    currentStep: nat,
    approvals: map<string, bool>,
    status: Status,
    createdAt: string,
    messages: seq<Message>)

  predicate Distinct(s: seq<string>)
  {
    forall i, j :: 0 <= i < j < |s| ==> s[i] != s[j]
  }

  /** The word logged for a decision. */
  function DecisionWord(approved: bool): string
  {
    if approved then "approve" else "reject"
  }

  /** How many leading roles of the sequence may hold an entry in `approvals`: the done ones and the current one. */
  function Reach(r: Record): nat
  {
    if r.currentStep < |r.approvalSequence| then r.currentStep + 1 else |r.approvalSequence|
  }

  /**
   * The sequence invariant that every channel keeps: the step index stays
   * within the sequence, every role before the current step has approved,
   * and no role after the current one has an entry.
   */
  ghost predicate Integrity(r: Record)
  {
    && Distinct(r.approvalSequence)
    && r.currentStep <= |r.approvalSequence|
    && (r.status == Completed ==> r.currentStep == |r.approvalSequence|)
    && (forall role :: role in r.approvals ==> role in r.approvalSequence[..Reach(r)])
    && (forall j :: 0 <= j < r.currentStep ==> r.approvalSequence[j] in r.approvals && r.approvals[r.approvalSequence[j]])
  }

  /** Number of decisions applied to a record in the status-checked life cycle. */
  function Decided(r: Record): nat
  {
    if r.status == Rejected then r.currentStep + 1 else r.currentStep
  }

  /**
   * The stronger invariant of a workflow that only ever received
   * status-checked decisions: the status says exactly where the run stopped,
   * and the audit list holds one entry per decision, in sequence order,
   * approvals before the current step and the rejection at it.
   */
  ghost predicate Consistent(r: Record)
  {
    && Integrity(r)
    && (r.status == Pending ==>
          r.currentStep < |r.approvalSequence| && r.approvalSequence[r.currentStep] !in r.approvals)
    && (r.status == Rejected ==>
          && r.currentStep < |r.approvalSequence|
          && r.approvalSequence[r.currentStep] in r.approvals
          && !r.approvals[r.approvalSequence[r.currentStep]])
    && |r.messages| == Decided(r)
    && (forall j :: 0 <= j < |r.messages| ==>
          r.messages[j].role == r.approvalSequence[j] && r.messages[j].decision == DecisionWord(j < r.currentStep))
  }

  /** The record `create_approval_workflow` stores (main.py:186-200). */
  function NewRecord(invoice: Invoice, createdAt: string): (r: Record)
    ensures Consistent(r)
    ensures r.status == Pending && r.currentStep == 0 && r.approvalSequence == ApprovalSequence
    ensures r.approvals == map[] && r.messages == [] && r.invoiceData == invoice
  {
    Record(invoice, ApprovalSequence, 0, map[], Pending, createdAt, [])
  }

  /**
   * The update shared by the API, UI and e-mail channels once their checks
   * pass (api.py:180-199, main.py:385-399, main.py:449-464): record the
   * decision, log it, then reject or move one step on.
   */
  function Apply(r: Record, approver: string, approved: bool, reason: string, channel: Option<string>, now: string): (r': Record)
    ensures approver in r'.approvals && r'.approvals[approver] == approved
    ensures forall role :: role != approver ==>
      (role in r'.approvals <==> role in r.approvals) && (role in r.approvals ==> r'.approvals[role] == r.approvals[role])
    ensures |r'.messages| == |r.messages| + 1 && r'.messages[..|r.messages|] == r.messages
    ensures r'.messages[|r.messages|] == Message(approver, DecisionWord(approved), reason, channel, now)
    ensures !approved ==> r'.status == Rejected && r'.currentStep == r.currentStep
    ensures approved ==> r'.currentStep == r.currentStep + 1
    ensures approved && r.status != Completed ==> (r'.status == Completed <==> r'.currentStep >= |r.approvalSequence|)
    ensures approved && r'.currentStep < |r.approvalSequence| ==> r'.status == r.status
    ensures r'.invoiceData == r.invoiceData && r'.approvalSequence == r.approvalSequence && r'.createdAt == r.createdAt
  {
    var logged := r.(approvals := r.approvals[approver := approved],
                     messages := r.messages + [Message(approver, DecisionWord(approved), reason, channel, now)]);
    if !approved then
      logged.(status := Rejected)
    else
      var step := r.currentStep + 1;
      logged.(currentStep := step, status := if step >= |r.approvalSequence| then Completed else r.status)
  }

  /**
   * `advance_workflow` on a stored record (main.py:221-246; the pause is
   * not modelled): past the end it marks the record completed; if the
   * current role has approved it moves one step on; otherwise it changes
   * nothing.
   */
  function Advance(r: Record): (r': Record)
    ensures r'.currentStep == (if r.currentStep < |r.approvalSequence| && r.approvalSequence[r.currentStep] in r.approvals
                                  && r.approvals[r.approvalSequence[r.currentStep]]
                               then r.currentStep + 1 else r.currentStep)
    ensures r'.status == Completed <==> r'.currentStep >= |r.approvalSequence| || r.status == Completed
    ensures r'.currentStep < |r.approvalSequence| ==> r'.status == r.status
    ensures r' == r.(currentStep := r'.currentStep, status := r'.status)
  {
    if r.currentStep >= |r.approvalSequence| then
      r.(status := Completed)
    else
      var role := r.approvalSequence[r.currentStep];
      if role in r.approvals && r.approvals[role] then
        var step := r.currentStep + 1;
        r.(currentStep := step, status := if step >= |r.approvalSequence| then Completed else r.status)
      else
        r
  }

  /**
   * What `financial_approver`, `department_approver` and
   * `executive_approver` do to a stored record (main.py:266-283,
   * 309-325, 345-361): record an approval for their own role and log it.
   * Their decision is the constant "approve", so the status and the step
   * are left alone.
   */
  function AutoApprove(r: Record, role: string, reason: string, now: string): (r': Record)
    ensures role in r'.approvals && r'.approvals[role]
    ensures r'.messages == r.messages + [Message(role, "approve", reason, None, now)]
    ensures r' == r.(approvals := r'.approvals, messages := r'.messages)
  {
    r.(approvals := r.approvals[role := true],
       messages := r.messages + [Message(role, "approve", reason, None, now)])
  }

  const FinancialReason: string := "Invoice amount is within budget and payment terms are acceptable."
  const DepartmentReason: string := "All goods/services listed were received and meet quality standards."
  const ExecutiveReason: string := "Strategic vendor relationship and expenditure is justified."

  /** The automatic approver `process_invoice` dispatches to for a role, by its fixed reason (main.py:522-530). */
  function AutoReason(role: string): Option<string>
  {
    if role == FinancialApprover then Some(FinancialReason)
    else if role == DepartmentApprover then Some(DepartmentReason)
    else if role == ExecutiveApprover then Some(ExecutiveReason)
    else None
  }

  /**
   * The `while status == "pending"` loop of `process_invoice` with
   * auto-approval (main.py:508-536), as the record it leaves behind.
   */
  function AutoLoop(r: Record, now: string): Record
    decreases |r.approvalSequence| - r.currentStep
  {
    if r.status != Pending then r
    else if r.currentStep >= |r.approvalSequence| then r.(status := Completed)
    else
      var role := r.approvalSequence[r.currentStep];
      match AutoReason(role)
      case None => r
      case Some(reason) =>
        var approved := AutoApprove(r, role, reason, now);
        if approved.status == Rejected then approved
        else AutoLoop(Advance(approved), now)
  }

  // ---------------------------------------------------------------------------
  // Invariant preservation
  // ---------------------------------------------------------------------------

  /** An element of a prefix is an element of every longer prefix. */
  lemma InLongerPrefix(s: seq<string>, x: string, a: nat, b: nat)
    requires a <= b <= |s| && x in s[..a]
    ensures x in s[..b]
  {
    var i :| 0 <= i < a && s[..a][i] == x;
    assert s[..b][i] == x;
  }

  /**
   * The sequence invariant survives recording a decision for the role due
   * and, on an approval, moving one step on.
   */
  lemma DecisionKeepsIntegrity(r: Record, r': Record, approved: bool)
    requires Integrity(r) && r.currentStep < |r.approvalSequence|
    requires r'.approvalSequence == r.approvalSequence
    requires r'.approvals == r.approvals[r.approvalSequence[r.currentStep] := approved]
    requires r'.currentStep == if approved then r.currentStep + 1 else r.currentStep
    requires r'.status == Completed ==> r'.currentStep == |r'.approvalSequence|
    ensures Integrity(r')
  {
    var seqn, k := r.approvalSequence, r.currentStep;
    forall role | role in r'.approvals ensures role in seqn[..Reach(r')] {
      if role == seqn[k] {
        assert seqn[..Reach(r')][k] == role;
      } else {
        InLongerPrefix(seqn, role, Reach(r), Reach(r'));
      }
    }
    forall j | 0 <= j < r'.currentStep ensures seqn[j] in r'.approvals && r'.approvals[seqn[j]] {
      if j < k {
        assert seqn[j] != seqn[k];
      }
    }
  }

  /** A decision by the role due, on any channel, keeps the sequence invariant. */
  lemma ApplyKeepsIntegrity(r: Record, approved: bool, reason: string, channel: Option<string>, now: string)
    requires Integrity(r) && r.currentStep < |r.approvalSequence|
    ensures Integrity(Apply(r, r.approvalSequence[r.currentStep], approved, reason, channel, now))
  {
    var r' := Apply(r, r.approvalSequence[r.currentStep], approved, reason, channel, now);
    DecisionKeepsIntegrity(r, r', approved);
  }

  /**
   * The full invariant survives a decision for the role due on a pending
   * record: the status, the step and the log move together.
   */
  lemma DecisionKeepsConsistent(r: Record, r': Record, approved: bool)
    requires Consistent(r) && r.status == Pending && Integrity(r')
    requires r'.approvalSequence == r.approvalSequence
    requires r'.approvals == r.approvals[r.approvalSequence[r.currentStep] := approved]
    requires r'.currentStep == if approved then r.currentStep + 1 else r.currentStep
    requires r'.status == if !approved then Rejected else if r'.currentStep >= |r.approvalSequence| then Completed else Pending
    requires |r'.messages| == |r.messages| + 1 && r'.messages[..|r.messages|] == r.messages
    requires r'.messages[|r.messages|].role == r.approvalSequence[r.currentStep]
    requires r'.messages[|r.messages|].decision == DecisionWord(approved)
    ensures Consistent(r')
  {
    var seqn, k := r.approvalSequence, r.currentStep;
    if approved && k + 1 < |seqn| {
      forall role | role in r'.approvals ensures role != seqn[k + 1] {
        assert role in seqn[..k + 1];
      }
    }
    LogKeepsOrder(r.messages, r'.messages, seqn, k, r'.currentStep, approved);
  }

  /** One more log entry, for the role due, keeps the log in sequence order. */
  lemma LogKeepsOrder(log: seq<Message>, log': seq<Message>, seqn: seq<string>, k: nat, k': nat, approved: bool)
    requires |log| == k < |seqn|
    requires forall j :: 0 <= j < |log| ==> log[j].role == seqn[j] && log[j].decision == DecisionWord(j < k)
    requires |log'| == |log| + 1 && log'[..|log|] == log
    requires log'[k].role == seqn[k] && log'[k].decision == DecisionWord(approved)
    requires k' == if approved then k + 1 else k
    ensures forall j :: 0 <= j < |log'| ==> log'[j].role == seqn[j] && log'[j].decision == DecisionWord(j < k')
  {
    forall j | 0 <= j < |log'| ensures log'[j].role == seqn[j] && log'[j].decision == DecisionWord(j < k') {
      if j < k {
        assert log'[j] == log'[..|log|][j];
      }
    }
  }

  /** A status-checked decision by the role due keeps the full invariant. */
  lemma ApplyKeepsConsistent(r: Record, approved: bool, reason: string, channel: Option<string>, now: string)
    requires Consistent(r) && r.status == Pending
    ensures Consistent(Apply(r, r.approvalSequence[r.currentStep], approved, reason, channel, now))
  {
    var r' := Apply(r, r.approvalSequence[r.currentStep], approved, reason, channel, now);
    ApplyKeepsIntegrity(r, approved, reason, channel, now);
    DecisionKeepsConsistent(r, r', approved);
  }

  /** `advance_workflow` keeps the sequence invariant. */
  lemma AdvanceKeepsIntegrity(r: Record)
    requires Integrity(r)
    ensures Integrity(Advance(r))
  {
    var r' := Advance(r);
    var seqn, k := r.approvalSequence, r.currentStep;
    if k >= |seqn| {
      assert r' == r.(status := Completed);
    } else if seqn[k] in r.approvals && r.approvals[seqn[k]] {
      assert r' == r.(currentStep := k + 1, status := r'.status);
      forall role | role in r'.approvals ensures role in seqn[..Reach(r')] {
        InLongerPrefix(seqn, role, Reach(r), Reach(r'));
      }
    } else {
      assert r' == r;
    }
  }

  /** Right after a decision by the role due, `advance_workflow` has nothing left to do (api.py:202). */
  lemma AdvanceAfterApplyIsNoOp(r: Record, approved: bool, reason: string, channel: Option<string>, now: string)
    requires Integrity(r) && r.currentStep < |r.approvalSequence|
    ensures var r' := Apply(r, r.approvalSequence[r.currentStep], approved, reason, channel, now);
      Advance(r') == r'
  {
    var seqn, k := r.approvalSequence, r.currentStep;
    var r' := Apply(r, seqn[k], approved, reason, channel, now);
  }

  /** On a record that satisfies the full invariant `advance_workflow` changes nothing. */
  lemma ConsistentAdvanceIsNoOp(r: Record)
    requires Consistent(r)
    ensures Advance(r) == r
  {
  }

  /** An automatic approval for the role due, or an earlier one, keeps the sequence invariant. */
  lemma AutoApproveKeepsIntegrity(r: Record, i: nat, reason: string, now: string)
    requires Integrity(r) && i < Reach(r)
    ensures Integrity(AutoApprove(r, r.approvalSequence[i], reason, now))
  {
    var r' := AutoApprove(r, r.approvalSequence[i], reason, now);
    forall role | role in r'.approvals ensures role in r.approvalSequence[..Reach(r')] {
      if role == r.approvalSequence[i] {
        assert r.approvalSequence[..Reach(r')][i] == role;
      }
    }
  }

  // ---------------------------------------------------------------------------
  // The auto-approve loop
  // ---------------------------------------------------------------------------

  /** One turn of the auto-approve loop is the shared decision update, approving for the role due. */
  lemma AutoLoopStep(r: Record, now: string)
    requires Consistent(r) && r.status == Pending && r.approvalSequence == ApprovalSequence
    ensures var role := r.approvalSequence[r.currentStep];
      && AutoReason(role).Some?
      && AutoLoop(r, now) == AutoLoop(Apply(r, role, true, AutoReason(role).value, None, now), now)
  {
  }

  /** A completed record with the standard sequence holds exactly three approvals and three log entries. */
  lemma CompletedApprovals(f: Record)
    requires Consistent(f) && f.status == Completed && f.approvalSequence == ApprovalSequence
    ensures f.approvals == map[FinancialApprover := true, DepartmentApprover := true, ExecutiveApprover := true]
    ensures |f.messages| == |ApprovalSequence|
  {
    var expected := map[FinancialApprover := true, DepartmentApprover := true, ExecutiveApprover := true];
    assert f.approvalSequence[..Reach(f)] == ApprovalSequence;
    assert f.approvalSequence[0] == FinancialApprover && f.approvalSequence[1] == DepartmentApprover;
    assert f.approvalSequence[2] == ExecutiveApprover;
    forall x | x in f.approvals ensures x in expected && f.approvals[x] {
      assert x in ApprovalSequence;
    }
    assert f.approvals.Keys == expected.Keys;
  }

  /**
   * From any pending record with the standard sequence, the auto-approve
   * loop approves every remaining role in order and ends completed with the
   * full invariant.
   */
  lemma {:induction false} AutoLoopCompletes(r: Record, now: string)
    requires Consistent(r) && r.status == Pending && r.approvalSequence == ApprovalSequence
    ensures Consistent(AutoLoop(r, now))
    ensures AutoLoop(r, now).status == Completed
    ensures AutoLoop(r, now).approvalSequence == ApprovalSequence
    decreases |r.approvalSequence| - r.currentStep
  {
    var role := r.approvalSequence[r.currentStep];
    AutoLoopStep(r, now);
    var reason := AutoReason(role).value;
    var next := Apply(r, role, true, reason, None, now);
    ApplyKeepsConsistent(r, true, reason, None, now);
    assert AutoLoop(r, now) == AutoLoop(next, now);
    if next.status == Pending {
      AutoLoopCompletes(next, now);
    } else {
      assert AutoLoop(next, now) == next;
    }
  }

  /** The auto-approve loop only appends to the log: every earlier entry stays, in place. */
  lemma {:induction false} AutoLoopKeepsLog(r: Record, now: string)
    ensures |r.messages| <= |AutoLoop(r, now).messages|
    ensures AutoLoop(r, now).messages[..|r.messages|] == r.messages
    decreases |r.approvalSequence| - r.currentStep
  {
    if r.status == Pending && r.currentStep < |r.approvalSequence| && AutoReason(r.approvalSequence[r.currentStep]).Some? {
      var role := r.approvalSequence[r.currentStep];
      var approved := AutoApprove(r, role, AutoReason(role).value, now);
      if approved.status != Rejected {
        var next := Advance(approved);
        AutoLoopKeepsLog(next, now);
        var f := AutoLoop(next, now);
        assert f.messages[..|r.messages|] == f.messages[..|next.messages|][..|r.messages|];
      }
    }
  }

  /** A fresh workflow run through the auto-approve loop: three approvals, three log entries. */
  lemma AutoLoopFromNew(invoice: Invoice, createdAt: string, now: string)
    ensures AutoLoop(NewRecord(invoice, createdAt), now).messages == [
      Message(FinancialApprover, "approve", FinancialReason, None, now),
      Message(DepartmentApprover, "approve", DepartmentReason, None, now),
      Message(ExecutiveApprover, "approve", ExecutiveReason, None, now)]
    ensures AutoLoop(NewRecord(invoice, createdAt), now).status == Completed
  {
    var r0 := NewRecord(invoice, createdAt);
    var r1 := Advance(AutoApprove(r0, FinancialApprover, FinancialReason, now));
    var r2 := Advance(AutoApprove(r1, DepartmentApprover, DepartmentReason, now));
    var r3 := Advance(AutoApprove(r2, ExecutiveApprover, ExecutiveReason, now));
    assert AutoLoop(r0, now) == AutoLoop(r1, now);
    assert AutoLoop(r1, now) == AutoLoop(r2, now);
    assert AutoLoop(r2, now) == AutoLoop(r3, now);
    assert r3.status == Completed;
  }
}
