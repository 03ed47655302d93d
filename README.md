# Invoice approval workflow — a Dafny model

This project models the approval engine of a small invoice-processing service. The service has two Python files, `main.py` and `api.py`.

Every extracted invoice gets a **workflow record**. The records live in one in-memory store, `workflow_states`, keyed by a workflow id. A record holds:

- the invoice data;
- a fixed approval sequence: `financial_approver`, `department_approver`, `executive_approver`;
- `current_step`, an index into that sequence;
- an `approvals` map from role to boolean;
- a status: `pending`, `rejected` or `completed`;
- an append-only log of decision messages.

Decisions reach a record through four channels:

- **The HTTP API** (`process_approval_decision` and its four POST handlers). It checks the status, the role and the decision word before touching the record.
- **The UI form** (`process_ui_approval`).
- **An e-mail reply** (`process_email_approval`). A regex finds the workflow id, keywords decide the intent, and a second regex pulls out the reason.
- **The auto-approve loop** of `process_invoice`, which calls the three hard-coded approver functions and `advance_workflow`.

Two read-only endpoints project the store: `get_all_workflows` and `get_workflow`.

## How the model is organised

- `values.dfy` — `Option`, `Result`, and a JSON value type.
- `text.dfy` — Python's `str.lower()` on ASCII, substring containment, and the `\s` character class.
- `email_parsing.dfy` — the two regexes of the e-mail channel and its keyword classifier. Each regex is a match-at-a-position function plus a leftmost search, with the regex semantics proved:
  - `\[(WF-\d+)\]`;
  - `reason:\s*(.+)` under `re.IGNORECASE`, including backtracking of `\s*` when the line holds only blanks.
- `records.dfy` — the record as a value, plus the functions every channel shares:
  - `NewRecord`;
  - `Apply`, the decision update;
  - `Advance`, which is `advance_workflow`;
  - `AutoApprove`;
  - `AutoLoop`, the `process_invoice` loop.

  It also holds two invariants and the lemmas that they are preserved:
  - `Integrity`: every channel keeps it. The step stays within the sequence, the roles before it have approved, and no later role has an entry.
  - `Consistent`: only the status-checked paths keep it. The status matches the step, and the log holds one entry per decision, in sequence order.
- `channels.dfy` — the UI and e-mail channels as outcomes on the store's value.
- `main_store.dfy` — class `Workflow`, one record updated in place, and class `Store`, which is `workflow_states`. Each method is proved to carry out the value-level function it corresponds to. `Store.order` is the dictionary's iteration order.
- `api.dfy` — the API guard chain, the decision outcome, the request handlers and the readers.

Three behaviours of the code are worth stating outright:

- **E-mail intent.** A text with both an approval and a rejection keyword is recorded as an approval (`main.py:429-436`).
- **E-mail reason.** The reason runs to the end of the line. So for the one-line reply `I approve this invoice. Reason: looks fine. [WF-123]`, which the model uses as its example e-mail, the reason is `"looks fine. [WF-123]"`, not `"looks fine."`.
- **Status checks.** The UI and e-mail channels never check the status. So they accept decisions on rejected workflows, and can even complete one (`UiCompletesRejected`).

Ids, timestamps, the PDF text and the parsed invoice are parameters. The pause in `advance_workflow` is not modelled.

## Model

| member | source | states |
|---|---|---|
| Text.FirstCharAbsent | main.py:429-432 | a keyword whose first letter never occurs in the text is not contained in it |
| Text.LowerKeepsMatch | main.py:429-432 | a lower-case keyword found in the text is found at the same place after lower-casing |
| EmailParsing.DigitRun | main.py:416 | `\d+` is greedy: the run is all ASCII digits and is followed by a non-digit or the end |
| EmailParsing.TokenAtMatches | main.py:416 | a `[WF-<digits>]` match at a position exists exactly when the position function finds one, and the captured group is unique |
| EmailParsing.FirstToken | main.py:416 | the search returns a matching position with no match before it |
| EmailParsing.WorkflowIdIsLeftmostToken | main.py:416-421 | for the id search `WorkflowIdIn`: no id exactly when the text has no `[WF-<digits>]` token; otherwise the id is the group of the leftmost token |
| EmailParsing.WorkflowIdShape | main.py:416-418 | an extracted id is `WF-` followed by at least one digit |
| EmailParsing.IntentCases | main.py:429-436 | for `Intent` over the keyword tests `ApprovalSignal` and `RejectionSignal` on the lower-cased text: approval iff "approve" or "yes" occurs; rejection iff neither occurs but "reject" or "no" does; no decision iff none of the four occurs |
| EmailParsing.NegatedApprovalApproves | main.py:429-430 | "I do not approve this" is recorded as an approval |
| EmailParsing.NotReadsAsNo | main.py:431-432 | "no" inside "not" makes "I do not think so" a rejection |
| EmailParsing.SpaceEnd | main.py:445 | `\s*` consumes the longest run of whitespace |
| EmailParsing.LineEnd | main.py:445 | `.+` stops at the first newline or the end of the text |
| EmailParsing.GroupStart | main.py:445 | backtracking of `\s*` finds the last position where `.` can match, or none |
| EmailParsing.FirstReason | main.py:445 | the search returns the leftmost case-insensitive `reason:` that yields a group |
| EmailParsing.ReasonIsOneLine | main.py:445-446 | for `ReasonIn`, the group `ReasonAt` captures at the first matching marker: a found reason comes from a `reason:` marker, is non-empty and holds no newline; with no marker the reason is "No reason provided" |
| EmailParsing.ReasonAfterSpaces | main.py:445 | after the marker and its blanks the reason runs to the end of the line |
| EmailParsing.ReasonOfExample | main.py:445-446 | the example e-mail's reason is "looks fine. [WF-123]" |
| EmailParsing.IntentOfExample | main.py:429-432 | the example e-mail reads as an approval |
| EmailParsing.WorkflowIdOfExample | main.py:416-418 | the example e-mail's id is "WF-123" |
| Records.NewRecord | main.py:186-200 | a fresh record is pending at step 0 with the three roles in order, no approvals and no messages, and satisfies the full invariant |
| Records.Apply | main.py:385-399 | sets the approver's entry, appends exactly one message, leaves other roles alone; an approval moves one step on and completes iff the new step reaches the end; a rejection keeps the step and sets rejected |
| Records.Advance | main.py:221-246 | moves one step on only when the current role has a true entry; completed iff past the end; nothing else changes |
| Records.AutoApprove | main.py:266-283 | records a true entry for the role, appends one "approve" message, and changes nothing else |
| Records.ApplyKeepsIntegrity | main.py:385-399 | a decision by the role due keeps the sequence invariant, whatever the status |
| Records.ApplyKeepsConsistent | api.py:180-199 | on a pending record a decision by the role due keeps the full invariant |
| Records.AdvanceKeepsIntegrity | main.py:221-246 | `advance_workflow` keeps the sequence invariant |
| Records.AdvanceAfterApplyIsNoOp | api.py:202 | under the sequence invariant, the advance right after a decision by the role due changes nothing |
| Records.ConsistentAdvanceIsNoOp | main.py:229-246 | on a record with the full invariant `advance_workflow` changes nothing |
| Records.AutoApproveKeepsIntegrity | main.py:270-276 | an automatic approval of the current or an earlier role keeps the sequence invariant |
| Records.AutoLoopStep | main.py:515-536 | one turn of the loop is the shared decision update approving for the role due |
| Records.CompletedApprovals | main.py:508-536 | a completed record with the standard sequence has exactly the three true approvals and three messages |
| Records.AutoLoopCompletes | main.py:508-536 | `AutoLoop` is the loop as a function; from any pending record with the standard sequence the loop ends completed and keeps the full invariant |
| Records.AutoLoopKeepsLog | main.py:508-536 | the loop only appends to the log: every earlier entry stays in place |
| Records.AutoLoopFromNew | main.py:505-536 | a fresh workflow ends completed with the three fixed approval messages in order |
| Channels.UiDecision | main.py:365-404 | unknown id, all steps done, or a wrong approver raise in that order; otherwise the shared update with method "ui"; the status is never read |
| Channels.UiDecisionEffects | main.py:385-399 | an accepted UI decision sets the boolean, appends one "ui" message, and moves on or rejects |
| Channels.UiKeepsIntegrity | main.py:385-399 | UI decisions keep the sequence invariant |
| Channels.UiCompletesRejected | main.py:375-399 | approving the last step of a rejected workflow through the UI completes it |
| Channels.EmailTarget | main.py:414-421 | a non-empty given id is used; otherwise the first `[WF-<digits>]` token |
| Channels.EmailDecision | main.py:407-469 | nothing happens when no id is found, the id is unknown, no keyword occurs, or all steps are done; otherwise the role due decides, with the extracted reason and method "email" |
| Channels.EmailKeepsIntegrity | main.py:443-464 | e-mail decisions keep the sequence invariant |
| Channels.EmailWithBothSignalsApproves | main.py:429-449 | a text with both approval and rejection keywords approves |
| Channels.ExampleEmailApprovesFinancialStep | main.py:414-464 | the example e-mail approves the financial step of "WF-123" with reason "looks fine. [WF-123]" |
| Channels.SimulatedEmailIsClear | main.py:594-605 | `SimulatedEmail` is the reply as composed; the simulated reply always holds a keyword, and the approving one reads as an approval whatever the id |
| Channels.SimulatedApprovalEmailApproves | main.py:579-613 | the simulated approving reply records an approval for the role due |
| Channels.SimulatedUiNeverFails | main.py:615-635 | the simulated UI decision names the role due, so the UI channel cannot raise |
| Main.Workflow.constructor | main.py:192-200 | the new object holds the fresh record |
| Main.Workflow.RecordDecision | api.py:181-199 | the in-place update is the shared decision update |
| Main.Workflow.AdvanceStep | main.py:221-246 | the in-place update is `Advance` |
| Main.Workflow.RecordAutoApproval | main.py:270-283 | the in-place update is `AutoApprove` |
| Main.Store.constructor | main.py:21 | the store starts empty |
| Main.Store.CreateApprovalWorkflow | main.py:178-205 | stores a fresh record under the id, overwriting an existing one, and touches no other entry |
| Main.Store.AdvanceWorkflow | main.py:208-246 | unknown id is an error with the store unchanged; otherwise only that record is advanced |
| Main.Store.RunApprover | main.py:249-284 | unknown id is an error; otherwise only that record gets the automatic approval |
| Main.Store.FinancialApproverStep | main.py:249-284 | records the financial approval with its fixed reason |
| Main.Store.DepartmentApproverStep | main.py:287-326 | records the department approval with its fixed reason |
| Main.Store.ExecutiveApproverStep | main.py:329-362 | records the executive approval with its fixed reason |
| Main.Store.ProcessUiApproval | main.py:365-404 | the result and the new store are the UI outcome; a raise leaves the store unchanged |
| Main.Store.ProcessEmailApproval | main.py:407-469 | the result and the new store are the e-mail outcome; `None` leaves the store unchanged |
| Main.Store.DispatchApprover | main.py:521-530 | a known role gets its approver's update; an unknown role stops the loop with nothing changed |
| Main.Store.AutoTurn | main.py:510-536 | one turn on a pending workflow either stops with the record the loop ends with, or moves the step forward within the sequence without changing the record the loop ends with |
| Main.Store.RunAutoApproval | main.py:505-536 | the loop leaves the record `AutoLoop` gives, changes no other entry, and keeps the store well formed |
| Main.Store.ProcessInvoice | main.py:472-576 | empty text or invoice stores nothing and keeps the listing order; otherwise a fresh record, run through the loop when auto-approval is on, with the id appended to the listing order unless already there |
| Main.Store.SimulateEmailApproval | main.py:579-613 | with a step left, the composed reply goes through the e-mail channel; otherwise nothing happens |
| Main.Store.SimulateUiApproval | main.py:615-635 | with a step left, the role due decides through the UI; otherwise nothing happens |
| Api.Validate | api.py:156-178 | the first failing guard decides the error in the order not found, not pending, not in sequence, steps done, out of turn, bad decision; no error iff the decision is acceptable |
| Api.RejectionMessageMisspelled | api.py:208 | the confirmation as written, `MessageAsWritten`, reads "approved" for an approval but "rejectd" for a rejection |
| Api.ConfirmationMessage | api.py:208 | the corrected confirmation agrees with the written one for approvals |
| Api.SuccessReply | api.py:204-209 | a success body has status "success", the workflow id, the new workflow status and the confirmation as written |
| Api.Decide | api.py:154-209 | a failed guard returns its code and message with the store unchanged (`Acceptable` states when none fails); an accepted decision is applied, advanced, and reported with the resulting status and the confirmation as written |
| Api.AcceptedRejectionReply | api.py:204-209 | the reply to an accepted rejection reads "<role> has rejectd the invoice.", not the corrected text |
| Api.AcceptedDecision | api.py:180-202 | an accepted approve sets true, logs one message, steps once, completes iff the end is reached; an accepted reject sets rejected and keeps the step |
| Api.DecideKeepsConsistent | api.py:156-202 | every API outcome keeps the full invariant of every record |
| Api.StepsDoneUnreachable | api.py:168-170 | under the full invariant the "all steps done" guard never fires |
| Api.RejectionIsFinal | api.py:160-194 | after an accepted rejection every later call fails at the pending check and changes nothing |
| Api.CompletionIsFinal | api.py:160-161 | a completed workflow refuses every further decision |
| Api.SuccessMessage | api.py:208 | the corrected confirmation reads "has approved" or "has rejected"; it equals the text as written for an approval and differs from it for a rejection |
| Api.InOrderApproval | api.py:156-202 | the role due approving a pending workflow passes every guard, keeps the sequence invariant, records a true entry and moves one step on; the last step completes |
| Api.ApprovingInOrderCompletes | api.py:172-199 | approving the three roles in order completes a fresh workflow at step 3 with three true approvals |
| Api.OutOfOrderRefused | api.py:172-174 | submitting the department role first fails with a 400 naming both roles, store unchanged |
| Api.MissingAt | api.py:74-76 | the position found has every earlier field present and its own field absent |
| Api.FirstMissing | api.py:73-76 | no field is reported iff all are present; otherwise the reported one is absent and every earlier one present |
| Api.GenericOutcome | api.py:72-83 | a missing field gives its 400; otherwise the decision runs with the lower-cased decision word |
| Api.RoleOutcome | api.py:96-106 | a missing field gives its 400; otherwise the decision runs for the handler's own role |
| Api.GenericReportsFirstMissing | api.py:73-76 | the 400 reply `MissingFieldReply` names the first absent field; fields are reported in the order workflow_id, approver_type, decision, reason |
| Api.UpperCaseDecisionAccepted | api.py:80 | "APPROVE" is handled like "approve" |
| Api.Summary | api.py:26-35 | a summary carries the id and status, and the invoice fields or null |
| Api.Summaries | api.py:25-35 | one summary per id, in the order of the ids |
| Api.GetAllWorkflows | api.py:9-36 | the reply lists the summaries of the stored workflows in iteration order |
| Api.OneSummaryPerWorkflow | api.py:25-35 | every stored workflow appears in exactly one summary |
| Api.MessageRoundTrip | api.py:56 | a logged message is read back unchanged from its JSON form |
| Api.ApprovalsRoundTrip | api.py:55 | the approvals map is read back unchanged from its JSON form |
| Api.Detail | api.py:48-57 | the detail body carries the invoice data, the JSON approvals map and the JSON message log |
| Text.Lower | api.py:80 | lower-casing keeps the length and lowers each character on its own |
| Api.GetWorkflow | api.py:38-58 | 404 iff the id is unknown; otherwise approvals and messages are returned in full |
| Api.ProcessApprovalDecision | api.py:154-209 | the reply and the new store are the decision outcome; an accepted decision's reply carries the confirmation as written |
| Api.GenericApproval | api.py:60-83 | the reply and the new store are the generic handler's outcome |
| Api.RoleApproval | api.py:85-152 | the reply and the new store are the role handler's outcome |
| Api.FinancialApproval | api.py:85-106 | the role handler fixed to `financial_approver` |
| Api.DepartmentApproval | api.py:108-129 | the role handler fixed to `department_approver` |
| Api.ExecutiveApproval | api.py:131-152 | the role handler fixed to `executive_approver` |

## Findings

| source | as written | input that shows it | evidently intended | confidence | as-written member | corrected member |
|---|---|---|---|---|---|---|
| api.py:208 | the confirmation appends "d" to the decision word | an accepted "reject" yields "<role> has rejectd the invoice." | "<role> has rejected the invoice." | high; not executed | Api.RejectionMessageMisspelled | Api.SuccessMessage |

The operations reply as the code does: `Api.SuccessReply` builds its message with `Api.MessageAsWritten`, so `Api.Decide` and `Api.ProcessApprovalDecision` answer an accepted rejection with "rejectd" (`Api.AcceptedRejectionReply`). `Api.ConfirmationMessage` is the corrected text, and `Api.SuccessMessage` proves it reads "rejected".

## Left out

- Fetching mail over IMAP, saving attachments, the upload checks, PDF text extraction and the OpenAI parsing call. These are network, filesystem or foreign-library work. The text and the parsed invoice are parameters of `ProcessInvoice`.
- Flask routing, `request.get_json`, `jsonify` and the server start. A handler takes the decoded body and returns a status code and a JSON value.
- Request bodies whose values are not strings, and bodies that are not JSON objects. The model's request is a map from string to string.
- `print` output, the hard-coded credentials, and the `main()` driver.
- The 10-second pause in `advance_workflow`.
- Locking and concurrent access. The code has none.
- The clock. Each call takes one `now` for all its timestamps. The source reads the clock separately for the id, `created_at` and each message.
- Text.Lower: only ASCII letters are lowered. Python's `str.lower()` also lowers other scripts. For the four keywords this makes no difference: the only non-ASCII characters that lower to an ASCII letter are U+0130 and U+212A, which lower to `i̇` and `k`, and no keyword contains `i` or `k`.
- EmailParsing.DigitRun: `\d` is ASCII digits only. Python's `\d` on `str` also accepts other Unicode decimal digits.
- The key order of the `approvals` dictionary. It only affects which rejecting approver `process_invoice` prints.
- The reject branches of the three automatic approvers. Their decision is the constant "approve", so those branches never run.
- `main.py:562-574`, the payload example `process_invoice` prints when auto-approval is off. It is output only.
