# Back-office workflow: controlled execution and its neighbours

The back office plans work items under an autonomy policy, has humans decide approvals, and lets a
controlled tool carry out an approved step. A step is *reserved* in one transaction under a fresh
token. The external tool then runs outside any transaction while a heartbeat renews a lease of 300 s.
At the end the outcome is *finalized*, *marked unknown*, or *reconciled* by a human. Holders of a
reservation may be late, dead or replaced, and any number of them run at the same time as planners,
approvers, editors and reconcilers.

This project models that protocol in Dafny 4.11 and proves what it promises over whole runs: at most
one tool call per step, fencing of late holders, verdicts that stand, protection of a live holder by
its lease, a way out of every pending execution, approval before execution, an outcome that is the
verdict, an event log that tells what happened, and idempotent creation, planning and execution.
Around it stand four smaller models: the two work-item stores and the JSON codec, the ranking of
benchmarked providers, the load-test metrics, and the ordered-containment check of scenario
evaluation.

`dafny verify dfyconfig.toml` verifies everything.

## How the model is built

- `Basics`, `Models`, `Documents`, `Policy`, `Planner`, `RequestIdentity` hold the records and the pure
  logic. A record is a value, because the repositories copy it on every load and save.
- `Protocol` says what one committed transaction does: a function from the state before to the state
  after and the caller's answer. A raise leaves the state as it was.
- `Runs` has one `Action` per transaction of any actor, plus the tool call, the passing of time and
  uploads and status changes of documents. A reachable state is one that some sequence of actions
  leads to from an empty store. A holder keeps its reservation forever and may act on it at any later
  time.
- `Invariant` states what holds in every reachable state. `QuietOperations`, `Starting`, `Settling`,
  `Creation` show, by kind of step, that it is kept; `Evolution` says what no transaction takes back.
- `ExecutionGuarantees`, `ReservationGuarantees`, `ExportGuarantees`, `Fencing`, `RecoveryGuarantees`,
  `PlanningGuarantees`, `HolderOutcomes`, `Verdicts` and `ForgedItems` are the theorems about runs. `Replies`
  gives the exact condition of every answer, `PlannedWork` what a plan consists of, `AuditTrail` what is
  logged, and `ItemStories` (with `Tags`) what becomes of an item's visible fields. `Frames` says which
  actions touch documents, approvals, reservations and calls; `Continuations` says that each transaction of
  the services is a step of a run.
- `Ledgers`, `Coordinator`, `Services` are the classes whose methods load records, assign their fields
  and save them as the program does. Each method is proved to move the shared store as its function in
  `Protocol` says, and along a run, so that what holds of runs holds of the services. `Ledger.Interfere`
  stands between two transactions of one caller: its contract lets any number of other actions happen
  there, except one that only the caller itself takes.
- `WorkItemIndex` and `Codec` model storage, `ProviderRanking`, `LoadMetrics` and `Containment` the
  independent algorithms, with `Sorting` and `Rounding` for Python's `sorted` and `round`.

Every lemma switches automatic induction off, so each inductive proof is written out.

Five facts the proofs rest on or turn up:

- Nothing in a reservation checks that no other step of the item is in flight. That follows from three
  facts together: a plan has at most one tool step, only steps of the current plan are reserved, and
  planning is refused while an execution is pending (`Starting.NothingElseRuns`).
- The invariant relies on initial contexts without execution keys. `Creation.CreationKeepsInvUnlessForged`
  says when creation keeps the invariant, `ForgedItems.ForgedItemIsWedged` what a claimed pending outcome
  leads to, and `ForgedItems.NewItemPlansIff` that nothing else does. A named plan alone is overwritten by
  the item's first reservation.
- The guard of an export is asked when the step is reserved and not again. The document cannot lose its
  approval, but another route can export it before the holder calls the tool, which then is called for an
  exported invoice. `ExportGuarantees.CalledForAnExportedInvoice` is such a run and
  `ExportGuarantees.ExportIsCalledWhileApprovedIff` the exact condition.
- A lower error rate alone does not put a provider first. `ProviderRanking.ErrorRateAloneCanLose` is the
  counterexample, `ProviderRanking.WhenErrorRateDecides` the exact condition, and
  `ProviderRanking.ErrorRateGapDecides` a gap that always suffices.
- The in-memory store takes every item; the database refuses one that links a document twice or a
  document that is not stored (`WorkItemIndex.SqliteWorkItems.Save`). Of several newest items the two
  lookups may choose differently: `WorkItemIndex.TieSplitsTheStores` shows one such case and
  `WorkItemIndex.LookupsAgreeUpToTies` says exactly when.

## Model

| member | source | states |
|---|---|---|
| ExecutionGuarantees.PendingIffExecuting | backend/app/backoffice/execution.py:183-218 | In every reachable state an item's outcome is in flight or unknown exactly when some step of its plans is executing; there is never a second one, and the one there is belongs to the current plan and is the step the context names. |
| Verdicts.OutcomeIsTheVerdict | backend/app/backoffice/execution.py:298-305 | In every reachable state an item with an outcome names a step, and of the step it names the outcome is confirmed success if and only if the step is executed, confirmed failure if and only if it failed, and in flight or unknown if and only if it is executing. |
| Verdicts.RunKeepsVerdicts | backend/app/backoffice/execution.py:298-305 | Every action of every run keeps that agreement of outcome and status. |
| ExecutionGuarantees.EventsAreConserved | backend/app/backoffice/services.py:480-503 | At all times an item's started events exceed its executed, failed and reconciled events by one fan-out (the number of linked documents, at least 1) if an execution is pending, and equal them otherwise. |
| ExecutionGuarantees.AtMostOneCallPerStep | backend/app/backoffice/execution.py:127-174 | Over any interleaving of requests, replays, crashes and reconciliations no two calls are for the same step, and each is made under a reservation of that step. A run lets a holder call once per reservation, which is what `ExecuteApprovedStep` is proved to do. |
| ExecutionGuarantees.CallsAreForDifferentPlans | backend/app/backoffice/planner.py:136-173 | Two tool calls for one item are for different plans, because a plan has at most one step with a tool. |
| ExecutionGuarantees.NoMoreCallsThanPlans | backend/app/backoffice/execution.py:127-174 | An item never sees more tool calls than it has plans. |
| ExecutionGuarantees.StepRankNeverRises | backend/app/backoffice/execution.py:183-218 | In any run the rank of a step (not started, executing, settled) never rises, and it falls whenever the status changes; so a step is reserved once and settled once. |
| ExecutionGuarantees.ReservationNeedsGrant | backend/app/backoffice/execution.py:367-377 | A reservation goes through only while an approval of the step is granted, although the code asks only for steps that require one: planned tool steps all do. |
| ReservationGuarantees.ReservationGrantedIff | backend/app/backoffice/execution.py:342-394 | In a reachable state a request is granted a reservation if and only if the item is the caller's and the step belongs to its current plan, has a tool, was neither started nor blocked, is approved, an executor is there, and a guarded export has a first linked document that exists in the workspace and is approved. |
| Replies.RequestIsAnswered | backend/app/backoffice/execution.py:342-394 | In a reachable state each answer to a request for a step of the current plan has one exact condition: already executed if and only if executed, unreconciled if executing, not runnable if blocked or failed, approval missing if it requires one that nobody granted, then no tool, no executor, no document, document not found, document not approved, and otherwise a reservation; nothing changes unless it is granted. |
| Replies.RequestFindsNoStep | backend/app/backoffice/execution.py:411-435 | A request for an item that is not the caller's, or for a step that its current plan does not hold, is not found; an item without a plan has its own error. |
| Replies.SettledStepIsReplayed | backend/app/backoffice/execution.py:347-366 | Once a step is executed (or failed), on every continuation in which its plan is the current one a request for it is answered "already executed" (or "not runnable") and changes nothing. |
| Verdicts.ReservingWrites | backend/app/backoffice/execution.py:187-203 | A granted reservation writes exactly the five execution keys, the executing status and the time to item and step, and changes no other item, plan or field. |
| ReservationGuarantees.CallsWereReserved | backend/app/backoffice/execution.py:437-459 | Every logged tool call goes back to an action of the run that granted its reservation, in a state in which the step was approved and a guarded export had its document approved. |
| ReservationGuarantees.CallWasMade | backend/app/backoffice/execution.py:127-174 | Every entry of the call log was made by the tool call of its reservation's holder, and the entries stand in the order of the calls. |
| ReservationGuarantees.ApprovedThenReservedThenCalled | backend/app/backoffice/execution.py:127-174 | For every tool call of a run, an earlier action of a caller of the workspace approved the step, a later one reserved it, and a still later one is the call; the approval on record carries the name, notes and time of that first action. |
| ReservationGuarantees.DecisionWasTaken | backend/app/backoffice/planning_service.py:387-429 | Every granted or rejected approval goes back to an approving or rejecting action of a caller of its workspace, and records that caller, the notes and the clock of that action. |
| ReservationGuarantees.DecisionStands | backend/app/backoffice/models.py:227-247 | No continuation changes a decided approval, its reviewer, notes and review time included. |
| ExportGuarantees.ExportIsCalledWhileApprovedIff | backend/app/backoffice/execution.py:437-459 | When a guarded export is called, its first linked document is the one that was approved when the step was reserved; it is still approved if and only if no action between reservation and call exported it, and otherwise it is exported. |
| ExportGuarantees.ReadyExportMayComeLate | backend/app/backoffice/execution.py:437-459 | Wherever a guarded export may be reserved, the run that reserves it, exports the document elsewhere and calls the tool ends with the call logged and the document exported before it. |
| ExportGuarantees.CalledForAnExportedInvoice | backend/app/backoffice/execution.py:437-459 | A concrete run from an empty store (upload, processing, approval, creation, planning, approval, reservation, export elsewhere, call) in which the tool is called for an exported invoice. |
| Frames.ApprovedUntilExported | backend/app/documents/status.py:38-38 | In any run an approved document stays approved until an action exports it, and is exported from then on. |
| Frames.OthersLeaveUncalled | backend/app/backoffice/execution.py:127-174 | Whatever run of others follows a reservation, without its holder's call the reservation is still on record and uncalled. |
| ExecutionGuarantees.CallsAreApproved | backend/app/backoffice/models.py:227-247 | Every step the tool was ever called for has a granted approval, and keeps it on every continuation. |
| ExecutionGuarantees.BlockedNeverExecutes | backend/app/backoffice/execution.py:365-366 | A step blocked at planning stays blocked and is never reserved or called on any continuation, even if its approval is granted later. |
| ExecutionGuarantees.RejectedNeverExecutes | backend/app/backoffice/planning_service.py:409-429 | A step whose approval was rejected is never reserved or called on any continuation, and never gets a granted approval. |
| ExecutionGuarantees.ExactlyOneApproval | backend/app/backoffice/planning_service.py:247-266 | Every step that requires approval has exactly one. |
| Starting.NothingElseRuns | backend/app/backoffice/execution.py:183-218 | A step that may be started implies that no step of any plan of its item is executing, although the reservation never asks. |
| Runs.ActionKeepsInv | backend/app/backoffice/execution.py:183-218 | Every transaction of every actor keeps the invariant of the state and takes nothing back (steps only move forward, logs only grow). |
| Runs.RunKeepsInv | backend/app/backoffice/execution.py:183-218 | The same for whole runs of interleaved planners, approvers, editors, holders and reconcilers. |
| Starting.StartKeepsInv | backend/app/backoffice/execution.py:183-218 | Starting a step keeps the invariant, the uniqueness of the running step included. |
| Settling.SettleKeepsInv | backend/app/backoffice/execution.py:283-309 | A verdict keeps the invariant and ends the wait of its item. |
| Creation.PlanKeepsInv | backend/app/backoffice/planning_service.py:171-205 | Storing a new plan keeps the invariant. |
| Creation.CreationKeepsInvUnlessForged | backend/app/backoffice/services.py:110-157 | Creating an item keeps the invariant of this model if and only if nothing is created or the caller's initial context neither claims a pending execution nor names an execution plan; the routes pass only requested_outcome. |
| ForgedItems.ForgedItemIsWedged | backend/app/backoffice/planning_service.py:460-464 | What a forged pending outcome leads to: on every continuation the item stays pending, and planning, reserving and reconciling it are refused and change nothing. |
| ForgedItems.NewItemPlansIff | backend/app/backoffice/planning_service.py:460-464 | The exact condition of that: a new item can be planned by its workspace if and only if its initial context claims no pending outcome, whatever else the context claims. |
| Fencing.ActiveIffExecuting | backend/app/backoffice/execution.py:319-340 | The token and target test that guards every holder call holds, with the outcome pending, exactly while the step of the reservation is executing. |
| Fencing.SupersededIsSettled | backend/app/backoffice/execution.py:319-340 | A reservation whose step was settled, whose plan was replaced, or that a later reservation on the item followed, has its verdict on record. |
| Fencing.SupersededIsFenced | backend/app/backoffice/execution.py:220-317 | Whatever a holder of such a reservation does at any later time (renew, mark unknown, finalize) changes no plan, item, event or agent run, and no renewal succeeds. |
| Fencing.VerdictPersists | backend/app/backoffice/execution.py:283-309 | A verdict stands on every continuation. |
| Verdicts.FinalizingGivesTheVerdict | backend/app/backoffice/execution.py:298-308 | A finalization that answers with the tool's response leaves the item resolved with a confirmed success or failed with a confirmed failure, as the tool said, and changes nothing else about it or any other item; any other answer changes nothing. |
| Verdicts.ReconcilingGivesTheVerdict | backend/app/backoffice/recovery.py:67-87 | A reconciliation that changes anything does the same with the human's verdict and returns that item. |
| Verdicts.FinalizingWritesTheStep | backend/app/backoffice/execution.py:298-308 | The held step alone becomes executed or failed, with the time; nothing else of its plan and no other plan changes. |
| Verdicts.ReconcilingWritesTheStep | backend/app/backoffice/recovery.py:67-77 | The same for the reconciled step. |
| Fencing.LookupFindsThePlan | backend/app/backoffice/recovery.py:89-101 | In reachable states the plan lookup of a reconciliation finds the one plan that holds the step; the named and the current plan never stop the search. |
| Fencing.PreferredPlansAreOwn | backend/app/backoffice/recovery.py:150-165 | In reachable states the list of plans to search first is never refused; it has no repeats, holds only plans of the item, and holds the current one and the one the context names. |
| Fencing.FirstVerdictStands | backend/app/backoffice/recovery.py:41-87 | Once a step has its verdict, on every continuation an agreeing reconciliation changes nothing and returns the item, and a contrary one is refused. |
| Replies.ReconciliationIsAnswered | backend/app/backoffice/recovery.py:29-87 | In a reachable state the answer to a reconciliation of any step of the item is fixed: a summary is required; a verdict may be repeated and not reversed; an executing step is still active below 300 s unless its outcome is unknown, and settled otherwise; any other step has nothing to reconcile; and only the settling case changes anything. |
| Replies.AnyReconciliation | backend/app/backoffice/recovery.py:61-66 | Reachable or not, an executing step is settled only for the target that the item names and only if the outcome is unknown, or in flight without a heartbeat or with one that is 300 s old; each refusal has its own error. |
| Replies.NamedPlanMustBeOwn | backend/app/backoffice/recovery.py:150-165 | The lookup refuses a name that is no identifier, a plan that is not stored and a plan of another item or workspace. |
| Replies.WordsAreWhatStrippingLeaves | backend/app/backoffice/recovery.py:37-40 | A summary counts if and only if something is left when it is stripped. |
| Fencing.OutcomesOnlyMoveForward | backend/app/backoffice/execution.py:225-240 | No action turns an unknown outcome back into one in flight, a late renewal included; pending outcomes only become unknown or settled, and executions start only while none is pending. |
| HolderOutcomes.RenewsUnlessLost | backend/app/backoffice/execution.py:225-240 | A renewal answers False exactly when the execution is settled or marked unknown. |
| HolderOutcomes.RenewalNeverResumes | backend/app/backoffice/execution.py:90-96 | After the first False no renewal of the reservation ever succeeds again, so the heartbeat thread is right to stop. |
| HolderOutcomes.MarkingLeavesUnknown | backend/app/backoffice/execution.py:247-265 | After marking, the step has a verdict or the outcome is unknown: nothing is silently in flight. |
| HolderOutcomes.FinalizingLeavesVerdict | backend/app/backoffice/execution.py:279-317 | After finalizing, the step has a verdict, and an answered tool response is the verdict on record. |
| RecoveryGuarantees.HeartbeatMoves | backend/app/backoffice/execution.py:193-201 | Only a reservation or a renewal changes the heartbeat of a pending execution, and sets it to the clock. |
| RecoveryGuarantees.HeartbeatIsLastBeat | backend/app/backoffice/recovery.py:130-147 | In every run the heartbeat of a pending execution is present, readable and the time of the last reservation or renewal; the branches for a missing or unparsable one are never taken. |
| RecoveryGuarantees.ReconcilesIffLeaseOver | backend/app/backoffice/recovery.py:41-87 | Reconciling the awaited step succeeds, with either verdict, exactly when there is a summary and the outcome is unknown or 300 s have passed since the heartbeat. |
| RecoveryGuarantees.ReconcilesFrom300SecondsOn | backend/app/backoffice/recovery.py:130-147 | With an execution in flight and its heartbeat at h, reconciling the awaited step with a summary is refused as still active at every clock below h + 300 s, changing nothing, and succeeds with either verdict from h + 300 s on. |
| RecoveryGuarantees.LiveHolderIsNotOverruled | backend/app/backoffice/recovery.py:130-147 | While less than 300 s have passed since the last beat, a reconciliation leaves an execution in flight alone. |
| RecoveryGuarantees.PunctualHolderKeepsItsExecution | backend/app/backoffice/recovery.py:130-147 | In a run whose holder always beats within 300 s, no reconciliation changes anything while the outcome is in flight. |
| RecoveryGuarantees.NeverWedged | backend/app/backoffice/planning_service.py:460-464 | From every reachable state with a pending execution, 300 s later reconciling with either verdict succeeds, and afterwards planning is not refused for a pending execution. |
| Policy.ToolActionsNeedConfirmation | backend/app/backoffice/policy.py:100-179 | Exactly the actions with a tool need confirmation; they are allowed only to a confirmed admin or operator of the item's workspace with sufficient evidence, exporting only to a true admin, and whatever is blocked is reported as blocked. |
| Policy.AllowedExactlyIf | backend/app/backoffice/policy.py:100-179 | The exact condition under which each action is allowed (role, workspace, target, evidence, confirmation), and the autonomy and the risk it is allowed with. |
| Planner.PlansAreBounded | backend/app/backoffice/planner.py:33-91 | A plan has one or two steps numbered in turn; at most one has a tool, exactly that one requires approval, and it starts waiting for approval, or blocked if the invoice is not approved for export; nothing starts executed. |
| PlannedWork.ActionsByWorkType | backend/app/backoffice/planner.py:108-232 | The actions of a plan: one escalation if and only if the type or missing evidence calls for a human; explain and recommend for a review; inspect and export for an export; the note or the message for the other two, after an explanation if and only if documents are linked. |
| PlannedWork.StepsStart | backend/app/backoffice/planner.py:234-280 | A step without a tool starts blocked if and only if the caller may not plan, and planned otherwise, with the risk of its action; the export starts blocked if and only if the invoice is not approved, and waits for approval otherwise. |
| PlannedWork.PlanningBrings | backend/app/backoffice/planning_service.py:171-283 | A new plan brings the draft that its work type calls for and no other, one pending approval if and only if it holds an export, both for its last step; the item gets the plan, the deciding type, and is left to a human if and only if the plan is escalated. |
| Planner.Plan | backend/app/backoffice/planner.py:33-91 | The step-by-step planner computes the step list that `PlannedWork.ActionsByWorkType` and `PlannedWork.StepsStart` characterise, the escalation and the item state. |
| PlanningGuarantees.OnePlanPerKey | backend/app/backoffice/planning_service.py:148-169 | In every reachable state a key names at most one plan of an item. |
| Replies.PlanningIsAnswered | backend/app/backoffice/planning_service.py:99-146 | In a reachable state the answer to a planning request is fixed: a key over 200 characters is refused first, then an unknown item, then a key bound to another request, then a pending execution; a bound key gives its plan unchanged, any other request a new plan under its key. |
| PlanningGuarantees.NewPlanListsApprovals | backend/app/backoffice/planning_service.py:431-457 | Listing the approvals of a new plan's steps gives the ones it was created with, in order. |
| PlanningGuarantees.NewPlanListsDrafts | backend/app/backoffice/planning_service.py:431-457 | The same for drafts. |
| PlanningGuarantees.ReplayReturnsTheSamePlan | backend/app/backoffice/planning_service.py:106-169 | However the workflow goes on, the same request with the same key changes nothing and returns the same plan id and approval ids, with the original draft ids as a prefix; a request with another fingerprint is refused. |
| PlanningGuarantees.ReplayReturnsTheSameItem | backend/app/backoffice/services.py:110-157 | Once a request with a key has created an item, on every continuation a request of the workspace that normalises to the same key changes nothing: with the same title, work type, documents and context it gets the same item, otherwise it is refused. |
| Models.Approval.Approve | backend/app/backoffice/models.py:227-236 | Approving is refused exactly for a rejected approval, returns a granted one unchanged, and otherwise grants it and records reviewer, notes and review time. |
| Models.Approval.Reject | backend/app/backoffice/models.py:238-247 | Rejecting is refused exactly for a granted approval, returns a rejected one unchanged, and otherwise rejects it and records reviewer, notes and review time. |
| Replies.DecisionIsAnswered | backend/app/backoffice/planning_service.py:387-429 | In a reachable state both decisions on any approval are answered exactly: not found outside the workspace, recorded with reviewer, notes and time if pending, unchanged if decided alike, refused if decided otherwise. |
| Replies.RegenerationIsAnswered | backend/app/backoffice/planning_service.py:311-342 | Regenerating adds a draft of the same kind for the same step under a new identifier and keeps the old ones; a draft of another item or workspace is not found. |
| RequestIdentity.StripTrims | backend/app/backoffice/request_identity.py:13-19 | Stripping cuts the whitespace at both ends and nothing else: what is left is a stretch of the text with only whitespace around it. |
| RequestIdentity.Strip | backend/app/backoffice/request_identity.py:13-19 | What is left has no whitespace at either end. |
| RequestIdentity.NormalizedKeyIsStable | backend/app/backoffice/request_identity.py:13-19 | A key in use has 1 to 200 characters and normalises to itself; a longer one is refused. |
| RequestIdentity.SpaceByCodePoint | backend/app/backoffice/request_identity.py:13-19 | The whitespace that stripping removes, by code point. |
| AuditTrail.ActionTells | backend/app/backoffice/services.py:480-503 | Every action of every actor logs exactly the events that stand for what it changed, in order, of the item it is about, and notes exactly the agent run that stands for a new plan or a finalized execution. |
| AuditTrail.EventHasItsAction | backend/app/backoffice/services.py:480-503 | Every event of a run goes back to an action of the run on the event's item that did what the event says. |
| AuditTrail.FanOutIs | backend/app/backoffice/services.py:480-503 | One record call adds no event if events are off, one without a document if the item links none, and one for each linked document in order otherwise. |
| ItemStories.ActionContinues | backend/app/backoffice/services.py:174-207 | What each action makes of an item's title, type, priority, status, assignee, requested outcome, tags, correction and update time; what it is not about stays. |
| ItemStories.ItemTellsItsStory | backend/app/backoffice/services.py:110-358 | In every run an item shows exactly what the actions since its creation made of it, taken one by one. |
| Tags.TagsAreKeptOnce | backend/app/backoffice/services.py:195-198 | The stored tags are the given ones that are not blank once stripped, each once, in the order in which they were first given. |
| Tags.StoredTagsSplit | backend/app/backoffice/services.py:196-198 | Splitting the stored text at its commas gives the tags back, if no tag holds a comma. |
| Documents.StatusesComeFrom | backend/app/documents/status.py:18-44 | The transition table by target: from where a document can be queued, approved, exported and so on; every other move raises and a move changes nothing but the status. |
| Coordinator.ExecutionCoordinator.ExecuteApprovedStep | backend/app/backoffice/execution.py:127-174 | With other callers committing between any two of its transactions, the method makes only steps of the protocol. If it did not reserve, it passes on the answer of the reservation (`Replies.RequestIsAnswered`), changed nothing and called nothing. If it reserved, the run has exactly one call under the new token and the log one entry for it; the caller is told that the outcome is unknown if the tool raised, the store's failure if storing failed, and otherwise the tool's response unless the execution was settled in between; a tool response is the verdict on record, of step and item; and unless even marking failed a verdict or an unknown outcome is left. |
| Coordinator.ExecutionCoordinator.CallToolAmongOthers | backend/app/backoffice/execution.py:148-161 | Others commit before and after the tool call; the reservation has exactly one call and one log entry in the end, and its holder can still store the outcome. |
| Coordinator.ExecutionCoordinator.StoreOutcome | backend/app/backoffice/execution.py:159-174 | Stores the verdict on step and item, or marks the outcome unknown if the tool raised or storing failed; fixes the answer in each case; it never calls the tool. |
| Coordinator.ExecutionCoordinator.LogCall | backend/app/backoffice/execution.py:148-157 | A call is logged unconditionally; a holder that has called may not call again. |
| Coordinator.ExecutionCoordinator.RunHeartbeat | backend/app/backoffice/execution.py:90-96 | The loop wakes up as often as it is asked to unless a renewal is refused; its run has exactly one renewal of its own for each wake-up whose store works, all answered True except a refused last one; and it is refused only when the execution is settled or marked unknown. |
| Coordinator.ExecutionCoordinator.ReserveApprovedExecution | backend/app/backoffice/execution.py:176-218 | The transaction gives the state and the answer of the reservation step of a run, whose answers `Replies.RequestIsAnswered` and whose writes `Verdicts.ReservingWrites` characterise. |
| Coordinator.ExecutionCoordinator.StartStep | backend/app/backoffice/execution.py:189-210 | Marks the step executing and writes token, outcome, heartbeat and target to the item under a fresh token. |
| Coordinator.ExecutionCoordinator.HasApprovedAction | backend/app/backoffice/execution.py:396-409 | The scan finds an approval if and only if a granted one of the step is listed. |
| Coordinator.ExecutionCoordinator.RenewExecutionReservation | backend/app/backoffice/execution.py:220-240 | Renews the heartbeat only for the active reservation of an execution in flight; for a granted reservation it is a step of a run. |
| Coordinator.ExecutionCoordinator.MarkExecutionOutcomeUnknown | backend/app/backoffice/execution.py:242-270 | Marks the outcome unknown only for the active reservation; for a granted one it is a step of a run. |
| Coordinator.ExecutionCoordinator.FinalizeReservedExecution | backend/app/backoffice/execution.py:272-317 | The transaction gives the state and the answer of the finalizing step of a run; `Verdicts.FinalizingGivesTheVerdict` says what it writes to the item, `Verdicts.FinalizingWritesTheStep` to the step, and `AuditTrail.ActionTells` what it logs. |
| Services.ExecutionRecovery.PlanContaining | backend/app/backoffice/recovery.py:89-101 | Searches those plans, then all plans of the item. |
| Services.ExecutionRecovery.ReconcileExecution | backend/app/backoffice/recovery.py:29-87 | The transaction gives the state and the answer of the reconciling step of a run, which `Replies.ReconciliationIsAnswered`, `RecoveryGuarantees.ReconcilesFrom300SecondsOn` and `Verdicts.ReconcilingGivesTheVerdict` characterise. |
| Services.PlanningService.PlanByKey | backend/app/backoffice/repositories.py:156-173 | The scan finds the first plan that the key names. |
| Services.PlanningService.PlanResult | backend/app/backoffice/planning_service.py:431-457 | The replayed answer, computed by scanning drafts and approvals. |
| Services.PlanningService.CreateStepRecords | backend/app/backoffice/planning_service.py:207-266 | One step gets its draft unless it is blocked or needs none, and its approval if it requires one, with their events. |
| Services.PlanningService.CreateRecords | backend/app/backoffice/planning_service.py:130-139 | The loop over the steps creates exactly the rows and identifier lists of the specification. |
| Services.PlanningService.GeneratePlan | backend/app/backoffice/planning_service.py:171-205 | Plans, then saves plan and item and records the run and the event. |
| Services.PlanningService.RecordEscalation | backend/app/backoffice/planning_service.py:268-283 | An escalated plan leaves the item awaiting a human. |
| Services.PlanningService.PlanWorkItem | backend/app/backoffice/planning_service.py:99-146 | The transaction gives the state and the answer of the planning step of a run, which `Replies.PlanningIsAnswered` and `PlannedWork.PlanningBrings` characterise. |
| Services.PlanningService.RegenerateDraft | backend/app/backoffice/planning_service.py:311-342 | Adds a draft for the same step to the item's drafts; a step of a run. |
| Services.PlanningService.ApproveRequest | backend/app/backoffice/planning_service.py:387-407 | Decides one approval, with an event only for a first decision; a step of a run. |
| Services.PlanningService.RejectRequest | backend/app/backoffice/planning_service.py:409-429 | Likewise. |
| Services.WorkItemService.CreateWorkItem | backend/app/backoffice/services.py:110-157 | Creation with idempotent replay; with a context as the routes pass it, a step of a run. |
| Replies.CreationIsAnswered | backend/app/backoffice/services.py:110-157 | In a reachable state the answer to a creation request is fixed: a key over 200 characters is refused; a key in use gives its item to the same request and is refused to any other; otherwise there is exactly one more item, with the request's content and key. |
| Services.WorkItemService.UpdateWorkItem | backend/app/backoffice/services.py:174-207 | Metadata edits, which may hit an item in flight; tags are stripped, blank ones dropped, and equal ones kept once; a step of a run. |
| Replies.EditsAreAnswered | backend/app/backoffice/services.py:174-358 | Editing, asking for a correction, submitting one and escalating answer with the item when it is the caller's, and otherwise are not found and change nothing. |
| Services.WorkItemService.RequestCorrection | backend/app/backoffice/services.py:289-313 | Overwrites the status but none of the execution keys; a step of a run. |
| Services.WorkItemService.SubmitCorrection | backend/app/backoffice/services.py:315-337 | Acts only on a requested correction; a step of a run. |
| Services.WorkItemService.EscalateWorkItem | backend/app/backoffice/services.py:339-358 | Overwrites the status, also mid-flight; a step of a run. |
| Ledgers.Ledger.RecordEvent | backend/app/backoffice/services.py:480-503 | The loop appends one event per linked document, or one without a document. |
| Ledgers.Ledger.SaveWorkItem | backend/app/backoffice/repositories.py:90-93 | A save replaces the record under its identifier and keeps the insertion order. |
| WorkItemIndex.SqliteWorkItems.Save | backend/app/backoffice/sqlite_repositories.py:36-75 | After every save the join table holds exactly the rows the stored payloads stand for; a save is refused, and rolled back, exactly when a document is linked twice, a linked document is not stored, or the key is in use in the workspace. |
| WorkItemIndex.SqliteWorkItems.GetLatestForDocuments | backend/app/backoffice/sqlite_repositories.py:110-140 | The ranked lookup answers for exactly the requested documents that some stored item of the workspace links, with the newest such item, ties going to the greatest identifier. |
| WorkItemIndex.InMemoryWorkItems.GetLatestForDocuments | backend/app/backoffice/repositories.py:122-138 | The nested loops keep for each document what a scan of that document alone would keep. |
| WorkItemIndex.ScanFindsFirstNewest | backend/app/backoffice/repositories.py:122-138 | The scan ends with the first inserted of the newest candidates. |
| WorkItemIndex.LookupsAgreeUpToTies | backend/app/backoffice/sqlite_repositories.py:110-140 | The two lookups give the same item if and only if, of the newest candidates, the one inserted first has the greatest identifier; their times always agree. |
| WorkItemIndex.LookupsAgree | backend/app/backoffice/sqlite_repositories.py:110-140 | They agree on every document whose candidates have distinct update times. |
| WorkItemIndex.StoreAndAsk | backend/app/backoffice/sqlite_repositories.py:36-75 | Over any sequence of saves both stores hold the same items up to the first save the database refuses; then they answer for the same documents, with the same item exactly where ties are in the order of insertion, hence wherever times are distinct. |
| WorkItemIndex.TieSplitsTheStores | backend/app/backoffice/repositories.py:122-138 | A concrete tie: of two equally new items the in-memory store returns the first saved and the database the one with the greater identifier. |
| Codec.ItemRoundTrip | backend/app/backoffice/sqlite_repositories.py:373-417 | Reading a written work item gives it back, an empty key as None. |
| Codec.StepRoundTrip | backend/app/backoffice/sqlite_repositories.py:461-488 | Likewise for a step and its optional texts. |
| Codec.PlanRoundTrip | backend/app/backoffice/sqlite_repositories.py:420-458 | Likewise for a plan with any number of steps. |
| Codec.PlanRoundTripIsExactIff | backend/app/backoffice/sqlite_repositories.py:420-458 | A plan comes back exactly as it was if and only if none of its optional texts is empty. |
| Codec.DraftRoundTrip | backend/app/backoffice/sqlite_repositories.py:491-517 | Drafts come back as they were. |
| Codec.ApprovalRoundTrip | backend/app/backoffice/sqlite_repositories.py:520-554 | Approvals come back, empty optional texts as None. |
| Codec.DecisionRoundTrip | backend/app/backoffice/sqlite_repositories.py:557-587 | Policy decisions come back as they were. |
| Codec.EventRoundTrip | backend/app/backoffice/sqlite_repositories.py:590-618 | Workflow events come back as they were. |
| Codec.ItemIsReadByKey | backend/app/backoffice/sqlite_repositories.py:392-418 | Every field of a work item is read from the key of its own, documents in order. |
| Codec.PlanIsReadByKey | backend/app/backoffice/sqlite_repositories.py:437-459 | The same for plans, steps in order. |
| Codec.StepIsReadByKey | backend/app/backoffice/sqlite_repositories.py:476-489 | The same for steps. |
| Codec.DraftIsReadByKey | backend/app/backoffice/sqlite_repositories.py:505-518 | The same for drafts. |
| Codec.ApprovalIsReadByKey | backend/app/backoffice/sqlite_repositories.py:537-555 | The same for approvals. |
| Codec.DecisionIsReadByKey | backend/app/backoffice/sqlite_repositories.py:573-588 | The same for policy decisions. |
| Codec.EventIsReadByKey | backend/app/backoffice/sqlite_repositories.py:604-618 | The same for events. |
| Codec.StoringIsInvisible | backend/app/backoffice/sqlite_repositories.py:373-458 | Storing changes nothing the execution protocol reads but an empty key, and storing again changes nothing more. |
| Codec.ReachableRecordsSurvive | backend/app/backoffice/sqlite_repositories.py:373-458 | In every state the services reach, each item survives storage exactly, and each plan exactly as far as the execution protocol can see. |
| ProviderRanking.ScoreProviders | backend/app/benchmark/report.py:340-386 | The loop and the sort compute the ranking whose trade-offs, ends and ties the lemmas below fix. |
| ProviderRanking.ScoresInRange | backend/app/benchmark/report.py:340-386 | With rates between 0 and 1 the rounded score and its parts lie between 0 and 1. |
| ProviderRanking.NormalizedFalls | backend/app/benchmark/report.py:389-402 | A higher cost or latency never normalises to a higher value. |
| ProviderRanking.RankingIsSortedPermutation | backend/app/benchmark/report.py:370-386 | The ranking is a permutation of the scored reports, in the order of the sort key. |
| ProviderRanking.DominatingScoreIsNotLower | backend/app/benchmark/report.py:340-386 | A provider at least as good in success, accuracy, error rate, cost (unknown is worst) and latency never scores lower, rounding included. |
| ProviderRanking.DominatingProviderComesFirst | backend/app/benchmark/report.py:340-386 | If it is also better in success, accuracy, cost or latency it is ordered earlier. |
| ProviderRanking.ErrorRateAloneCanLose | backend/app/benchmark/report.py:340-386 | A lower error rate alone does not suffice: a concrete pair is ordered the other way round. |
| ProviderRanking.WhenErrorRateDecides | backend/app/benchmark/report.py:340-386 | Between reports that differ only in name and error rate, the lower error rate is placed first if and only if the two weighted sums round differently, or its name sorts first, or the names agree and it was listed first. |
| ProviderRanking.ErrorRateGapDecides | backend/app/benchmark/report.py:340-386 | If their error rates differ by more than 1/1500, the lower one always scores higher and comes first. |
| ProviderRanking.SuccessAgainstAccuracy | backend/app/benchmark/report.py:356-362 | Between reports alike but in success, accuracy and name, four times the lead in success against three times the deficit in accuracy decides the place, with a margin of 1/1000 for rounding, in both directions. |
| ProviderRanking.AccuracyAgainstReliability | backend/app/benchmark/report.py:356-362 | Likewise twice the lead in accuracy against the excess in error rate. |
| ProviderRanking.ReliabilityAgainstCost | backend/app/benchmark/report.py:356-362 | Likewise three times the lower error rate against twice the higher cost, as a part of the spread of the known costs. |
| ProviderRanking.CostAgainstLatency | backend/app/benchmark/report.py:356-362 | Likewise twice the lower cost against the higher latency, each as a part of its spread. |
| ProviderRanking.EndsOfTheScale | backend/app/benchmark/report.py:340-403 | A perfect, cheapest and fastest report scores 1 and the worst, dearest and slowest one 0, in total and in each part; an unknown cost counts as the dearest. |
| ProviderRanking.EndsOfTheParts | backend/app/benchmark/report.py:389-403 | The cheapest known cost has cost score 1, the dearest of several and an unknown one 0; the same for latency; no errors means reliability 1. |
| ProviderRanking.SuccessOutweighsAccuracy | backend/app/benchmark/report.py:405-412 | A concrete pair: 0.74 and 0.72, and the first is recommended. |
| ProviderRanking.TiesGoDownTheList | backend/app/benchmark/report.py:372-386 | Reports with equal scores go by success, accuracy, cost (unknown last), latency, name and then the order they were listed in. |
| ProviderRanking.RanksGoDownTheList | backend/app/benchmark/report.py:296-317 | The plain ranking goes by success, accuracy, error rate, cost (unknown last), latency and then the order they were listed in. |
| ProviderRanking.RecommendsIffReports | backend/app/benchmark/report.py:320-337 | Nothing is recommended if and only if there is no report; the summary lists every report once, in the order of the sort key. |
| ProviderRanking.RecommendationIsUnbeaten | backend/app/benchmark/report.py:320-337 | The recommended report has the highest score. A report at least as good in every respect can differ from it only in name and error rate, with the same rounded score and a name that does not sort earlier; none is better in success, accuracy, cost or latency. |
| ProviderRanking.RanksRespectDominance | backend/app/benchmark/report.py:296-317 | In the plain ranking every respect counts: dominance, also in error rate alone, means a smaller rank, and every report is ranked once. |
| Sorting.SortIsStable | backend/app/benchmark/report.py:296-317 | Sorting keeps the order of reports that compare equal. |
| Sorting.SortPlaces | backend/app/benchmark/report.py:296-317 | Every report is found at its place in the ranking. |
| Sorting.PlacesFollowTheOrder | backend/app/benchmark/report.py:296-317 | Of two reports the one placed first is the one whose key is smaller or, if the keys are equal, the one listed first. |
| LoadMetrics.NearestRankSplitsTheValues | scripts/production_validation/metrics.py:16-23 | For a percentile p in (0, 100] the result is one of the values, with at least p% of them at or below it and less than p% below it; the index is in range. |
| LoadMetrics.PercentileIsRefusedIff | scripts/production_validation/metrics.py:15-23 | A percentile of no values is none, whatever is asked for; of some values it is refused if and only if it is out of range. |
| LoadMetrics.NearestRankIsLeast | scripts/production_validation/metrics.py:16-23 | It is the least value with at least p% at or below it. |
| LoadMetrics.NearestRankIsMonotone | scripts/production_validation/metrics.py:16-23 | A higher percentile never gives a smaller value. |
| LoadMetrics.PercentilesAreOrdered | scripts/production_validation/metrics.py:224-244 | In every summary p50 <= p90 <= p95 <= p99 <= max, after rounding. |
| LoadMetrics.SummarizeTimeline | scripts/production_validation/metrics.py:54-94 | The loops give strictly increasing windows, one for every bucket some sample falls in, each computed from exactly the samples of its bucket; a non-positive interval is refused. |
| LoadMetrics.GroupByBucket | scripts/production_validation/metrics.py:63-66 | The first loop puts every sample in the list of its bucket, in order. |
| LoadMetrics.TimelineStartsAtZero | scripts/production_validation/metrics.py:62-66 | The first window has index 0 and starts at the earliest sample. |
| LoadMetrics.WindowsPartitionTime | scripts/production_validation/metrics.py:62-66 | Every sample starts in exactly one window. |
| LoadMetrics.TimelineConserves | scripts/production_validation/metrics.py:67-94 | Counts, expected responses, server errors and the samples of each operation add up over the windows to those of the whole run. |
| LoadMetrics.OperationsConserve | scripts/production_validation/metrics.py:26-34 | The operations of a summary add up to the whole. |
| LoadMetrics.StatusesConserve | scripts/production_validation/metrics.py:224-238 | The status counts of an operation add up to its count. |
| LoadMetrics.SummarizeSamples | scripts/production_validation/metrics.py:26-51 | The run summary: what its timeline of 60 s windows shows adds up to its totals; its percentages are the rounded shares of the totals and lie between 0 and 100, and its throughput is the rounded rate. |
| LoadMetrics.SummaryMeans | scripts/production_validation/metrics.py:224-244 | A summary's p50, p90, p95 and p99 are, to the thousandth, values that split the durations at 50, 90, 95 and 99 percent; its maximum, its rate and its counts of all and of expected responses are what they say; without samples there are none. |
| LoadMetrics.StatusCountsMean | scripts/production_validation/metrics.py:227-238 | A status is listed if and only if some sample had it, with the number of those samples. |
| LoadMetrics.OperationsAreTheirOwn | scripts/production_validation/metrics.py:26-34 | Each operation is summarised from exactly its own samples. |
| LoadMetrics.WindowMeans | scripts/production_validation/metrics.py:54-94 | A window starts a whole number of intervals after the first sample and counts the samples, the expected ones and those with a status of 500 or more that start within its interval; its operations are rated over one interval. |
| LoadMetrics.ClassesPartition | scripts/production_validation/metrics.py:54-94 | Counting class by class loses no sample and counts none twice. |
| Containment.ContainsInOrder | backend/app/agentops/backoffice_scenarios.py:216-226 | The greedy leftmost scan returns True if and only if the expected actions occur in order, repeats included. |
| Containment.FirstStaysLeftmost | backend/app/agentops/backoffice_scenarios.py:216-226 | Taking the first occurrence of the next action leaves the scan no further right than any other embedding. |
| Containment.ExchangeStep | backend/app/agentops/backoffice_scenarios.py:216-226 | Any embedding can be exchanged for one that takes the first occurrence the scan takes. |
| Containment.ContainmentIsTransitive | backend/app/agentops/backoffice_scenarios.py:216-226 | What is contained in a contained list is contained. |

## Left out

- HTTP routes, sessions, serializers, the user interface, and every external client: plumbing and foreign services.
- The real tool executor, export and document services: the tool succeeds, fails or raises; a document has a workspace and a status, which whoever may move it moves at any time as the transition table allows.
- UUIDs and execution tokens are drawn from a counter: the program compares them only for equality and they never repeat. Where SQLite breaks ties by identifier, the order of identifiers is the counter's.
- Printing and parsing of UUIDs, times, enumeration names and digests are invertible pairs; SHA-256 is the payload it digests; printed UTC times sort as the times do.
- One clock reading per transaction, where the program may read the clock several times within one.
- Human-readable text, policy-decision records and the contents of agent runs, event actors and event summaries in the protocol; the codec does carry them.
- Keyword classification of a work type, which arrives as a parameter, and confidence, which only labels a plan.
- Creation and update times of approvals, drafts and plans; the update time of a decided approval is its review time.
- The content of drafts, hence `edit_draft`; no execution step reads it.
- Calling `create_draft_for_step` or `request_approval_for_step` directly, which no route does: planning makes one approval per step.
- Lists are in the in-memory repositories' insertion order; the SQLite repositories order by creation time.
- Document retention, which may delete records and, by cascade, rows of the join table: nothing is deleted, so a purged document is not a case of the export guarantees.
- Nested transactions and store failures inside a transaction other than in finalizing, marking and renewing: a failed transaction leaves the state as it was.
- Floating point: scores, durations and percentiles are exact reals, and rounding is to the nearest value with ties to the even one.
- Reading JSON that no writer of the program produces, beyond raising: text in place of an identifier and the like is only refused.
- The retention, list and filter queries of the repositories, and `get_by_idempotency_key` in SQL, which the unique index makes single-valued.
- Dictionaries of operation and status summaries are maps, so the order of their keys is not modelled.
- Acceptance thresholds and upload invariants of the load test, decision reasons and report texts: single comparisons and formatting.
- Services.PlanningService.CreateStepRecords: does not store the policy decision of the step, which nothing in the workflow reads back.
- Coordinator.ExecutionCoordinator.ExecuteApprovedStep: the heartbeat thread is not started inside the method; its renewals are among the actions that may happen between the method's transactions, and the loop itself is `RunHeartbeat`.
