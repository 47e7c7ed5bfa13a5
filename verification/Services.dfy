/** Recovery, planning and the work-item operations as the program runs them (recovery.py,
    planning_service.py and services.py). */
module Services {
  import opened Basics
  import opened Models
  import opened Protocol
  import opened RequestIdentity
  import opened Continuations
  import opened Ledgers
  import opened Runs
  import Planner

  class ExecutionRecovery {
    const ledger: Ledger

    constructor (ledger: Ledger)
      ensures this.ledger == ledger
    {
      this.ledger := ledger;
    }

    /** `_execution_plan_ids` */
    method ExecutionPlanIds(item: WorkItem) returns (r: Result<seq<Id>>)
      ensures r == PreferredPlans(item)
    {
      var ids: seq<Id> := [];
      var named := item.Get(ExecutionPlanId);
      if Truthy(named) {
        if !named.value.UuidText? {
          return Raised(WorkflowError(InvalidExecutionPlanId));
        }
        ids := ids + [named.value.id];
        assert ids == [named.value.id];
      }
      if item.currentPlan.Some? {
        if item.currentPlan.value !in ids {
          ids := ids + [item.currentPlan.value];
        }
      }
      return Ok(ids);
    }

    /** `plan_containing_step`: the named and the current plan first, then every plan of the item. */
    method PlanContaining(item: WorkItem, stepId: Id) returns (r: Result<Id>)
      requires ledger.Valid()
      ensures r == PlanContainingStep(ledger.View(), item, stepId)
    {
      var s := ledger.View();
      var preferred := ExecutionPlanIds(item);
      if preferred.Raised? {
        return Raised(preferred.error);
      }
      var ids := preferred.value;
      var n := 0;
      while n < |ids|
        invariant 0 <= n <= |ids|
        invariant SearchPreferred(ledger.View(), item, ids, stepId)
                  == SearchPreferred(ledger.View(), item, ids[n..], stepId)
      {
        if ids[n] !in ledger.plans {
          return Raised(NotFound);
        }
        var plan := ledger.plans[ids[n]];
        if plan.workspace != item.workspace || plan.itemId != item.id {
          return Raised(WorkflowError(ForeignExecutionPlan));
        }
        var found := ledger.StepIndex(plan.steps, stepId);
        if found.Some? {
          return Ok(ids[n]);
        }
        assert ids[n..][1..] == ids[n + 1..];
        n := n + 1;
      }
      var order := ledger.planOrder;
      n := 0;
      while n < |order|
        invariant 0 <= n <= |order|
        invariant SearchAll(ledger.View(), item, order, stepId) == SearchAll(ledger.View(), item, order[n..], stepId)
      {
        var plan := ledger.plans[order[n]];
        if plan.workspace == item.workspace && plan.itemId == item.id {
          var found := ledger.StepIndex(plan.steps, stepId);
          if found.Some? {
            return Ok(order[n]);
          }
        }
        assert order[n..][1..] == order[n + 1..];
        n := n + 1;
      }
      return Raised(NotFound);
    }

    /** `_execution_is_reconcilable` */
    method IsReconcilable(item: WorkItem) returns (r: bool)
      ensures r == Reconcilable(item, ledger.clock)
    {
      var outcome := item.Get(ExecutionOutcomeKey);
      if outcome == Some(OutcomeText(Unknown)) {
        return true;
      }
      if outcome != Some(OutcomeText(InFlight)) {
        return false;
      }
      var heartbeat := item.Get(ExecutionHeartbeatAt);
      if !Truthy(heartbeat) {
        return true;
      }
      if !heartbeat.value.InstantText? {
        return false;
      }
      return ledger.clock - heartbeat.value.at >= EXECUTION_LEASE;
    }

    method ReconcileExecution(itemId: Id, stepId: Id, ctx: SecurityContext, succeeded: bool, summary: string)
      returns (r: Result<WorkItem>)
      requires ledger.Valid()
      modifies ledger
      ensures ledger.Valid()
      ensures (ledger.View(), r) == Reconcile(old(ledger.View()), itemId, stepId, ctx, succeeded, summary)
      ensures Leads(old(ledger.View()), ledger.View())
    {
      hide Leads;
      ReconcilingLeads(ledger.View(), itemId, stepId, ctx, succeeded, summary);
      if !HasWords(summary) {
        return Raised(WorkflowError(SummaryRequired));
      }
      var loaded := ledger.WorkItemFor(itemId, ctx);
      if loaded.Raised? {
        return Raised(loaded.error);
      }
      var item := loaded.value;
      var planId := PlanContaining(item, stepId);
      if planId.Raised? {
        return Raised(planId.error);
      }
      var plan := ledger.plans[planId.value];
      var found := ledger.StepIndex(plan.steps, stepId);
      var step := plan.steps[found.value];
      if step.status == Executed {
        return if succeeded then Ok(item) else Raised(WorkflowError(SuccessIsFinal));
      }
      if step.status == Failed {
        return if !succeeded then Ok(item) else Raised(WorkflowError(FailureIsFinal));
      }
      if step.status != Executing {
        return Raised(WorkflowError(NothingToReconcile));
      }
      if !TargetMatches(item, plan.id, step.id) {
        return Raised(WorkflowError(TargetMismatch));
      }
      var reconcilable := IsReconcilable(item);
      if !reconcilable {
        return Raised(WorkflowError(ExecutionStillActive));
      }
      var now := ledger.clock;
      step := step.(status := if succeeded then Executed else Failed, updatedAt := now);
      plan := plan.(steps := plan.steps[found.value := step]);
      item := item.(status := if succeeded then ItemResolved else ItemFailed);
      item := item.AttachContext(ExecutionOutcomeKey,
                                 OutcomeText(if succeeded then ConfirmedSuccess else ConfirmedFailure), now);
      ledger.SaveBoth(plan, item);
      ledger.RecordEvent(item, if succeeded then ReconciledSucceeded else ReconciledFailed);
      return Ok(item);
    }
  }

  class PlanningService {
    const ledger: Ledger

    constructor (ledger: Ledger)
      ensures this.ledger == ledger
    {
      this.ledger := ledger;
    }

    /** `get_by_idempotency_key` of the plans */
    method PlanByKey(workspace: string, itemId: Id, key: string) returns (r: Option<Id>)
      requires ledger.Valid()
      ensures r == FindPlanByKey(ledger.plans, ledger.planOrder, workspace, itemId, key)
    {
      var order := ledger.planOrder;
      var n := 0;
      while n < |order|
        invariant 0 <= n <= |order|
        invariant FindPlanByKey(ledger.plans, order[..n], workspace, itemId, key).None?
      {
        assert order[..n + 1][..n] == order[..n];
        if KeyedPlan(ledger.plans[order[n]], workspace, itemId, key) {
          KeyFoundEarly(ledger.plans, order, n, workspace, itemId, key);
          return Some(order[n]);
        }
        n := n + 1;
      }
      assert order[..n] == order;
      return None;
    }

    /** `plan_result_for`: the drafts of the plan's steps and the approvals of the plan's steps. */
    method PlanResult(item: WorkItem, plan: TaskPlan, workspace: string) returns (r: PlanReply)
      ensures r == PlanResultFor(ledger.View(), item, plan, workspace)
    {
      hide DraftIds, ApprovalIds, DraftsOf, ApprovalsOf;
      var draftIds := ListDrafts(item, plan.steps, workspace);
      var approvalIds := ListApprovals(item, plan.steps, workspace);
      return PlanReply(plan.id, draftIds, approvalIds);
    }

    method ListDrafts(item: WorkItem, steps: seq<ActionStep>, workspace: string) returns (ids: seq<Id>)
      ensures ids == DraftIds(DraftsOf(ledger.drafts, workspace, item.id, steps))
    {
      hide FindStep;
      ids := [];
      var n := 0;
      while n < |ledger.drafts|
        invariant 0 <= n <= |ledger.drafts|
        invariant ids == DraftIds(DraftsOf(ledger.drafts[..n], workspace, item.id, steps))
      {
        var draft := ledger.drafts[n];
        var found := ledger.StepIndex(steps, draft.stepId);
        assert ledger.drafts[..n + 1][..n] == ledger.drafts[..n];
        ghost var earlier := DraftsOf(ledger.drafts[..n], workspace, item.id, steps);
        if draft.workspace == workspace && draft.itemId == item.id && found.Some? {
          ids := ids + [draft.id];
          assert (earlier + [draft])[..|earlier|] == earlier;
        } else {
          assert earlier + [] == earlier;
        }
        n := n + 1;
      }
      assert ledger.drafts[..n] == ledger.drafts;
    }

    method ListApprovals(item: WorkItem, steps: seq<ActionStep>, workspace: string) returns (ids: seq<Id>)
      ensures ids == ApprovalIds(ApprovalsOf(ledger.approvals, workspace, item.id, steps))
    {
      hide FindStep;
      ids := [];
      var n := 0;
      while n < |ledger.approvals|
        invariant 0 <= n <= |ledger.approvals|
        invariant ids == ApprovalIds(ApprovalsOf(ledger.approvals[..n], workspace, item.id, steps))
      {
        var approval := ledger.approvals[n];
        var found := ledger.StepIndex(steps, approval.stepId);
        assert ledger.approvals[..n + 1][..n] == ledger.approvals[..n];
        ghost var earlier := ApprovalsOf(ledger.approvals[..n], workspace, item.id, steps);
        if approval.workspace == workspace && approval.itemId == item.id && found.Some? {
          ids := ids + [approval.id];
          assert (earlier + [approval])[..|earlier|] == earlier;
        } else {
          assert earlier + [] == earlier;
        }
        n := n + 1;
      }
      assert ledger.approvals[..n] == ledger.approvals;
    }

    /** `_create_step_draft` and `_create_step_approval` for one step of a new plan. */
    method CreateStepRecords(item: WorkItem, step: ActionStep) returns (draftId: Option<Id>, approvalId: Option<Id>)
      requires ledger.Valid()
      modifies ledger`drafts, ledger`approvals, ledger`events, ledger`nextId
      ensures ledger.Valid()
      ensures ledger.nextId == old(ledger.nextId) + 2
      ensures ledger.drafts == old(ledger.drafts)
                               + if NeedsDraft(step) then [DraftRow(item, step, old(ledger.nextId))] else []
      ensures draftId == if NeedsDraft(step) then Some(old(ledger.nextId)) else None
      ensures ledger.approvals == old(ledger.approvals)
                                  + if step.requiresApproval then [ApprovalRow(item, step, old(ledger.nextId) + 1)]
                                      else []
      ensures approvalId == if step.requiresApproval then Some(old(ledger.nextId) + 1) else None
      ensures ledger.events == old(ledger.events)
                               + (if NeedsDraft(step) then FanOut(ledger.config, item, DraftCreated) else [])
                               + (if step.requiresApproval then FanOut(ledger.config, item, ApprovalRequested) else [])
    {
      hide Keyed, FanOut;
      var firstId := ledger.NewId();
      var secondId := ledger.NewId();
      draftId, approvalId := None, None;
      if NeedsDraft(step) {
        ledger.AddDraft(DraftRow(item, step, firstId));
        ledger.RecordEvent(item, DraftCreated);
        draftId := Some(firstId);
      }
      if step.requiresApproval {
        ledger.AddApproval(ApprovalRow(item, step, secondId));
        ledger.RecordEvent(item, ApprovalRequested);
        approvalId := Some(secondId);
      }
    }

    /** `_generate_plan`: plan, then save the plan and the item. */
    method GeneratePlan(item: WorkItem, ctx: SecurityContext, inputs: PlanningInput, classified: WorkType,
                        key: Option<string>) returns (planned: WorkItem, plan: TaskPlan)
      requires ledger.Valid() && item.id in ledger.items
      modifies ledger`plans, ledger`planOrder, ledger`items, ledger`itemOrder, ledger`runs, ledger`events, ledger`nextId
      ensures ledger.Valid()
      ensures plan == TaskPlan(old(ledger.nextId), item.workspace, item.id,
                               Planner.Steps(item, ctx, inputs, classified, old(ledger.nextId) + 1, ledger.clock),
                               Planner.Escalates(item, inputs, classified), key,
                               if key.Some? then Some(PlanningFingerprint(inputs, ctx.role, ctx.isAdmin)) else None)
      ensures planned == item.(workType := Some(Planner.WorkTypeFor(item, classified)), currentPlan := Some(plan.id),
                               status := ItemPlanning, updatedAt := ledger.clock)
      ensures ledger.plans == old(ledger.plans)[plan.id := plan]
      ensures ledger.planOrder == old(ledger.planOrder) + [plan.id]
      ensures ledger.items == old(ledger.items)[item.id := planned] && ledger.itemOrder == old(ledger.itemOrder)
      ensures ledger.runs == old(ledger.runs) + if ledger.config.recordsRuns then [PlanRun(item.id, plan.id)] else []
      ensures ledger.events == old(ledger.events) + FanOut(ledger.config, item, PlanGenerated)
      ensures ledger.nextId == plan.id + 1 + |plan.steps|
    {
      hide Planner.Steps, Planner.Escalates, Planner.WorkTypeFor, FanOut, Keyed;
      var planId := ledger.NewId();
      planned, plan := Planner.Plan(item, ctx, inputs, classified, planId, planId + 1, ledger.clock);
      ledger.NewIds(|plan.steps|);
      if ledger.config.recordsRuns {
        ledger.AddRun(PlanRun(item.id, planId));
      }
      plan := plan.(idempotencyKey := key,
                    fingerprint := if key.Some? then Some(PlanningFingerprint(inputs, ctx.role, ctx.isAdmin))
                        else None);
      SavePlanned(planned, plan);
      SameFanOut(ledger.config, item, planned, PlanGenerated);
    }

    method SavePlanned(planned: WorkItem, plan: TaskPlan)
      requires ledger.Valid() && planned.id in ledger.items
      requires plan.id !in ledger.plans && plan.id < ledger.nextId
      modifies ledger`plans, ledger`planOrder, ledger`items, ledger`itemOrder, ledger`events
      ensures ledger.Valid()
      ensures ledger.plans == old(ledger.plans)[plan.id := plan]
      ensures ledger.planOrder == old(ledger.planOrder) + [plan.id]
      ensures ledger.items == old(ledger.items)[planned.id := planned] && ledger.itemOrder == old(ledger.itemOrder)
      ensures ledger.events == old(ledger.events) + FanOut(ledger.config, planned, PlanGenerated)
    {
      hide FanOut;
      ledger.SavePlan(plan);
      ledger.SaveWorkItem(planned);
      ledger.RecordEvent(planned, PlanGenerated);
    }

    method PlanWorkItem(itemId: Id, ctx: SecurityContext, inputs: PlanningInput, classified: WorkType,
                        rawKey: Option<string>) returns (r: Result<PlanReply>)
      requires ledger.Valid()
      modifies ledger
      ensures ledger.Valid()
      ensures (ledger.View(), r) == PlanItem(old(ledger.View()), itemId, ctx, inputs, classified, rawKey)
      ensures Leads(old(ledger.View()), ledger.View())
    {
      hide AddPlan, PlanResultFor, Leads;
      PlanningLeads(ledger.View(), itemId, ctx, inputs, classified, rawKey);
      var key := NormalizedKey(rawKey);
      if key.Raised? {
        return Raised(key.error);
      }
      var loaded := ledger.WorkItemFor(itemId, ctx);
      if loaded.Raised? {
        return Raised(loaded.error);
      }
      var item := loaded.value;
      var existing: Option<Id> := None;
      if key.value.Some? {
        existing := PlanByKey(ctx.workspace, item.id, key.value.value);
      }
      if existing.Some? {
        var plan := ledger.plans[existing.value];
        if plan.fingerprint != Some(PlanningFingerprint(inputs, ctx.role, ctx.isAdmin)) {
          return Raised(WorkflowError(KeyBoundToOtherRequest));
        }
        var reply := PlanResult(item, plan, ctx.workspace);
        return Ok(reply);
      }
      if item.ExecutionPending() {
        return Raised(WorkflowError(ExecutionPending));
      }
      var reply := StoreNewPlan(item, ctx, inputs, classified, key.value);
      return Ok(reply);
    }

    /** What `plan_work_item` does once nothing stands in the way of a new plan. */
    method StoreNewPlan(item: WorkItem, ctx: SecurityContext, inputs: PlanningInput, classified: WorkType,
                        key: Option<string>) returns (reply: PlanReply)
      requires ledger.Valid() && item.id in ledger.items
      modifies ledger
      ensures ledger.Valid()
      ensures (ledger.View(), reply) == AddPlan(old(ledger.View()), item, ctx, inputs, classified, key)
    {
      hide Planner.Steps, Planner.Escalates, Planner.WorkTypeFor, DraftRows, ApprovalRows, StepEvents, DraftIds,
           ApprovalIds, FanOut, Keyed;
      ghost var s := ledger.View();
      var planned, plan := GeneratePlan(item, ctx, inputs, classified, key);
      var draftIds, approvalIds := CreateRecords(item, plan.steps);
      RecordEscalation(item, planned, plan);
      reply := PlanReply(plan.id, draftIds, approvalIds);
      ghost var stored := AddPlan(s, item, ctx, inputs, classified, key).0;
      assert ledger.items == stored.items;
      assert ledger.events == stored.events;
      assert ledger.View() == stored;
    }

    /** `_record_escalation` */
    method RecordEscalation(item: WorkItem, planned: WorkItem, plan: TaskPlan)
      requires ledger.Valid() && planned.id in ledger.items
      requires planned.id == item.id && planned.linkedDocuments == item.linkedDocuments
      modifies ledger`items, ledger`itemOrder, ledger`events
      ensures ledger.Valid() && ledger.itemOrder == old(ledger.itemOrder)
      ensures ledger.items == if plan.escalated then old(ledger.items)[item.id := planned.(status := ItemAwaitingHuman)]
                              else old(ledger.items)
      ensures ledger.events == old(ledger.events)
                               + if plan.escalated then FanOut(ledger.config, item, WorkflowEscalated) else []
    {
      hide FanOut;
      if plan.escalated {
        var waiting := planned.(status := ItemAwaitingHuman);
        ledger.SaveWorkItem(waiting);
        ledger.RecordEvent(waiting, WorkflowEscalated);
        SameFanOut(ledger.config, item, waiting, WorkflowEscalated);
      }
    }

    /** The loop of `plan_work_item` over the steps of the new plan. */
    method CreateRecords(item: WorkItem, steps: seq<ActionStep>) returns (draftIds: seq<Id>, approvalIds: seq<Id>)
      requires ledger.Valid()
      modifies ledger`drafts, ledger`approvals, ledger`events, ledger`nextId
      ensures ledger.Valid()
      ensures ledger.nextId == old(ledger.nextId) + 2 * |steps|
      ensures ledger.drafts == old(ledger.drafts) + DraftRows(item, steps, old(ledger.nextId))
      ensures ledger.approvals == old(ledger.approvals) + ApprovalRows(item, steps, old(ledger.nextId))
      ensures ledger.events == old(ledger.events) + StepEvents(ledger.config, item, steps)
      ensures draftIds == DraftIds(DraftRows(item, steps, old(ledger.nextId)))
      ensures approvalIds == ApprovalIds(ApprovalRows(item, steps, old(ledger.nextId)))
    {
      hide DraftRows, ApprovalRows, StepEvents, DraftIds, ApprovalIds, FanOut, NeedsDraft;
      ghost var base := ledger.nextId;
      draftIds, approvalIds := [], [];
      NoRows(ledger.config, item, steps, base);
      var n := 0;
      while n < |steps|
        invariant 0 <= n <= |steps|
        invariant ledger.Valid() && ledger.nextId == base + 2 * n
        invariant ledger.drafts == old(ledger.drafts) + DraftRows(item, steps[..n], base)
        invariant ledger.approvals == old(ledger.approvals) + ApprovalRows(item, steps[..n], base)
        invariant ledger.events == old(ledger.events) + StepEvents(ledger.config, item, steps[..n])
        invariant draftIds == DraftIds(DraftRows(item, steps[..n], base))
        invariant approvalIds == ApprovalIds(ApprovalRows(item, steps[..n], base))
      {
        var draftId, approvalId := CreateStepRecords(item, steps[n]);
        NextRows(item, steps, n, base);
        NextEvents(ledger.config, item, steps, n);
        if draftId.Some? {
          draftIds := draftIds + [draftId.value];
        }
        if approvalId.Some? {
          approvalIds := approvalIds + [approvalId.value];
        }
        n := n + 1;
      }
      assert steps[..n] == steps;
    }

    method ApproveRequest(approvalId: Id, ctx: SecurityContext, notes: Option<string>) returns (r: Result<Approval>)
      requires ledger.Valid()
      modifies ledger
      ensures ledger.Valid()
      ensures (ledger.View(), r) == Approve(old(ledger.View()), approvalId, ctx, notes)
      ensures Leads(old(ledger.View()), ledger.View())
    {
      hide Leads;
      ApprovingLeads(ledger.View(), approvalId, ctx, notes);
      r := DecideRequest(approvalId, ctx, notes, true);
    }

    method RejectRequest(approvalId: Id, ctx: SecurityContext, notes: Option<string>) returns (r: Result<Approval>)
      requires ledger.Valid()
      modifies ledger
      ensures ledger.Valid()
      ensures (ledger.View(), r) == Reject(old(ledger.View()), approvalId, ctx, notes)
      ensures Leads(old(ledger.View()), ledger.View())
    {
      hide Leads;
      RejectingLeads(ledger.View(), approvalId, ctx, notes);
      r := DecideRequest(approvalId, ctx, notes, false);
    }

    method RegenerateDraft(itemId: Id, draftId: Id, ctx: SecurityContext) returns (r: Result<Id>)
      requires ledger.Valid()
      modifies ledger
      ensures ledger.Valid()
      ensures (ledger.View(), r) == Protocol.RegenerateDraft(old(ledger.View()), itemId, draftId, ctx)
      ensures Leads(old(ledger.View()), ledger.View())
    {
      hide FanOut, Leads;
      RegeneratingLeads(ledger.View(), itemId, draftId, ctx);
      var loaded := ledger.WorkItemFor(itemId, ctx);
      if loaded.Raised? {
        return Raised(loaded.error);
      }
      var found := FindDraft(ledger.drafts, draftId);
      if found.None? {
        return Raised(NotFound);
      }
      var previous := ledger.drafts[found.value];
      if previous.workspace != ctx.workspace || previous.itemId != loaded.value.id {
        return Raised(NotFound);
      }
      var id := ledger.NewId();
      ledger.AddDraft(ActionDraft(id, loaded.value.workspace, loaded.value.id, previous.stepId, previous.draftType));
      ledger.RecordEvent(loaded.value, DraftRegenerated);
      return Ok(id);
    }

    /** The common shape of `approve_request` and `reject_request`. */
    method DecideRequest(approvalId: Id, ctx: SecurityContext, notes: Option<string>, grant: bool)
      returns (r: Result<Approval>)
      requires ledger.Valid()
      modifies ledger
      ensures ledger.Valid()
      ensures (ledger.View(), r) == if grant then Approve(old(ledger.View()), approvalId, ctx, notes)
                                    else Reject(old(ledger.View()), approvalId, ctx, notes)
    {
      var found := FindApproval(ledger.approvals, approvalId);
      if found.None? {
        return Raised(NotFound);
      }
      var approval := ledger.approvals[found.value];
      if approval.workspace != ctx.workspace {
        return Raised(NotFound);
      }
      var already := approval.status == if grant then Approved else Rejected;
      var decided := if grant then approval.Approve(ctx.actor, notes, ledger.clock)
                     else approval.Reject(ctx.actor, notes, ledger.clock);
      if decided.Raised? {
        return Raised(decided.error);
      }
      if already {
        ledger.approvals := ledger.approvals[found.value := decided.value];
        return decided;
      }
      var loaded := ledger.WorkItemFor(decided.value.itemId, ctx);
      if loaded.Raised? {
        return Raised(loaded.error);
      }
      ledger.approvals := ledger.approvals[found.value := decided.value];
      ledger.RecordEvent(loaded.value, if grant then ApprovalApproved else ApprovalRejected);
      return decided;
    }
  }

  class WorkItemService {
    const ledger: Ledger

    constructor (ledger: Ledger)
      ensures this.ledger == ledger
    {
      this.ledger := ledger;
    }

    /** `get_by_idempotency_key` of the work items */
    method ItemByKey(workspace: string, key: string) returns (r: Option<Id>)
      requires ledger.Valid()
      ensures r == FindItemByKey(ledger.items, ledger.itemOrder, workspace, key)
    {
      var order := ledger.itemOrder;
      var n := 0;
      while n < |order|
        invariant 0 <= n <= |order|
        invariant FindItemByKey(ledger.items, order[..n], workspace, key).None?
      {
        assert order[..n + 1][..n] == order[..n];
        if KeyedItem(ledger.items[order[n]], workspace, key) {
          ItemFoundEarly(ledger.items, order, n, workspace, key);
          return Some(order[n]);
        }
        n := n + 1;
      }
      assert order[..n] == order;
      return None;
    }

    method CreateWorkItem(ctx: SecurityContext, title: string, workType: Option<WorkType>, documents: seq<Id>,
                          context: map<ContextKey, ContextValue>, rawKey: Option<string>) returns (r: Result<Id>)
      requires ledger.Valid()
      modifies ledger
      ensures ledger.Valid()
      ensures (ledger.View(), r) == CreateItem(old(ledger.View()), ctx, title, workType, documents, context, rawKey)
      ensures FromRoute(context) ==> Leads(old(ledger.View()), ledger.View())
    {
      hide Keyed, StoreItem, FindItemByKey, KeyedItem, Leads;
      CreatingByRouteLeads(ledger.View(), ctx, title, workType, documents, context, rawKey);
      var key := NormalizedKey(rawKey);
      if key.Raised? {
        return Raised(key.error);
      }
      var fingerprint := WorkItemFingerprint(title, workType, documents, context);
      if key.value.Some? {
        var existing := ItemByKey(ctx.workspace, key.value.value);
        if existing.Some? {
          if ledger.items[existing.value].fingerprint != Some(fingerprint) {
            return Raised(WorkflowError(KeyBoundToOtherRequest));
          }
          return Ok(existing.value);
        }
      }
      var id := StoreNewItem(ctx, title, workType, documents, context, key.value, fingerprint);
      return Ok(id);
    }

    /** What `create_work_item` does when no item has the key. */
    method StoreNewItem(ctx: SecurityContext, title: string, workType: Option<WorkType>, documents: seq<Id>,
                        context: map<ContextKey, ContextValue>, key: Option<string>, fingerprint: Fingerprint)
      returns (id: Id)
      requires ledger.Valid()
      modifies ledger
      ensures ledger.Valid()
      ensures id == old(ledger.nextId)
      ensures ledger.View() == StoreItem(old(ledger.View()), ctx, title, workType, documents, context, key, fingerprint)
    {
      hide Keyed, FanOut;
      id := ledger.NewId();
      var item := WorkItem(id, ctx.workspace, title, workType, Normal, ItemNew, documents, context, None, key,
                           if key.Some? then Some(fingerprint) else None, ledger.clock);
      if workType.Some? {
        item := item.Classify(workType.value, ledger.clock);
      }
      ledger.SaveWorkItem(item);
      ledger.RecordEvent(item, WorkItemCreated);
    }

    /** Writes a changed copy of a stored item back and records why. */
    method SaveChanged(item: WorkItem, kind: EventKind)
      requires ledger.Valid() && item.id in ledger.items
      modifies ledger
      ensures ledger.Valid()
      ensures ledger.View() == Recorded(SaveItem(old(ledger.View()), item), item, kind)
    {
      hide FanOut;
      ledger.SaveWorkItem(item);
      ledger.RecordEvent(item, kind);
    }

    method UpdateWorkItem(itemId: Id, ctx: SecurityContext, title: Option<string>, priority: Option<WorkItemPriority>,
                          assignee: Option<string>, requestedOutcome: Option<string>, tags: Option<seq<string>>)
      returns (r: Result<Id>)
      requires ledger.Valid()
      modifies ledger
      ensures ledger.Valid()
      ensures (ledger.View(), r)
                == UpdateItem(old(ledger.View()), itemId, ctx, title, priority, assignee, requestedOutcome, tags)
      ensures Leads(old(ledger.View()), ledger.View())
    {
      hide Recorded, EditedItem, Leads;
      UpdatingLeads(ledger.View(), itemId, ctx, title, priority, assignee, requestedOutcome, tags);
      var loaded := ledger.WorkItemFor(itemId, ctx);
      if loaded.Raised? {
        return Raised(loaded.error);
      }
      var item := Edit(loaded.value, title, priority, assignee, requestedOutcome, tags);
      SaveChanged(item, WorkItemUpdated);
      return Ok(itemId);
    }

    /** Strips the tags, drops blank ones, and keeps the first of equal ones. */
    method DistinctTags(tags: seq<string>) returns (kept: seq<string>)
      ensures kept == TagList(tags)
    {
      kept := [];
      for n := 0 to |tags|
        invariant kept == TagList(tags[..n])
      {
        assert tags[..n + 1][..n] == tags[..n];
        var tag := Strip(tags[n]);
        if tag != "" && tag !in kept {
          kept := kept + [tag];
        }
      }
      assert tags[..|tags|] == tags;
    }

    /** The assignments of `update_work_item`. */
    method Edit(loaded: WorkItem, title: Option<string>, priority: Option<WorkItemPriority>, assignee: Option<string>,
                requestedOutcome: Option<string>, tags: Option<seq<string>>) returns (item: WorkItem)
      ensures item == EditedItem(loaded, title, priority, assignee, requestedOutcome, tags, ledger.clock)
      ensures item.id == loaded.id
    {
      hide Strip;
      item := loaded;
      if title.Some? && Strip(title.value) != [] {
        item := item.(title := Strip(title.value));
      }
      if priority.Some? {
        item := item.(priority := priority.value);
      }
      if assignee.Some? {
        item := item.(context := item.context[Assignee := Text(Strip(assignee.value))]);
      }
      if requestedOutcome.Some? {
        item := item.(context := item.context[RequestedOutcome := Text(Strip(requestedOutcome.value))]);
      }
      if tags.Some? {
        var kept := DistinctTags(tags.value);
        item := item.(context := item.context[Tags := Text(Joined(kept))]);
      }
      item := item.(updatedAt := ledger.clock);
    }

    method RequestCorrection(itemId: Id, ctx: SecurityContext, notes: string) returns (r: Result<Id>)
      requires ledger.Valid()
      modifies ledger
      ensures ledger.Valid()
      ensures (ledger.View(), r) == Protocol.RequestCorrection(old(ledger.View()), itemId, ctx, notes)
      ensures Leads(old(ledger.View()), ledger.View())
    {
      hide Recorded, Strip, Leads;
      AskingLeads(ledger.View(), itemId, ctx, notes);
      var loaded := ledger.WorkItemFor(itemId, ctx);
      if loaded.Raised? {
        return Raised(loaded.error);
      }
      var item, now := loaded.value, ledger.clock;
      item := item.AttachContext(CorrectionState, Text("requested"), now);
      item := item.AttachContext(CorrectionReason, Text(Strip(notes)), now);
      item := item.AttachContext(CorrectionRequestedBy, Text(ctx.actor), now);
      item := item.AttachContext(CorrectionRequestedAt, InstantText(now), now);
      item := item.(status := ItemAwaitingHuman);
      SaveChanged(item, CorrectionRequested);
      return Ok(itemId);
    }

    method SubmitCorrection(itemId: Id, ctx: SecurityContext, changes: string) returns (r: Result<Id>)
      requires ledger.Valid()
      modifies ledger
      ensures ledger.Valid()
      ensures (ledger.View(), r) == Protocol.SubmitCorrection(old(ledger.View()), itemId, ctx, changes)
      ensures Leads(old(ledger.View()), ledger.View())
    {
      hide Recorded, Leads;
      SubmittingLeads(ledger.View(), itemId, ctx, changes);
      var loaded := ledger.WorkItemFor(itemId, ctx);
      if loaded.Raised? {
        return Raised(loaded.error);
      }
      var item, now := loaded.value, ledger.clock;
      if item.Get(CorrectionState) != Some(Text("requested")) {
        return Ok(itemId);
      }
      item := item.AttachContext(CorrectionState, Text("submitted"), now);
      item := item.AttachContext(CorrectionSubmittedBy, Text(ctx.actor), now);
      item := item.AttachContext(CorrectionChangeCount, Text(changes), now);
      item := item.(status := ItemAwaitingHuman);
      SaveChanged(item, CorrectionSubmitted);
      return Ok(itemId);
    }

    method EscalateWorkItem(itemId: Id, ctx: SecurityContext) returns (r: Result<Id>)
      requires ledger.Valid()
      modifies ledger
      ensures ledger.Valid()
      ensures (ledger.View(), r) == Escalate(old(ledger.View()), itemId, ctx)
      ensures Leads(old(ledger.View()), ledger.View())
    {
      hide Recorded, Leads;
      EscalatingLeads(ledger.View(), itemId, ctx);
      var loaded := ledger.WorkItemFor(itemId, ctx);
      if loaded.Raised? {
        return Raised(loaded.error);
      }
      var item := loaded.value;
      if item.Get(CorrectionState) == Some(Text("requested")) {
        item := item.AttachContext(CorrectionState, Text("escalated"), ledger.clock);
      }
      item := item.(status := ItemAwaitingHuman);
      SaveChanged(item, WorkflowEscalated);
      return Ok(itemId);
    }
  }

  lemma {:induction false} SameFanOut(config: Config, a: WorkItem, b: WorkItem, kind: EventKind)
    requires a.id == b.id && a.linkedDocuments == b.linkedDocuments
    ensures FanOut(config, a, kind) == FanOut(config, b, kind)
  {
  }

  lemma {:induction false} KeyFoundEarly(plans: map<Id, TaskPlan>, order: seq<Id>, n: nat, workspace: string,
                                         itemId: Id, key: string)
    requires n < |order| && order[n] in plans && KeyedPlan(plans[order[n]], workspace, itemId, key)
    requires FindPlanByKey(plans, order[..n], workspace, itemId, key).None?
    ensures FindPlanByKey(plans, order, workspace, itemId, key) == Some(order[n])
  {
    if n + 1 < |order| {
      KeyFoundEarly(plans, order[..|order| - 1], n, workspace, itemId, key);
      assert order[..|order| - 1][..n] == order[..n];
    }
  }

  lemma {:induction false} ItemFoundEarly(items: map<Id, WorkItem>, order: seq<Id>, n: nat, workspace: string,
                                          key: string)
    requires n < |order| && order[n] in items && KeyedItem(items[order[n]], workspace, key)
    requires FindItemByKey(items, order[..n], workspace, key).None?
    ensures FindItemByKey(items, order, workspace, key) == Some(order[n])
  {
    if n + 1 < |order| {
      ItemFoundEarly(items, order[..|order| - 1], n, workspace, key);
      assert order[..|order| - 1][..n] == order[..n];
    }
  }

  lemma {:induction false} NoRows(config: Config, item: WorkItem, steps: seq<ActionStep>, base: Id)
    ensures DraftRows(item, steps[..0], base) == [] && ApprovalRows(item, steps[..0], base) == []
    ensures StepEvents(config, item, steps[..0]) == []
    ensures DraftIds([]) == [] && ApprovalIds([]) == []
  {
  }

  lemma {:induction false} NextEvents(config: Config, item: WorkItem, steps: seq<ActionStep>, n: nat)
    requires n < |steps|
    ensures StepEvents(config, item, steps[..n + 1])
            == StepEvents(config, item, steps[..n])
               + (if NeedsDraft(steps[n]) then FanOut(config, item, DraftCreated) else [])
               + (if steps[n].requiresApproval then FanOut(config, item, ApprovalRequested) else [])
  {
    assert steps[..n + 1][..n] == steps[..n];
  }

  /** How the rows of the first `n + 1` steps extend the rows of the first `n`. */
  lemma {:induction false} NextRows(item: WorkItem, steps: seq<ActionStep>, n: nat, base: Id)
    requires n < |steps|
    ensures DraftRows(item, steps[..n + 1], base)
            == DraftRows(item, steps[..n], base)
               + if NeedsDraft(steps[n]) then [DraftRow(item, steps[n], base + 2 * n)] else []
    ensures ApprovalRows(item, steps[..n + 1], base)
            == ApprovalRows(item, steps[..n], base)
               + if steps[n].requiresApproval then [ApprovalRow(item, steps[n], base + 2 * n + 1)] else []
    ensures DraftIds(DraftRows(item, steps[..n + 1], base))
            == DraftIds(DraftRows(item, steps[..n], base)) + if NeedsDraft(steps[n]) then [base + 2 * n] else []
    ensures ApprovalIds(ApprovalRows(item, steps[..n + 1], base))
            == ApprovalIds(ApprovalRows(item, steps[..n], base))
               + if steps[n].requiresApproval then [base + 2 * n + 1] else []
  {
    assert steps[..n + 1][..n] == steps[..n];
    var drafts, approvals := DraftRows(item, steps[..n], base), ApprovalRows(item, steps[..n], base);
    if NeedsDraft(steps[n]) {
      var row := DraftRow(item, steps[n], base + 2 * n);
      assert (drafts + [row])[..|drafts|] == drafts;
    } else {
      assert drafts + [] == drafts;
    }
    if steps[n].requiresApproval {
      var row := ApprovalRow(item, steps[n], base + 2 * n + 1);
      assert (approvals + [row])[..|approvals|] == approvals;
    } else {
      assert approvals + [] == approvals;
    }
  }
}
