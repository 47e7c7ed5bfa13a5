/** The deterministic planner: which steps a plan has, and how policy decides the state
    each step starts in (planner.py). */
module Planner {
  import opened Basics
  import opened Models
  import opened Policy

  /** A step as its rule describes it, before policy is asked. */
  function BaseStep(id: Id, action: ActionType, now: Time): ActionStep {
    ActionStep(id, action, Rule(action).risk, Rule(action).requiresConfirmation, Planned, now)
  }

  /** A step in the state that policy gives it. Needing confirmation is asked first, so
      a tool step refused for the caller's role still waits for approval. */
  function PolicyStep(item: WorkItem, id: Id, action: ActionType, ctx: SecurityContext,
                      evidenceSufficient: bool, now: Time): ActionStep
  {
    var decision := Decide(item.workspace, action, ctx, None, evidenceSufficient, false);
    var step := BaseStep(id, action, now);
    if decision.requiresConfirmation then step.(requiresApproval := true, status := WaitingForApproval)
    else if !decision.allowed then step.(risk := decision.risk, status := Blocked)
    else step.(risk := decision.risk)
  }

  function WorkTypeFor(item: WorkItem, classified: WorkType): WorkType {
    if item.workType.Some? then item.workType.value else classified
  }

  predicate Escalates(item: WorkItem, inputs: PlanningInput, classified: WorkType) {
    var workType := WorkTypeFor(item, classified);
    || workType == InsufficientEvidence
    || !inputs.evidenceSufficient
    || workType == ExceptionHandling
    || (workType == InvoiceExport && !inputs.approvedForExport)
  }

  /** The steps of a plan, numbered from `first` on. */
  function Steps(item: WorkItem, ctx: SecurityContext, inputs: PlanningInput, classified: WorkType,
                 first: Id, now: Time): seq<ActionStep>
  {
    var workType := WorkTypeFor(item, classified);
    var explain := PolicyStep(item, first, ExplainDocument, ctx, item.linkedDocuments != [], now);
    var next := if item.linkedDocuments != [] then first + 1 else first;
    if workType == InsufficientEvidence || !inputs.evidenceSufficient then
      [PolicyStep(item, first, EscalateToHuman, ctx, true, now)]
    else
      match workType
      case InvoiceReview =>
        [explain, PolicyStep(item, first + 1, RecommendReview, ctx, inputs.evidenceSufficient, now)]
      case InvoiceExport =>
        [PolicyStep(item, first, InspectQueue, ctx, true, now),
         if inputs.approvedForExport then PolicyStep(item, first + 1, ExportApprovedInvoice, ctx, true, now)
         else BaseStep(first + 1, ExportApprovedInvoice, now).(status := Blocked)]
      case AccountingNote =>
        (if item.linkedDocuments != [] then [explain] else [])
        + [PolicyStep(item, next, DraftAccountingNote, ctx, inputs.evidenceSufficient, now)]
      case VendorFollowUp =>
        (if item.linkedDocuments != [] then [explain] else [])
        + [PolicyStep(item, next, DraftVendorMessage, ctx, true, now)]
      case _ => [PolicyStep(item, first, EscalateToHuman, ctx, true, now)]
  }

  /** A status that only a reservation leads to. */
  predicate Started(status: ActionStepStatus) {
    status == Executing || status == Executed || status == Failed
  }

  /** What the execution protocol needs of a plan: at most one step has a tool, a step
      with a tool needs approval, and no other step is ever started. */
  ghost predicate Bounded(steps: seq<ActionStep>) {
    && (forall k :: 0 <= k < |steps| && IsToolAction(steps[k].action) ==> steps[k].requiresApproval)
    && (forall k :: 0 <= k < |steps| && Started(steps[k].status) ==> IsToolAction(steps[k].action))
    && (forall j, k ::
          0 <= j < |steps| && 0 <= k < |steps| && IsToolAction(steps[j].action) && IsToolAction(steps[k].action)
          ==> j == k)
  }

  /** A step needs approval exactly if it has a tool, then it waits; no step has been started. */
  lemma {:induction false} PolicyStepFacts(item: WorkItem, id: Id, action: ActionType, ctx: SecurityContext,
                                           evidenceSufficient: bool, now: Time)
    ensures var step := PolicyStep(item, id, action, ctx, evidenceSufficient, now);
            && step.id == id && step.action == action && !Started(step.status)
            && (step.requiresApproval <==> IsToolAction(action))
            && (IsToolAction(action) ==> step.status == WaitingForApproval)
  {
  }

  /** Every plan is bounded, starts with nothing executed, and numbers its steps in turn;
      the tool step it may have waits for approval, or is blocked when the invoice is not
      approved for export. */
  lemma {:induction false} PlansAreBounded(item: WorkItem, ctx: SecurityContext, inputs: PlanningInput,
                                           classified: WorkType, first: Id, now: Time)
    ensures var steps := Steps(item, ctx, inputs, classified, first, now);
            && 1 <= |steps| <= 2
            && Bounded(steps)
            && (forall k :: 0 <= k < |steps| ==> steps[k].id == first + k && !Started(steps[k].status))
            && (forall k :: 0 <= k < |steps| ==> (steps[k].requiresApproval <==> IsToolAction(steps[k].action)))
            && (forall k :: 0 <= k < |steps| && IsToolAction(steps[k].action) ==>
                  && steps[k].action == ExportApprovedInvoice
                  && WorkTypeFor(item, classified) == InvoiceExport
                  && inputs.evidenceSufficient
                  && steps[k].status == if inputs.approvedForExport then WaitingForApproval else Blocked)
  {
    hide PolicyStep;
    forall id: Id, action: ActionType, evidence: bool {:trigger PolicyStep(item, id, action, ctx, evidence, now)}
      ensures var step := PolicyStep(item, id, action, ctx, evidence, now);
              && step.id == id && step.action == action && !Started(step.status)
              && (step.requiresApproval <==> IsToolAction(action))
              && (IsToolAction(action) ==> step.status == WaitingForApproval)
    {
      PolicyStepFacts(item, id, action, ctx, evidence, now);
    }
  }

  /** The planner as the program runs it: it looks at the work type, then adds one step
      at a time to a plan that starts empty. */
  method Plan(item: WorkItem, ctx: SecurityContext, inputs: PlanningInput, classified: WorkType,
              planId: Id, first: Id, now: Time)
    returns (planned: WorkItem, plan: TaskPlan)
    ensures plan == TaskPlan(planId, item.workspace, item.id, Steps(item, ctx, inputs, classified, first, now),
                             Escalates(item, inputs, classified), None, None)
    ensures planned == item.(workType := Some(WorkTypeFor(item, classified)), currentPlan := Some(planId),
                             status := ItemPlanning, updatedAt := now)
  {
    hide PolicyStep, Rule;
    planned := item;
    var workType := WorkTypeFor(item, classified);
    if planned.workType.None? {
      planned := planned.Classify(workType, now);
    }
    plan := TaskPlan(planId, item.workspace, item.id, [], false, None, None);
    if workType == InsufficientEvidence || !inputs.evidenceSufficient {
      plan := plan.(escalated := true);
      plan := AddStep(plan, PolicyStep(item, first, EscalateToHuman, ctx, true, now));
    } else {
      match workType {
        case InvoiceReview =>
          plan := AddStep(plan, PolicyStep(item, first, ExplainDocument, ctx, item.linkedDocuments != [], now));
          plan := AddStep(plan, PolicyStep(item, first + 1, RecommendReview, ctx, inputs.evidenceSufficient, now));
        case InvoiceExport =>
          plan := AddStep(plan, PolicyStep(item, first, InspectQueue, ctx, true, now));
          if !inputs.approvedForExport {
            plan := plan.(escalated := true);
            var step := BaseStep(first + 1, ExportApprovedInvoice, now);
            step := step.(status := Blocked);
            plan := AddStep(plan, step);
          } else {
            plan := AddStep(plan, PolicyStep(item, first + 1, ExportApprovedInvoice, ctx, true, now));
          }
        case AccountingNote =>
          if item.linkedDocuments != [] {
            plan := AddStep(plan, PolicyStep(item, first, ExplainDocument, ctx, true, now));
          }
          plan := AddStep(plan, PolicyStep(item, first + |plan.steps|, DraftAccountingNote, ctx,
                                           inputs.evidenceSufficient, now));
        case VendorFollowUp =>
          if item.linkedDocuments != [] {
            plan := AddStep(plan, PolicyStep(item, first, ExplainDocument, ctx, true, now));
          }
          plan := AddStep(plan, PolicyStep(item, first + |plan.steps|, DraftVendorMessage, ctx, true, now));
        case _ =>
          plan := plan.(escalated := true);
          plan := AddStep(plan, PolicyStep(item, first, EscalateToHuman, ctx, true, now));
      }
    }
    planned := planned.SetCurrentPlan(planId, now);
  }

  function AddStep(plan: TaskPlan, step: ActionStep): TaskPlan {
    plan.(steps := plan.steps + [step])
  }
}
