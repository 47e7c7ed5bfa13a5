/** What planning asks for: which actions a plan has, which of them may go ahead, and which
    drafts and approvals come with it. */
module PlannedWork {
  import opened Basics
  import opened Models
  import opened Protocol
  import opened Invariant
  import opened Runs
  import opened PlanningGuarantees
  import Planner
  import Policy
  import Creation
  import RequestIdentity

  function ActionsOf(steps: seq<ActionStep>): (r: seq<ActionType>)
    ensures |r| == |steps| && forall k :: 0 <= k < |r| ==> r[k] == steps[k].action
  {
    seq(|steps|, k requires 0 <= k < |steps| => steps[k].action)
  }

  /** The work type that decides: the item's own, or the one its text was classified as. */
  function DecidingType(item: WorkItem, classified: WorkType): WorkType {
    if item.workType.Some? then item.workType.value else classified
  }

  /** The request is for a human at once: the type says so, or evidence is missing. */
  predicate HumanOnly(item: WorkItem, inputs: PlanningInput, classified: WorkType) {
    var kind := DecidingType(item, classified);
    kind == InsufficientEvidence || kind == ExceptionHandling || !inputs.evidenceSufficient
  }

  /** The actions of a plan, by work type: a single escalation for what only a human can do; for
      a review an explanation and a recommendation; for an export an inspection of the queue and
      the export; for a note or a message the draft of it, after an explanation if and only if
      documents are linked. */
  lemma {:induction false} ActionsByWorkType(item: WorkItem, ctx: SecurityContext, inputs: PlanningInput,
                                             classified: WorkType, first: Id, now: Time)
    ensures var actions := ActionsOf(Planner.Steps(item, ctx, inputs, classified, first, now));
            var kind := DecidingType(item, classified);
            && (HumanOnly(item, inputs, classified) <==> actions == [EscalateToHuman])
            && (!HumanOnly(item, inputs, classified) ==>
                  && (kind == InvoiceReview <==> actions == [ExplainDocument, RecommendReview])
                  && (kind == InvoiceExport <==> actions == [InspectQueue, ExportApprovedInvoice])
                  && (kind == AccountingNote <==>
                        actions == if item.linkedDocuments == [] then [DraftAccountingNote]
                                   else [ExplainDocument, DraftAccountingNote])
                  && (kind == VendorFollowUp <==>
                        actions == if item.linkedDocuments == [] then [DraftVendorMessage]
                                   else [ExplainDocument, DraftVendorMessage]))
  {
    hide Planner.PolicyStep;
    forall id: Id, action: ActionType, evidence: bool
      {:trigger Planner.PolicyStep(item, id, action, ctx, evidence, now)}
      ensures Planner.PolicyStep(item, id, action, ctx, evidence, now).action == action
    {
      Planner.PolicyStepFacts(item, id, action, ctx, evidence, now);
    }
    var actions := ActionsOf(Planner.Steps(item, ctx, inputs, classified, first, now));
    if HumanOnly(item, inputs, classified) {
      assert actions == [EscalateToHuman];
    } else {
      match DecidingType(item, classified) {
        case InvoiceReview => assert actions == [ExplainDocument, RecommendReview];
        case InvoiceExport => assert actions == [InspectQueue, ExportApprovedInvoice];
        case AccountingNote =>
          assert actions == if item.linkedDocuments == [] then [DraftAccountingNote]
                            else [ExplainDocument, DraftAccountingNote];
        case VendorFollowUp =>
          assert actions == if item.linkedDocuments == [] then [DraftVendorMessage]
                            else [ExplainDocument, DraftVendorMessage];
      }
    }
  }

  /** The caller has a role that plans: operator, reviewer, or an admin with the admin flag. */
  predicate MayPlan(ctx: SecurityContext) {
    ctx.role == Operator || ctx.role == Reviewer || (ctx.role == Admin && ctx.isAdmin)
  }

  /** How risky an action is that the policy lets through. */
  function RiskByAction(action: ActionType): ActionRiskLevel {
    match action
    case InspectQueue => RiskLow
    case ExplainDocument => RiskLow
    case RecommendReview => RiskLow
    case ProcessDocument => RiskHigh
    case ExportApprovedInvoice => RiskHigh
    case BlockUnsafeRequest => RiskBlocked
    case _ => RiskMedium
  }

  /** A step without a tool is planned for a caller who may plan, and blocked for any other. */
  predicate PlainStepStarts(step: ActionStep, ctx: SecurityContext) {
    !step.requiresApproval
    && (if MayPlan(ctx) then step.status == Planned && step.risk == RiskByAction(step.action)
        else step.status == Blocked && step.risk == RiskBlocked)
  }

  /** How the steps of a plan start for a caller of the item's workspace. A step without a tool
      is blocked if and only if the caller may not plan, and is planned otherwise; the export is
      blocked if and only if the invoice is not approved, and waits for approval otherwise. */
  lemma {:induction false} StepsStart(item: WorkItem, ctx: SecurityContext, inputs: PlanningInput,
                                      classified: WorkType, first: Id, now: Time, k: nat)
    requires ctx.workspace == item.workspace
    requires k < |Planner.Steps(item, ctx, inputs, classified, first, now)|
    ensures var step := Planner.Steps(item, ctx, inputs, classified, first, now)[k];
            && step.updatedAt == now
            && (if step.action == ExportApprovedInvoice then
                  && step.requiresApproval && step.risk == RiskHigh
                  && step.status == (if inputs.approvedForExport then WaitingForApproval else Blocked)
                else
                  PlainStepStarts(step, ctx))
  {
    hide Planner.PolicyStep;
    forall id: Id, action: ActionType, evidence: bool
      {:trigger Planner.PolicyStep(item, id, action, ctx, evidence, now)}
      ensures PolicyStarts(item, id, action, ctx, evidence, now)
    {
      PolicyStepStarts(item, id, action, ctx, evidence, now);
    }
    EvidenceIsAskedOfReadersOnly(item, first, ctx, now);
  }

  predicate PolicyStarts(item: WorkItem, id: Id, action: ActionType, ctx: SecurityContext, evidence: bool, now: Time) {
    var step := Planner.PolicyStep(item, id, action, ctx, evidence, now);
    && step.action == action && step.updatedAt == now
    && (action == ExportApprovedInvoice ==>
          step.requiresApproval && step.status == WaitingForApproval && step.risk == RiskHigh)
    && (action != ExportApprovedInvoice && action != ProcessDocument && action != BlockUnsafeRequest && evidence ==>
          PlainStepStarts(step, ctx))
  }

  lemma {:induction false} PolicyStepStarts(item: WorkItem, id: Id, action: ActionType, ctx: SecurityContext,
                                            evidence: bool, now: Time)
    requires ctx.workspace == item.workspace
    ensures PolicyStarts(item, id, action, ctx, evidence, now)
  {
  }

  /** Explaining only reads, so it may be planned without evidence. */
  lemma {:induction false} EvidenceIsAskedOfReadersOnly(item: WorkItem, id: Id, ctx: SecurityContext, now: Time)
    requires ctx.workspace == item.workspace
    ensures var step := Planner.PolicyStep(item, id, ExplainDocument, ctx, false, now);
            step.action == ExplainDocument && PlainStepStarts(step, ctx) && step.updatedAt == now
  {
  }

  // ------------------------------------------------------------ what a new plan brings along

  lemma {:induction false} NoRows(item: WorkItem, step: ActionStep, base: Id)
    requires DraftTypeFor(step.action).None? && !step.requiresApproval
    ensures DraftRows(item, [step], base) == [] && ApprovalRows(item, [step], base) == []
  {
    assert [step][..0] == [];
    assert DraftRows(item, [], base) == [] && ApprovalRows(item, [], base) == [];
  }

  lemma {:induction false} LastRows(item: WorkItem, steps: seq<ActionStep>, base: Id)
    requires steps != []
    requires DraftRows(item, steps[..|steps| - 1], base) == [] && ApprovalRows(item, steps[..|steps| - 1], base) == []
    ensures var last := steps[|steps| - 1];
            && DraftRows(item, steps, base)
               == (if NeedsDraft(last) then [DraftRow(item, last, base + 2 * (|steps| - 1))] else [])
            && ApprovalRows(item, steps, base)
               == (if last.requiresApproval then [ApprovalRow(item, last, base + 2 * (|steps| - 1) + 1)] else [])
  {
    hide NeedsDraft, DraftRow, ApprovalRow;
  }

  /** The steps of a plan in which the last one alone may need a draft or an approval. */
  lemma {:induction false} RowsOfShortPlans(item: WorkItem, steps: seq<ActionStep>, base: Id)
    requires 1 <= |steps| <= 2
    requires |steps| == 2 ==> DraftTypeFor(steps[0].action).None? && !steps[0].requiresApproval
    ensures var last := steps[|steps| - 1];
            && DraftRows(item, steps, base)
               == (if NeedsDraft(last) then [DraftRow(item, last, base + 2 * (|steps| - 1))] else [])
            && ApprovalRows(item, steps, base)
               == (if last.requiresApproval then [ApprovalRow(item, last, base + 2 * (|steps| - 1) + 1)] else [])
  {
    hide NeedsDraft, DraftRow, ApprovalRow, DraftTypeFor;
    if |steps| == 1 {
      assert steps[..0] == [];
    } else {
      NoRows(item, steps[0], base);
      assert steps[..1] == [steps[0]];
    }
    LastRows(item, steps, base);
  }

  /** The draft that comes with a plan, if any. */
  function DraftsByWorkType(item: WorkItem, ctx: SecurityContext, inputs: PlanningInput, classified: WorkType)
    : seq<DraftType>
  {
    if HumanOnly(item, inputs, classified) then []
    else
      match DecidingType(item, classified)
      case AccountingNote => if MayPlan(ctx) then [AccountingNoteDraft] else []
      case VendorFollowUp => if MayPlan(ctx) then [VendorMessageDraft] else []
      case InvoiceExport => if inputs.approvedForExport then [ExportPreviewDraft] else []
      case _ => []
  }

  function DraftTypes(drafts: seq<ActionDraft>): (r: seq<DraftType>)
    ensures |r| == |drafts| && forall k :: 0 <= k < |r| ==> r[k] == drafts[k].draftType
  {
    seq(|drafts|, k requires 0 <= k < |drafts| => drafts[k].draftType)
  }

  /** An escalated plan leaves its item to a human. */
  predicate LeftToHuman(item: WorkItem, inputs: PlanningInput, classified: WorkType) {
    HumanOnly(item, inputs, classified)
    || (DecidingType(item, classified) == InvoiceExport && !inputs.approvedForExport)
  }

  lemma {:induction false} PlanningStoresSteps(s: State, i: Id, ctx: SecurityContext, inputs: PlanningInput,
                                               classified: WorkType, rawKey: Option<string>)
    requires PlanItem(s, i, ctx, inputs, classified, rawKey).0 != s
    ensures i in s.items && s.items[i].workspace == ctx.workspace && RequestIdentity.NormalizedKey(rawKey).Ok?
    ensures var item := s.items[i];
            var key := RequestIdentity.NormalizedKey(rawKey).value;
            PlanItem(s, i, ctx, inputs, classified, rawKey).0
            == StorePlan(s, item, Planner.WorkTypeFor(item, classified),
                         Planner.Steps(item, ctx, inputs, classified, s.nextId + 1, s.clock),
                         Planner.Escalates(item, inputs, classified), key,
                         if key.Some? then Some(PlanningFingerprint(inputs, ctx.role, ctx.isAdmin)) else None)
  {
    hide StorePlan, StoredReply, PlanResultFor, FindPlanByKey, RequestIdentity.NormalizedKey, Planner.Steps,
         Planner.Escalates, Planner.WorkTypeFor;
  }

  /** What storing a plan changes in the records that are read below. */
  lemma {:induction false} StoredPlan(s: State, item: WorkItem, kind: WorkType, steps: seq<ActionStep>, escalated: bool,
                                      key: Option<string>, fingerprint: Option<Fingerprint>)
    ensures var t := StorePlan(s, item, kind, steps, escalated, key, fingerprint);
            && s.nextId in t.plans && t.plans[s.nextId].steps == steps && t.plans[s.nextId].escalated == escalated
            && item.id in t.items && t.items[item.id]
               == item.(workType := Some(kind), currentPlan := Some(s.nextId), updatedAt := s.clock,
                        status := if escalated then ItemAwaitingHuman else ItemPlanning)
            && t.drafts == s.drafts + DraftRows(item, steps, s.nextId + 1 + |steps|)
            && t.approvals == s.approvals + ApprovalRows(item, steps, s.nextId + 1 + |steps|)
  {
    hide DraftRows, ApprovalRows, StepEvents, FanOut;
  }

  lemma {:induction false} LastStepBringsTheDraft(item: WorkItem, ctx: SecurityContext, inputs: PlanningInput,
                                                  classified: WorkType, first: Id, now: Time)
    requires ctx.workspace == item.workspace
    ensures var steps := Planner.Steps(item, ctx, inputs, classified, first, now);
            && 1 <= |steps| <= 2
            && (|steps| == 2 ==> DraftTypeFor(steps[0].action).None? && !steps[0].requiresApproval)
            && var last := steps[|steps| - 1];
               && (last.requiresApproval <==> last.action == ExportApprovedInvoice)
               && (if NeedsDraft(last) then [DraftTypeFor(last.action).value] else [])
                  == DraftsByWorkType(item, ctx, inputs, classified)
               && (last.action == ExportApprovedInvoice <==>
                     !HumanOnly(item, inputs, classified) && DecidingType(item, classified) == InvoiceExport)
  {
    hide Planner.Steps, Planner.Bounded;
    var steps := Planner.Steps(item, ctx, inputs, classified, first, now);
    Planner.PlansAreBounded(item, ctx, inputs, classified, first, now);
    ActionsByWorkType(item, ctx, inputs, classified, first, now);
    var actions := ActionsOf(steps);
    StepsStart(item, ctx, inputs, classified, first, now, |steps| - 1);
    StepsStart(item, ctx, inputs, classified, first, now, 0);
    assert actions[0] == steps[0].action && actions[|steps| - 1] == steps[|steps| - 1].action;
  }

  /** The rows that come with a plan. */
  lemma {:induction false} RowsByWorkType(item: WorkItem, ctx: SecurityContext, inputs: PlanningInput,
                                          classified: WorkType, first: Id, now: Time, base: Id)
    requires ctx.workspace == item.workspace
    ensures var steps := Planner.Steps(item, ctx, inputs, classified, first, now);
            var drafts, approvals := DraftRows(item, steps, base), ApprovalRows(item, steps, base);
            && |steps| > 0
            && DraftTypes(drafts) == DraftsByWorkType(item, ctx, inputs, classified)
            && (forall d :: d in drafts ==>
                  d.itemId == item.id && d.workspace == item.workspace && d.stepId == steps[|steps| - 1].id)
            && |approvals| == (if !HumanOnly(item, inputs, classified)
                                  && DecidingType(item, classified) == InvoiceExport then 1 else 0)
            && (forall a :: a in approvals ==>
                  && a.status == Pending && a.itemId == item.id && a.workspace == item.workspace
                  && a.stepId == steps[|steps| - 1].id && a.reviewedBy.None?)
  {
    hide Planner.Steps, DraftRows, ApprovalRows, DraftsByWorkType, HumanOnly, DecidingType;
    var steps := Planner.Steps(item, ctx, inputs, classified, first, now);
    LastStepBringsTheDraft(item, ctx, inputs, classified, first, now);
    RowsOfShortPlans(item, steps, base);
    if NeedsDraft(steps[|steps| - 1]) {
      assert DraftTypes(DraftRows(item, steps, base)) == [DraftTypeFor(steps[|steps| - 1].action).value];
    }
  }

  lemma {:induction false} EscalationsAgree(item: WorkItem, inputs: PlanningInput, classified: WorkType)
    ensures Planner.Escalates(item, inputs, classified) <==> LeftToHuman(item, inputs, classified)
    ensures Planner.WorkTypeFor(item, classified) == DecidingType(item, classified)
  {
  }

  /** What a request that makes a plan leaves behind: the drafts that the work type calls for, an
      approval if and only if the plan holds an export, both for the plan's last step; and an
      item whose current plan it is, of the deciding type, left to a human if and only if the
      plan is escalated. */
  lemma {:induction false} PlanningBrings(s: State, i: Id, ctx: SecurityContext, inputs: PlanningInput,
                                          classified: WorkType, rawKey: Option<string>)
    requires Inv(s) && PlanItem(s, i, ctx, inputs, classified, rawKey).0 != s
    ensures var t := PlanItem(s, i, ctx, inputs, classified, rawKey).0;
            && i in s.items && i in t.items && s.nextId in t.plans && |t.plans[s.nextId].steps| > 0
            && s.drafts <= t.drafts && s.approvals <= t.approvals
            && var before, item, steps := s.items[i], t.items[i], t.plans[s.nextId].steps;
               var drafts, approvals := t.drafts[|s.drafts|..], t.approvals[|s.approvals|..];
               && DraftTypes(drafts) == DraftsByWorkType(before, ctx, inputs, classified)
               && (forall d :: d in drafts ==>
                     d.itemId == i && d.workspace == item.workspace && d.stepId == steps[|steps| - 1].id)
               && |approvals| == (if !HumanOnly(before, inputs, classified)
                                     && DecidingType(before, classified) == InvoiceExport then 1 else 0)
               && (forall a :: a in approvals ==>
                     && a.status == Pending && a.itemId == i && a.workspace == item.workspace
                     && a.stepId == steps[|steps| - 1].id && a.reviewedBy.None?)
               && item == before.(workType := Some(DecidingType(before, classified)), currentPlan := Some(s.nextId),
                                  status := if LeftToHuman(before, inputs, classified) then ItemAwaitingHuman
                                            else ItemPlanning,
                                  updatedAt := s.clock)
               && t.plans[s.nextId].escalated == LeftToHuman(before, inputs, classified)
               && steps == Planner.Steps(before, ctx, inputs, classified, s.nextId + 1, s.clock)
  {
    hide Inv, PlanItem, StorePlan, Planner.Steps, DraftRows, ApprovalRows, DraftsByWorkType, HumanOnly, LeftToHuman,
         DecidingType, Planner.Escalates, Planner.WorkTypeFor, RequestIdentity.NormalizedKey, DraftTypes;
    KnownItems(s);
    PlanningStoresSteps(s, i, ctx, inputs, classified, rawKey);
    var item := s.items[i];
    var key := RequestIdentity.NormalizedKey(rawKey).value;
    var steps := Planner.Steps(item, ctx, inputs, classified, s.nextId + 1, s.clock);
    EscalationsAgree(item, inputs, classified);
    StoredPlan(s, item, Planner.WorkTypeFor(item, classified), steps, Planner.Escalates(item, inputs, classified), key,
               if key.Some? then Some(PlanningFingerprint(inputs, ctx.role, ctx.isAdmin)) else None);
    RowsByWorkType(item, ctx, inputs, classified, s.nextId + 1, s.clock, s.nextId + 1 + |steps|);
    var t := PlanItem(s, i, ctx, inputs, classified, rawKey).0;
    assert t.drafts[|s.drafts|..] == DraftRows(item, steps, s.nextId + 1 + |steps|);
    assert t.approvals[|s.approvals|..] == ApprovalRows(item, steps, s.nextId + 1 + |steps|);
  }
}
