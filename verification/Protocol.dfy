/** The persistent state of the back-office workflow and what one committed transaction
    does to it. Every function here takes the state before a transaction and returns the
    state after it with the caller's answer; a raise leaves the state as it was. */
module Protocol {
  import opened Basics
  import opened Documents
  import opened Models
  import opened Policy
  import opened RequestIdentity
  import Planner

  // ------------------------------------------------------------------ state

  /** Which optional collaborators the service was built with. */
  datatype Config = Config(recordsEvents: bool, hasExecutor: bool, guardsExports: bool, recordsRuns: bool)

  datatype EventKind =
    | WorkItemCreated | WorkItemUpdated | PlanGenerated | DraftCreated | DraftRegenerated
    | ApprovalRequested | ApprovalApproved | ApprovalRejected | WorkflowEscalated
    | CorrectionRequested | CorrectionSubmitted
    | ExecutionStarted | ExecutionOutcomeUnknown | ActionExecuted | ActionFailed
    | ReconciledSucceeded | ReconciledFailed

  datatype Event = Event(itemId: Id, document: Option<Id>, kind: EventKind)

  datatype AgentRun = PlanRun(itemId: Id, planId: Id) | ExecutionRun(itemId: Id, planId: Id, success: bool)

  /** What a holder keeps from the moment it reserved a step. */
  datatype Reservation = Reservation(itemId: Id, planId: Id, stepId: Id, tool: ActionType, token: Id)

  /** A granted reservation, and whether its holder has called the tool. */
  datatype Attempt = Attempt(reservation: Reservation, called: bool)

  datatype State = State(
    config: Config,
    items: map<Id, WorkItem>,
    itemOrder: seq<Id>,
    plans: map<Id, TaskPlan>,
    planOrder: seq<Id>,
    approvals: seq<Approval>,
    drafts: seq<ActionDraft>,
    documents: map<Id, Document>,
    events: seq<Event>,
    runs: seq<AgentRun>,
    clock: Time,
    nextId: Id,
    attempts: map<Id, Attempt>,
    calls: seq<Reservation>)

  const EXECUTION_LEASE_SECONDS := 300

  /** The lease in clock units. */
  const EXECUTION_LEASE: Time := EXECUTION_LEASE_SECONDS * 1_000_000

  // ------------------------------------------------------------------ answers

  datatype BlockReason =
    | OutcomeUnreconciled | StepNotRunnable | ApprovalMissing | NoToolForAction | NoExecutor
    | ExportNeedsDocument | ExportNeedsApproval | OutcomeIsUnknown | ReservationInactive

  datatype ToolReply = AlreadyExecuted | BlockedReply(reason: BlockReason) | ToolResponse(success: bool)

  datatype ReserveReply = Answered(reply: ToolReply) | Granted(reservation: Reservation)

  datatype PlanReply = PlanReply(planId: Id, draftIds: seq<Id>, approvalIds: seq<Id>)

  // ------------------------------------------------------------------ lookups

  /** The first step with the given identifier. */
  function FindStep(steps: seq<ActionStep>, stepId: Id): (r: Option<nat>)
    ensures r.Some? ==> r.value < |steps| && steps[r.value].id == stepId
    ensures r.Some? ==> forall j :: 0 <= j < r.value ==> steps[j].id != stepId
    ensures r.None? ==> forall j :: 0 <= j < |steps| ==> steps[j].id != stepId
  {
    FindStepFrom(steps, stepId, 0)
  }

  function FindStepFrom(steps: seq<ActionStep>, stepId: Id, from: nat): (r: Option<nat>)
    requires from <= |steps|
    ensures r.Some? ==> from <= r.value < |steps| && steps[r.value].id == stepId
    ensures r.Some? ==> forall j :: from <= j < r.value ==> steps[j].id != stepId
    ensures r.None? ==> forall j :: from <= j < |steps| ==> steps[j].id != stepId
    decreases |steps| - from
  {
    if from == |steps| then None
    else if steps[from].id == stepId then Some(from)
    else FindStepFrom(steps, stepId, from + 1)
  }

  function FindApproval(approvals: seq<Approval>, approvalId: Id): (r: Option<nat>)
    ensures r.Some? ==> r.value < |approvals| && approvals[r.value].id == approvalId
    ensures r.None? ==> forall j :: 0 <= j < |approvals| ==> approvals[j].id != approvalId
  {
    if approvals == [] then None
    else
      var last := |approvals| - 1;
      if FindApproval(approvals[..last], approvalId).Some? then FindApproval(approvals[..last], approvalId)
      else if approvals[last].id == approvalId then Some(last)
      else None
  }

  function FindDraft(drafts: seq<ActionDraft>, draftId: Id): (r: Option<nat>)
    ensures r.Some? ==> r.value < |drafts| && drafts[r.value].id == draftId
  {
    if drafts == [] then None
    else
      var last := |drafts| - 1;
      if FindDraft(drafts[..last], draftId).Some? then FindDraft(drafts[..last], draftId)
      else if drafts[last].id == draftId then Some(last)
      else None
  }

  /** Some approval of the step, listed under the item, is granted. */
  predicate ApprovedFor(approvals: seq<Approval>, workspace: string, itemId: Id, stepId: Id) {
    exists n :: 0 <= n < |approvals| && Grants(approvals[n], workspace, itemId, stepId)
  }

  predicate Grants(approval: Approval, workspace: string, itemId: Id, stepId: Id) {
    && approval.workspace == workspace
    && approval.itemId == itemId
    && approval.stepId == stepId
    && approval.status == Approved
  }

  predicate KeyedPlan(plan: TaskPlan, workspace: string, itemId: Id, key: string) {
    plan.workspace == workspace && plan.itemId == itemId && plan.idempotencyKey == Some(key)
  }

  /** The first plan, in insertion order, that the key names. */
  function FindPlanByKey(plans: map<Id, TaskPlan>, order: seq<Id>, workspace: string, itemId: Id, key: string)
    : (r: Option<Id>)
    ensures r.Some? ==> r.value in plans && r.value in order && KeyedPlan(plans[r.value], workspace, itemId, key)
    ensures r.None? ==> forall p :: p in plans && p in order ==> !KeyedPlan(plans[p], workspace, itemId, key)
  {
    if order == [] then None
    else
      var last := |order| - 1;
      assert order == order[..last] + [order[last]];
      var earlier := FindPlanByKey(plans, order[..last], workspace, itemId, key);
      if earlier.Some? then earlier
      else if order[last] in plans && KeyedPlan(plans[order[last]], workspace, itemId, key) then Some(order[last])
      else None
  }

  predicate KeyedItem(item: WorkItem, workspace: string, key: string) {
    item.workspace == workspace && item.idempotencyKey == Some(key)
  }

  function FindItemByKey(items: map<Id, WorkItem>, order: seq<Id>, workspace: string, key: string): (r: Option<Id>)
    ensures r.Some? ==> r.value in items && r.value in order && KeyedItem(items[r.value], workspace, key)
    ensures r.None? ==> forall i :: i in items && i in order ==> !KeyedItem(items[i], workspace, key)
  {
    if order == [] then None
    else
      var last := |order| - 1;
      assert order == order[..last] + [order[last]];
      var earlier := FindItemByKey(items, order[..last], workspace, key);
      if earlier.Some? then earlier
      else if order[last] in items && KeyedItem(items[order[last]], workspace, key) then Some(order[last])
      else None
  }

  /** The work item, if it belongs to the caller's workspace. */
  function ItemFor(s: State, itemId: Id, ctx: SecurityContext): (r: Result<WorkItem>)
    ensures r.Ok? ==> itemId in s.items && r.value == s.items[itemId]
    ensures r.Ok? <==> itemId in s.items && s.items[itemId].workspace == ctx.workspace
  {
    if itemId in s.items && s.items[itemId].workspace == ctx.workspace then Ok(s.items[itemId]) else Raised(NotFound)
  }

  // ------------------------------------------------------------------ events

  function DocumentEvents(itemId: Id, documents: seq<Id>, kind: EventKind): seq<Event> {
    if documents == [] then []
    else
      var last := |documents| - 1;
      DocumentEvents(itemId, documents[..last], kind) + [Event(itemId, Some(documents[last]), kind)]
  }

  /** One event per linked document, or a single event without a document. */
  function FanOut(config: Config, item: WorkItem, kind: EventKind): seq<Event> {
    if !config.recordsEvents then []
    else if item.linkedDocuments == [] then [Event(item.id, None, kind)]
    else DocumentEvents(item.id, item.linkedDocuments, kind)
  }

  function Recorded(s: State, item: WorkItem, kind: EventKind): State {
    s.(events := s.events + FanOut(s.config, item, kind))
  }

  function SaveItem(s: State, item: WorkItem): State {
    s.(items := s.items[item.id := item])
  }

  // ------------------------------------------------------------------ execution

  predicate TargetMatches(item: WorkItem, planId: Id, stepId: Id) {
    item.Get(ExecutionPlanId) == Some(UuidText(planId)) && item.Get(ExecutionStepId) == Some(UuidText(stepId))
  }

  predicate ReservationMatches(item: WorkItem, r: Reservation) {
    item.Get(ExecutionToken) == Some(TokenText(r.token)) && TargetMatches(item, r.planId, r.stepId)
  }

  /** None lets an export go ahead; otherwise the answer that stops it. */
  function ExportGuard(s: State, item: WorkItem, step: ActionStep): Result<Option<BlockReason>> {
    if step.action != ExportApprovedInvoice || !s.config.guardsExports then Ok(None)
    else if item.linkedDocuments == [] then Ok(Some(ExportNeedsDocument))
    else
      var document := item.linkedDocuments[0];
      if document !in s.documents || s.documents[document].workspace != item.workspace then Raised(NotFound)
      else if s.documents[document].status != DocumentApproved then Ok(Some(ExportNeedsApproval))
      else Ok(None)
  }

  datatype Check = Proceed | Answer(reply: ToolReply)

  /** Whether a step may be started, in the order in which the program asks. */
  function ExecutionCheck(s: State, item: WorkItem, step: ActionStep): Result<Check> {
    if step.status == Executed then Ok(Answer(AlreadyExecuted))
    else if step.status == Executing then Ok(Answer(BlockedReply(OutcomeUnreconciled)))
    else if step.status == Blocked || step.status == Failed then Ok(Answer(BlockedReply(StepNotRunnable)))
    else if step.requiresApproval && !ApprovedFor(s.approvals, item.workspace, item.id, step.id) then
      Ok(Answer(BlockedReply(ApprovalMissing)))
    else if !IsToolAction(step.action) then Ok(Answer(BlockedReply(NoToolForAction)))
    else if !s.config.hasExecutor then Ok(Answer(BlockedReply(NoExecutor)))
    else
      match ExportGuard(s, item, step)
      case Raised(e) => Raised(e)
      case Ok(Some(reason)) => Ok(Answer(BlockedReply(reason)))
      case Ok(None) => Ok(Proceed)
  }

  function WithStepStatus(plan: TaskPlan, k: nat, status: ActionStepStatus, now: Time): TaskPlan
    requires k < |plan.steps|
  {
    plan.(steps := plan.steps[k := plan.steps[k].(status := status, updatedAt := now)])
  }

  function StartedItem(item: WorkItem, planId: Id, stepId: Id, token: Id, now: Time): WorkItem {
    item.(context := item.context[ExecutionToken := TokenText(token)]
                                 [ExecutionOutcomeKey := OutcomeText(InFlight)]
                                 [ExecutionHeartbeatAt := InstantText(now)]
                                 [ExecutionPlanId := UuidText(planId)]
                                 [ExecutionStepId := UuidText(stepId)],
          status := ItemExecuting,
          updatedAt := now)
  }

  /** The state after step `k` of the plan was reserved under the next token. */
  function StartExecution(s: State, item: WorkItem, plan: TaskPlan, k: nat): State
    requires k < |plan.steps|
  {
    var r := Reservation(item.id, plan.id, plan.steps[k].id, plan.steps[k].action, s.nextId);
    var started := StartedItem(item, plan.id, plan.steps[k].id, s.nextId, s.clock);
    s.(plans := s.plans[plan.id := WithStepStatus(plan, k, Executing, s.clock)],
       items := s.items[item.id := started],
       events := s.events + FanOut(s.config, started, ExecutionStarted),
       nextId := s.nextId + 1,
       attempts := s.attempts[s.nextId := Attempt(r, false)])
  }

  function Reserve(s: State, itemId: Id, stepId: Id, ctx: SecurityContext): (State, Result<ReserveReply>) {
    match ItemFor(s, itemId, ctx)
    case Raised(e) => (s, Raised(e))
    case Ok(item) =>
      if item.currentPlan.None? then (s, Raised(WorkflowError(NoCurrentPlan)))
      else if item.currentPlan.value !in s.plans then (s, Raised(NotFound))
      else
        var plan := s.plans[item.currentPlan.value];
        match FindStep(plan.steps, stepId)
        case None => (s, Raised(NotFound))
        case Some(k) =>
          match ExecutionCheck(s, item, plan.steps[k])
          case Raised(e) => (s, Raised(e))
          case Ok(Answer(reply)) => (s, Ok(Answered(reply)))
          case Ok(Proceed) =>
            (StartExecution(s, item, plan, k),
             Ok(Granted(Reservation(item.id, plan.id, plan.steps[k].id, plan.steps[k].action, s.nextId))))
  }

  /** What a holder loads first: its item, and the index of its step in its plan. */
  function Held(s: State, r: Reservation, ctx: SecurityContext): (x: Result<(WorkItem, nat)>)
    ensures x.Ok? ==>
              && r.itemId in s.items && x.value.0 == s.items[r.itemId]
              && r.planId in s.plans && x.value.1 < |s.plans[r.planId].steps|
              && FindStep(s.plans[r.planId].steps, r.stepId) == Some(x.value.1)
  {
    match ItemFor(s, r.itemId, ctx)
    case Raised(e) => Raised(e)
    case Ok(item) =>
      if r.planId !in s.plans then Raised(NotFound)
      else
        match FindStep(s.plans[r.planId].steps, r.stepId)
        case None => Raised(NotFound)
        case Some(k) => Ok((item, k))
  }

  function Renew(s: State, r: Reservation, ctx: SecurityContext): (State, Result<bool>) {
    match Held(s, r, ctx)
    case Raised(e) => (s, Raised(e))
    case Ok((item, k)) =>
      if s.plans[r.planId].steps[k].status != Executing
         || item.Get(ExecutionOutcomeKey) != Some(OutcomeText(InFlight))
         || !ReservationMatches(item, r)
      then (s, Ok(false))
      else (SaveItem(s, item.AttachContext(ExecutionHeartbeatAt, InstantText(s.clock), s.clock)), Ok(true))
  }

  function MarkUnknown(s: State, r: Reservation, ctx: SecurityContext): (State, Result<ToolReply>) {
    match Held(s, r, ctx)
    case Raised(e) => (s, Raised(e))
    case Ok((item, k)) =>
      if s.plans[r.planId].steps[k].status == Executing && ReservationMatches(item, r) then
        var marked := item.AttachContext(ExecutionOutcomeKey, OutcomeText(Unknown), s.clock)
                          .(status := ItemAwaitingHuman);
        (Recorded(SaveItem(s, marked), marked, ExecutionOutcomeUnknown), Ok(BlockedReply(OutcomeIsUnknown)))
      else (s, Ok(BlockedReply(OutcomeIsUnknown)))
  }

  function SettledItem(item: WorkItem, succeeded: bool, now: Time): WorkItem {
    item.AttachContext(ExecutionOutcomeKey,
                       OutcomeText(if succeeded then ConfirmedSuccess else ConfirmedFailure), now)
        .(status := if succeeded then ItemResolved else ItemFailed)
  }

  /** The state after step `k` of the plan got its verdict. */
  function Settle(s: State, item: WorkItem, plan: TaskPlan, k: nat, succeeded: bool, kind: EventKind): State
    requires k < |plan.steps|
  {
    var settled := SettledItem(item, succeeded, s.clock);
    s.(plans := s.plans[plan.id := WithStepStatus(plan, k, if succeeded then Executed else Failed, s.clock)],
       items := s.items[item.id := settled],
       events := s.events + FanOut(s.config, settled, kind))
  }

  function Finalize(s: State, r: Reservation, success: bool, ctx: SecurityContext): (State, Result<ToolReply>) {
    match Held(s, r, ctx)
    case Raised(e) => (s, Raised(e))
    case Ok((item, k)) =>
      var plan := s.plans[r.planId];
      if plan.steps[k].status != Executing || !ReservationMatches(item, r) then
        (s, Ok(BlockedReply(ReservationInactive)))
      else
        var noted := if s.config.recordsRuns then s.(runs := s.runs + [ExecutionRun(item.id, plan.id, success)]) else s;
        (Settle(noted, item, plan, k, success, if success then ActionExecuted else ActionFailed),
         Ok(ToolResponse(success)))
  }

  // ------------------------------------------------------------------ recovery

  /** `" ".join(summary.split())` is not empty. */
  predicate HasWords(summary: string) {
    exists n :: 0 <= n < |summary| && !IsSpace(summary[n])
  }

  predicate Reconcilable(item: WorkItem, now: Time) {
    var heartbeat := item.Get(ExecutionHeartbeatAt);
    if item.Get(ExecutionOutcomeKey) == Some(OutcomeText(Unknown)) then true
    else if item.Get(ExecutionOutcomeKey) != Some(OutcomeText(InFlight)) then false
    else if !Truthy(heartbeat) then true
    else if !heartbeat.value.InstantText? then false
    else now - heartbeat.value.at >= EXECUTION_LEASE
  }

  /** The plans to search first: the one the execution names, then the current one. */
  function PreferredPlans(item: WorkItem): Result<seq<Id>> {
    var named := item.Get(ExecutionPlanId);
    if Truthy(named) && !named.value.UuidText? then Raised(WorkflowError(InvalidExecutionPlanId))
    else
      var first := if Truthy(named) then [named.value.id] else [];
      Ok(if item.currentPlan.Some? && item.currentPlan.value !in first then first + [item.currentPlan.value] else first)
  }

  function SearchPreferred(s: State, item: WorkItem, ids: seq<Id>, stepId: Id): Result<Option<Id>> {
    if ids == [] then Ok(None)
    else if ids[0] !in s.plans then Raised(NotFound)
    else
      var plan := s.plans[ids[0]];
      if plan.workspace != item.workspace || plan.itemId != item.id then Raised(WorkflowError(ForeignExecutionPlan))
      else if FindStep(plan.steps, stepId).Some? then Ok(Some(ids[0]))
      else SearchPreferred(s, item, ids[1..], stepId)
  }

  predicate OwnedPlanWithStep(plan: TaskPlan, item: WorkItem, stepId: Id) {
    plan.workspace == item.workspace && plan.itemId == item.id && FindStep(plan.steps, stepId).Some?
  }

  function SearchAll(s: State, item: WorkItem, order: seq<Id>, stepId: Id): (r: Option<Id>)
    ensures r.Some? ==> r.value in s.plans && OwnedPlanWithStep(s.plans[r.value], item, stepId)
    ensures r.None? ==> forall p :: p in order && p in s.plans ==> !OwnedPlanWithStep(s.plans[p], item, stepId)
  {
    if order == [] then None
    else if order[0] in s.plans && OwnedPlanWithStep(s.plans[order[0]], item, stepId) then Some(order[0])
    else SearchAll(s, item, order[1..], stepId)
  }

  function PlanContainingStep(s: State, item: WorkItem, stepId: Id): (r: Result<Id>)
    ensures r.Ok? ==> r.value in s.plans && FindStep(s.plans[r.value].steps, stepId).Some?
  {
    match PreferredPlans(item)
    case Raised(e) => Raised(e)
    case Ok(ids) =>
      SearchPreferredFinds(s, item, ids, stepId);
      match SearchPreferred(s, item, ids, stepId)
      case Raised(e) => Raised(e)
      case Ok(Some(p)) => Ok(p)
      case Ok(None) =>
        match SearchAll(s, item, s.planOrder, stepId)
        case Some(p) => Ok(p)
        case None => Raised(NotFound)
  }

  lemma {:induction false} SearchPreferredFinds(s: State, item: WorkItem, ids: seq<Id>, stepId: Id)
    ensures var r := SearchPreferred(s, item, ids, stepId);
            r.Ok? && r.value.Some? ==>
              r.value.value in s.plans && OwnedPlanWithStep(s.plans[r.value.value], item, stepId)
  {
    if ids != [] && ids[0] in s.plans {
      SearchPreferredFinds(s, item, ids[1..], stepId);
    }
  }

  function Reconcile(s: State, itemId: Id, stepId: Id, ctx: SecurityContext, succeeded: bool, summary: string)
    : (State, Result<WorkItem>)
  {
    if !HasWords(summary) then (s, Raised(WorkflowError(SummaryRequired)))
    else
      match ItemFor(s, itemId, ctx)
      case Raised(e) => (s, Raised(e))
      case Ok(item) =>
        match PlanContainingStep(s, item, stepId)
        case Raised(e) => (s, Raised(e))
        case Ok(p) =>
          var plan := s.plans[p];
          var k := FindStep(plan.steps, stepId).value;
          var step := plan.steps[k];
          if step.status == Executed then
            (s, if succeeded then Ok(item) else Raised(WorkflowError(SuccessIsFinal)))
          else if step.status == Failed then
            (s, if !succeeded then Ok(item) else Raised(WorkflowError(FailureIsFinal)))
          else if step.status != Executing then (s, Raised(WorkflowError(NothingToReconcile)))
          else if !TargetMatches(item, plan.id, step.id) then (s, Raised(WorkflowError(TargetMismatch)))
          else if !Reconcilable(item, s.clock) then (s, Raised(WorkflowError(ExecutionStillActive)))
          else
            (Settle(s, item, plan, k, succeeded, if succeeded then ReconciledSucceeded else ReconciledFailed),
             Ok(SettledItem(item, succeeded, s.clock)))
  }

  // ------------------------------------------------------------------ planning

  /** DRAFT_TYPE_MAP. */
  function DraftTypeFor(action: ActionType): Option<DraftType> {
    match action
    case DraftAccountingNote => Some(AccountingNoteDraft)
    case DraftVendorMessage => Some(VendorMessageDraft)
    case ExportApprovedInvoice => Some(ExportPreviewDraft)
    case _ => None
  }

  predicate NeedsDraft(step: ActionStep) {
    DraftTypeFor(step.action).Some? && step.status != Blocked
  }

  function DraftRow(item: WorkItem, step: ActionStep, id: Id): ActionDraft
    requires NeedsDraft(step)
  {
    ActionDraft(id, item.workspace, item.id, step.id, DraftTypeFor(step.action).value)
  }

  /** The drafts made for the steps; step `n` draws the identifiers `base + 2n` and `base + 2n + 1`. */
  function DraftRows(item: WorkItem, steps: seq<ActionStep>, base: Id): seq<ActionDraft> {
    if steps == [] then []
    else
      var n := |steps| - 1;
      DraftRows(item, steps[..n], base)
      + if NeedsDraft(steps[n]) then [DraftRow(item, steps[n], base + 2 * n)] else []
  }

  function ApprovalRow(item: WorkItem, step: ActionStep, id: Id): Approval {
    Approval(id, item.workspace, item.id, step.id, Pending, None, None, None)
  }

  /** One approval for every step that requires one. */
  function ApprovalRows(item: WorkItem, steps: seq<ActionStep>, base: Id): seq<Approval> {
    if steps == [] then []
    else
      var n := |steps| - 1;
      ApprovalRows(item, steps[..n], base)
      + if steps[n].requiresApproval then [ApprovalRow(item, steps[n], base + 2 * n + 1)] else []
  }

  function StepEvents(config: Config, item: WorkItem, steps: seq<ActionStep>): seq<Event> {
    if steps == [] then []
    else
      var n := |steps| - 1;
      StepEvents(config, item, steps[..n])
      + (if NeedsDraft(steps[n]) then FanOut(config, item, DraftCreated) else [])
      + (if steps[n].requiresApproval then FanOut(config, item, ApprovalRequested) else [])
  }

  function DraftIds(drafts: seq<ActionDraft>): seq<Id> {
    if drafts == [] then [] else DraftIds(drafts[..|drafts| - 1]) + [drafts[|drafts| - 1].id]
  }

  function ApprovalIds(approvals: seq<Approval>): seq<Id> {
    if approvals == [] then [] else ApprovalIds(approvals[..|approvals| - 1]) + [approvals[|approvals| - 1].id]
  }

  /** The rows of a listing that belong to the steps of one plan, in listing order. */
  function DraftsOf(drafts: seq<ActionDraft>, workspace: string, itemId: Id, steps: seq<ActionStep>): seq<ActionDraft> {
    if drafts == [] then []
    else
      var last := drafts[|drafts| - 1];
      DraftsOf(drafts[..|drafts| - 1], workspace, itemId, steps)
      + if last.workspace == workspace && last.itemId == itemId && FindStep(steps, last.stepId).Some?
        then [last] else []
  }

  function ApprovalsOf(approvals: seq<Approval>, workspace: string, itemId: Id, steps: seq<ActionStep>): seq<Approval> {
    if approvals == [] then []
    else
      var last := approvals[|approvals| - 1];
      ApprovalsOf(approvals[..|approvals| - 1], workspace, itemId, steps)
      + if last.workspace == workspace && last.itemId == itemId && FindStep(steps, last.stepId).Some?
        then [last] else []
  }

  /** What a plan's reply is when the plan exists already. */
  function PlanResultFor(s: State, item: WorkItem, plan: TaskPlan, workspace: string): PlanReply {
    PlanReply(plan.id, DraftIds(DraftsOf(s.drafts, workspace, item.id, plan.steps)),
              ApprovalIds(ApprovalsOf(s.approvals, workspace, item.id, plan.steps)))
  }

  /** The state after a new plan with these steps was stored with its drafts and approvals. */
  function StorePlan(s: State, item: WorkItem, workType: WorkType, steps: seq<ActionStep>, escalated: bool,
                     key: Option<string>, fingerprint: Option<Fingerprint>): State
  {
    var planId := s.nextId;
    var base := planId + 1 + |steps|;
    var plan := TaskPlan(planId, item.workspace, item.id, steps, escalated, key, fingerprint);
    var planned := item.(workType := Some(workType), currentPlan := Some(planId),
                         status := if escalated then ItemAwaitingHuman else ItemPlanning, updatedAt := s.clock);
    s.(plans := s.plans[planId := plan],
       planOrder := s.planOrder + [planId],
       items := s.items[item.id := planned],
       drafts := s.drafts + DraftRows(item, steps, base),
       approvals := s.approvals + ApprovalRows(item, steps, base),
       runs := s.runs + (if s.config.recordsRuns then [PlanRun(item.id, planId)] else []),
       events := s.events + FanOut(s.config, item, PlanGenerated) + StepEvents(s.config, item, steps)
                 + (if escalated then FanOut(s.config, item, WorkflowEscalated) else []),
       nextId := base + 2 * |steps|)
  }

  function StoredReply(s: State, item: WorkItem, steps: seq<ActionStep>): PlanReply {
    var base := s.nextId + 1 + |steps|;
    PlanReply(s.nextId, DraftIds(DraftRows(item, steps, base)), ApprovalIds(ApprovalRows(item, steps, base)))
  }

  function AddPlan(s: State, item: WorkItem, ctx: SecurityContext, inputs: PlanningInput, classified: WorkType,
                   key: Option<string>): (State, PlanReply)
  {
    var steps := Planner.Steps(item, ctx, inputs, classified, s.nextId + 1, s.clock);
    (StorePlan(s, item, Planner.WorkTypeFor(item, classified), steps, Planner.Escalates(item, inputs, classified), key,
               if key.Some? then Some(PlanningFingerprint(inputs, ctx.role, ctx.isAdmin)) else None),
     StoredReply(s, item, steps))
  }

  function PlanItem(s: State, itemId: Id, ctx: SecurityContext, inputs: PlanningInput, classified: WorkType,
                    rawKey: Option<string>): (State, Result<PlanReply>)
  {
    match NormalizedKey(rawKey)
    case Raised(e) => (s, Raised(e))
    case Ok(key) =>
      match ItemFor(s, itemId, ctx)
      case Raised(e) => (s, Raised(e))
      case Ok(item) =>
        var existing := if key.Some? then FindPlanByKey(s.plans, s.planOrder, ctx.workspace, item.id, key.value)
                        else None;
        if existing.Some? then
          var plan := s.plans[existing.value];
          if plan.fingerprint != Some(PlanningFingerprint(inputs, ctx.role, ctx.isAdmin)) then
            (s, Raised(WorkflowError(KeyBoundToOtherRequest)))
          else (s, Ok(PlanResultFor(s, item, plan, ctx.workspace)))
        else if item.ExecutionPending() then (s, Raised(WorkflowError(ExecutionPending)))
        else
          var (t, reply) := AddPlan(s, item, ctx, inputs, classified, key);
          (t, Ok(reply))
  }

  /** One approval in the list was decided. */
  function Decided(s: State, n: nat, decided: Result<Approval>, before: ApprovalStatus, kind: EventKind,
                   ctx: SecurityContext): (State, Result<Approval>)
    requires n < |s.approvals|
  {
    match decided
    case Raised(e) => (s, Raised(e))
    case Ok(approval) =>
      var t := s.(approvals := s.approvals[n := approval]);
      if approval.status == before then (t, Ok(approval))
      else
        match ItemFor(s, approval.itemId, ctx)
        case Raised(e) => (s, Raised(e))
        case Ok(item) => (Recorded(t, item, kind), Ok(approval))
  }

  function Approve(s: State, approvalId: Id, ctx: SecurityContext, notes: Option<string>): (State, Result<Approval>) {
    match FindApproval(s.approvals, approvalId)
    case None => (s, Raised(NotFound))
    case Some(n) =>
      if s.approvals[n].workspace != ctx.workspace then (s, Raised(NotFound))
      else
        Decided(s, n, s.approvals[n].Approve(ctx.actor, notes, s.clock), s.approvals[n].status, ApprovalApproved, ctx)
  }

  function Reject(s: State, approvalId: Id, ctx: SecurityContext, notes: Option<string>): (State, Result<Approval>) {
    match FindApproval(s.approvals, approvalId)
    case None => (s, Raised(NotFound))
    case Some(n) =>
      if s.approvals[n].workspace != ctx.workspace then (s, Raised(NotFound))
      else
        Decided(s, n, s.approvals[n].Reject(ctx.actor, notes, s.clock), s.approvals[n].status, ApprovalRejected, ctx)
  }

  function RegenerateDraft(s: State, itemId: Id, draftId: Id, ctx: SecurityContext): (State, Result<Id>) {
    match ItemFor(s, itemId, ctx)
    case Raised(e) => (s, Raised(e))
    case Ok(item) =>
      match FindDraft(s.drafts, draftId)
      case None => (s, Raised(NotFound))
      case Some(n) =>
        var previous := s.drafts[n];
        if previous.workspace != ctx.workspace || previous.itemId != item.id then (s, Raised(NotFound))
        else
          var draft := ActionDraft(s.nextId, item.workspace, item.id, previous.stepId, previous.draftType);
          (Recorded(s.(drafts := s.drafts + [draft], nextId := s.nextId + 1), item, DraftRegenerated), Ok(draft.id))
  }

  // ------------------------------------------------------------------ work items

  /** The state after a new item was stored. */
  function StoreItem(s: State, ctx: SecurityContext, title: string, workType: Option<WorkType>, documents: seq<Id>,
                     context: map<ContextKey, ContextValue>, key: Option<string>, fingerprint: Fingerprint): State
  {
    var item := WorkItem(s.nextId, ctx.workspace, title, workType, Normal,
                         if workType.Some? then ItemClassified else ItemNew, documents, context, None,
                         key, if key.Some? then Some(fingerprint) else None, s.clock);
    Recorded(s.(items := s.items[item.id := item], itemOrder := s.itemOrder + [item.id], nextId := s.nextId + 1),
             item, WorkItemCreated)
  }

  function CreateItem(s: State, ctx: SecurityContext, title: string, workType: Option<WorkType>, documents: seq<Id>,
                      context: map<ContextKey, ContextValue>, rawKey: Option<string>): (State, Result<Id>)
  {
    match NormalizedKey(rawKey)
    case Raised(e) => (s, Raised(e))
    case Ok(key) =>
      var fingerprint := WorkItemFingerprint(title, workType, documents, context);
      var existing := if key.Some? then FindItemByKey(s.items, s.itemOrder, ctx.workspace, key.value) else None;
      if existing.Some? then
        if s.items[existing.value].fingerprint != Some(fingerprint) then
          (s, Raised(WorkflowError(KeyBoundToOtherRequest)))
        else (s, Ok(existing.value))
      else
        (StoreItem(s, ctx, title, workType, documents, context, key, fingerprint), Ok(s.nextId))
  }

  function Attached(item: WorkItem, key: ContextKey, text: Option<string>, now: Time): WorkItem {
    if text.Some? then item.AttachContext(key, Text(Strip(text.value)), now) else item
  }

  /** `dict.fromkeys(tag.strip() for tag in tags if tag.strip())` */
  function TagList(tags: seq<string>): seq<string> {
    if tags == [] then []
    else
      var earlier := TagList(tags[..|tags| - 1]);
      var tag := Strip(tags[|tags| - 1]);
      if tag == "" || tag in earlier then earlier else earlier + [tag]
  }

  /** `",".join(tags)` */
  function Joined(tags: seq<string>): string {
    if |tags| == 0 then ""
    else if |tags| == 1 then tags[0]
    else Joined(tags[..|tags| - 1]) + "," + tags[|tags| - 1]
  }

  function Tagged(item: WorkItem, tags: Option<seq<string>>, now: Time): WorkItem {
    if tags.Some? then item.AttachContext(Tags, Text(Joined(TagList(tags.value))), now) else item
  }

  function EditedItem(item: WorkItem, title: Option<string>, priority: Option<WorkItemPriority>,
                      assignee: Option<string>, requestedOutcome: Option<string>, tags: Option<seq<string>>, now: Time)
    : WorkItem
  {
    var renamed := if title.Some? && Strip(title.value) != [] then item.(title := Strip(title.value)) else item;
    var ranked := if priority.Some? then renamed.(priority := priority.value) else renamed;
    Tagged(Attached(Attached(ranked, Assignee, assignee, now), RequestedOutcome, requestedOutcome, now), tags, now)
    .(updatedAt := now)
  }

  function UpdateItem(s: State, itemId: Id, ctx: SecurityContext, title: Option<string>,
                      priority: Option<WorkItemPriority>, assignee: Option<string>, requestedOutcome: Option<string>,
                      tags: Option<seq<string>>): (State, Result<Id>)
  {
    match ItemFor(s, itemId, ctx)
    case Raised(e) => (s, Raised(e))
    case Ok(item) =>
      var updated := EditedItem(item, title, priority, assignee, requestedOutcome, tags, s.clock);
      (Recorded(SaveItem(s, updated), updated, WorkItemUpdated), Ok(itemId))
  }

  function RequestCorrection(s: State, itemId: Id, ctx: SecurityContext, notes: string): (State, Result<Id>) {
    match ItemFor(s, itemId, ctx)
    case Raised(e) => (s, Raised(e))
    case Ok(item) =>
      var asked := item.AttachContext(CorrectionState, Text("requested"), s.clock)
                       .AttachContext(CorrectionReason, Text(Strip(notes)), s.clock)
                       .AttachContext(CorrectionRequestedBy, Text(ctx.actor), s.clock)
                       .AttachContext(CorrectionRequestedAt, InstantText(s.clock), s.clock)
                       .(status := ItemAwaitingHuman);
      (Recorded(SaveItem(s, asked), asked, CorrectionRequested), Ok(itemId))
  }

  function SubmitCorrection(s: State, itemId: Id, ctx: SecurityContext, changes: string): (State, Result<Id>) {
    match ItemFor(s, itemId, ctx)
    case Raised(e) => (s, Raised(e))
    case Ok(item) =>
      if item.Get(CorrectionState) != Some(Text("requested")) then (s, Ok(itemId))
      else
        var sent := item.AttachContext(CorrectionState, Text("submitted"), s.clock)
                        .AttachContext(CorrectionSubmittedBy, Text(ctx.actor), s.clock)
                        .AttachContext(CorrectionChangeCount, Text(changes), s.clock)
                        .(status := ItemAwaitingHuman);
        (Recorded(SaveItem(s, sent), sent, CorrectionSubmitted), Ok(itemId))
  }

  function Escalate(s: State, itemId: Id, ctx: SecurityContext): (State, Result<Id>) {
    match ItemFor(s, itemId, ctx)
    case Raised(e) => (s, Raised(e))
    case Ok(item) =>
      var raised := (if item.Get(CorrectionState) == Some(Text("requested"))
                     then item.AttachContext(CorrectionState, Text("escalated"), s.clock) else item)
                    .(status := ItemAwaitingHuman);
      (Recorded(SaveItem(s, raised), raised, WorkflowEscalated), Ok(itemId))
  }

  // ------------------------------------------------------------------ documents

  function UploadDocument(s: State, documentId: Id, workspace: string): State {
    if documentId in s.documents then s
    else s.(documents := s.documents[documentId := Document(workspace, DocumentUploaded)])
  }

  /** `DocumentStateWriter.transition` */
  function MoveDocument(s: State, documentId: Id, target: DocumentStatus): (State, Result<Document>) {
    if documentId !in s.documents then (s, Raised(NotFound))
    else
      match Transition(s.documents[documentId], target)
      case Raised(e) => (s, Raised(e))
      case Ok(document) => (s.(documents := s.documents[documentId := document]), Ok(document))
  }
}
