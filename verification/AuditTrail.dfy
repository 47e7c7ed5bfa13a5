/** The workflow events and the agent runs tell what happened: each action logs the events that
    what it changed stands for, in that order, and nothing else. */
module AuditTrail {
  import opened Basics
  import opened Models
  import opened Protocol
  import opened Invariant
  import opened QuietOperations
  import opened Evolution
  import opened Runs
  import opened Frames
  import opened Fencing
  import opened PlannedWork
  import EventLog
  import Planner
  import RequestIdentity
  import Settling
  import Starting
  import Verdicts

  // ------------------------------------------------------------ one record_event call

  /** The events of one call: none if events are not recorded; else one without a document if
      the item links none, or one for each linked document in their order. */
  lemma {:induction false} FanOutIs(config: Config, item: WorkItem, kind: EventKind)
    ensures !config.recordsEvents ==> FanOut(config, item, kind) == []
    ensures config.recordsEvents && item.linkedDocuments == [] ==>
              FanOut(config, item, kind) == [Event(item.id, None, kind)]
    ensures config.recordsEvents && item.linkedDocuments != [] ==>
              && |FanOut(config, item, kind)| == |item.linkedDocuments|
              && forall n :: 0 <= n < |item.linkedDocuments| ==>
                   FanOut(config, item, kind)[n] == Event(item.id, Some(item.linkedDocuments[n]), kind)
  {
    EventLog.BalanceOfDocumentEvents(item.id, item.linkedDocuments, kind, 0);
  }

  // ------------------------------------------------------------ what an action did

  predicate Own(s: State, i: Id, ctx: SecurityContext) {
    i in s.items && s.items[i].workspace == ctx.workspace
  }

  /** The token's holder acts for the right workspace while its step is executing. */
  ghost predicate Active(s: State, token: Id, ctx: SecurityContext) {
    token in s.attempts && Own(s, s.attempts[token].reservation.itemId, ctx)
    && WellPlaced(s, s.attempts[token].reservation) && StepStatus(s, s.attempts[token].reservation) == Executing
  }

  /** The item that the action is about. */
  function About(s: State, a: Action): Option<Id> {
    match a
    case CreatesItem(_, _, _, _, _, _) => Some(s.nextId)
    case EditsItem(i, _, _, _, _, _, _) => Some(i)
    case AsksCorrection(i, _, _) => Some(i)
    case SubmitsCorrection(i, _, _) => Some(i)
    case EscalatesItem(i, _) => Some(i)
    case PlansItem(i, _, _, _, _) => Some(i)
    case RegeneratesDraft(i, _, _) => Some(i)
    case Approves(approvalId, _, _) => ItemOfApproval(s, approvalId)
    case Rejects(approvalId, _, _) => ItemOfApproval(s, approvalId)
    case Reserves(i, _, _) => Some(i)
    case MarksUnknown(token, _) => ItemOfToken(s, token)
    case Finalizes(token, _, _) => ItemOfToken(s, token)
    case Reconciles(i, _, _, _, _) => Some(i)
    case _ => None
  }

  function ItemOfToken(s: State, token: Id): Option<Id> {
    if token in s.attempts then Some(s.attempts[token].reservation.itemId) else None
  }

  function ItemOfApproval(s: State, approvalId: Id): Option<Id> {
    var found := FindApproval(s.approvals, approvalId);
    if found.Some? then Some(s.approvals[found.value].itemId) else None
  }

  function When(happened: bool, kind: EventKind): seq<EventKind> {
    if happened then [kind] else []
  }

  /** The kinds of event that stand for what changed from one state to the next. */
  ghost function Deeds(s: State, t: State, a: Action): seq<EventKind> {
    match a
    case CreatesItem(_, _, _, _, _, _) => When(s.nextId !in s.items && s.nextId in t.items, WorkItemCreated)
    case EditsItem(i, ctx, _, _, _, _, _) => When(Own(s, i, ctx), WorkItemUpdated)
    case AsksCorrection(i, ctx, _) => When(Own(s, i, ctx), CorrectionRequested)
    case SubmitsCorrection(i, ctx, _) =>
      When(Own(s, i, ctx) && s.items[i].Get(CorrectionState) == Some(Text("requested")), CorrectionSubmitted)
    case EscalatesItem(i, ctx) => When(Own(s, i, ctx), WorkflowEscalated)
    case PlansItem(_, _, _, _, _) =>
      if s.nextId in s.plans || s.nextId !in t.plans then []
      else
        [PlanGenerated] + When(|t.drafts| > |s.drafts|, DraftCreated)
        + When(|t.approvals| > |s.approvals|, ApprovalRequested) + When(t.plans[s.nextId].escalated, WorkflowEscalated)
    case RegeneratesDraft(_, _, _) => When(|t.drafts| > |s.drafts|, DraftRegenerated)
    case Approves(_, _, _) => When(t.approvals != s.approvals, ApprovalApproved)
    case Rejects(_, _, _) => When(t.approvals != s.approvals, ApprovalRejected)
    case Reserves(_, _, _) => When(t.attempts != s.attempts, ExecutionStarted)
    case MarksUnknown(token, ctx) => When(Active(s, token, ctx), ExecutionOutcomeUnknown)
    case Finalizes(token, success, ctx) => When(Active(s, token, ctx), if success then ActionExecuted else ActionFailed)
    case Reconciles(_, _, _, succeeded, _) =>
      When(t.plans != s.plans, if succeeded then ReconciledSucceeded else ReconciledFailed)
    case _ => []
  }

  /** The events of the deeds, told of one item. */
  function Told(config: Config, item: WorkItem, deeds: seq<EventKind>): seq<Event> {
    if deeds == [] then []
    else Told(config, item, deeds[..|deeds| - 1]) + FanOut(config, item, deeds[|deeds| - 1])
  }

  /** The agent runs that stand for what changed: one for a new plan, and one with the tool's
      answer for an execution that its holder finalized. */
  ghost function RunNotes(s: State, t: State, a: Action): seq<AgentRun> {
    if !s.config.recordsRuns then []
    else if a.PlansItem? && s.nextId !in s.plans && s.nextId in t.plans then [PlanRun(a.itemId, s.nextId)]
    else if a.Finalizes? && Active(s, a.token, a.ctx) then
      [ExecutionRun(s.attempts[a.token].reservation.itemId, s.attempts[a.token].reservation.planId, a.success)]
    else []
  }

  /** The action logged its deeds, of its item, and noted its runs. */
  ghost predicate Tells(s: State, t: State, a: Action) {
    var deeds := Deeds(s, t, a);
    && t.runs == s.runs + RunNotes(s, t, a)
    && (if deeds == [] then t.events == s.events
        else
          && About(s, a).Some? && About(s, a).value in t.items
          && t.events == s.events + Told(s.config, t.items[About(s, a).value], deeds))
  }

  lemma {:induction false} SameFanOut(config: Config, a: WorkItem, b: WorkItem, kind: EventKind)
    requires a.id == b.id && a.linkedDocuments == b.linkedDocuments
    ensures FanOut(config, a, kind) == FanOut(config, b, kind)
  {
  }

  lemma {:induction false} ToldOnce(config: Config, item: WorkItem, kind: EventKind)
    ensures Told(config, item, [kind]) == FanOut(config, item, kind)
  {
    assert [kind][..0] == [];
  }

  lemma {:induction false} ToldTwice(config: Config, item: WorkItem, deeds: seq<EventKind>, kind: EventKind)
    ensures Told(config, item, deeds + [kind]) == Told(config, item, deeds) + FanOut(config, item, kind)
  {
    assert (deeds + [kind])[..|deeds|] == deeds;
  }

  // ------------------------------------------------------------ each action

  lemma {:induction false} EditingTells(s: State, a: Action)
    requires ItemsOk(s) && a.EditsItem?
    ensures Tells(s, Apply(s, a), a)
  {
    hide FanOut, EditedItem, RequestIdentity.Strip, CreateItem, PlanItem, Reserve, Renew, MarkUnknown, Finalize,
         Reconcile, RegenerateDraft, Approve, Reject, Starting.CallTool, UploadDocument, MoveDocument,
         RequestCorrection, SubmitCorrection, Escalate, Told;
    var t := Apply(s, a);
    if Own(s, a.itemId, a.ctx) {
      var item := s.items[a.itemId];
      EditedKeepsExecution(item, a.newTitle, a.priority, a.assignee, a.requestedOutcome, a.tags, s.clock);
      ToldOnce(s.config, t.items[a.itemId], WorkItemUpdated);
    }
  }

  lemma {:induction false} AskingTells(s: State, a: Action)
    requires ItemsOk(s) && a.AsksCorrection?
    ensures Tells(s, Apply(s, a), a)
  {
    hide FanOut, RequestIdentity.Strip, CreateItem, PlanItem, Reserve, Renew, MarkUnknown, Finalize, Reconcile,
         RegenerateDraft, Approve, Reject, Starting.CallTool, UploadDocument, MoveDocument, UpdateItem,
         SubmitCorrection, Escalate, Told;
    var t := Apply(s, a);
    if Own(s, a.itemId, a.ctx) {
      ToldOnce(s.config, t.items[a.itemId], CorrectionRequested);
    }
  }

  lemma {:induction false} SubmittingTells(s: State, a: Action)
    requires ItemsOk(s) && a.SubmitsCorrection?
    ensures Tells(s, Apply(s, a), a)
  {
    hide FanOut, RequestIdentity.Strip, CreateItem, PlanItem, Reserve, Renew, MarkUnknown, Finalize, Reconcile,
         RegenerateDraft, Approve, Reject, Starting.CallTool, UploadDocument, MoveDocument, UpdateItem,
         RequestCorrection, Escalate, Told;
    var t := Apply(s, a);
    if Own(s, a.itemId, a.ctx) {
      ToldOnce(s.config, t.items[a.itemId], CorrectionSubmitted);
    }
  }

  lemma {:induction false} EscalatingTells(s: State, a: Action)
    requires ItemsOk(s) && a.EscalatesItem?
    ensures Tells(s, Apply(s, a), a)
  {
    hide FanOut, CreateItem, PlanItem, Reserve, Renew, MarkUnknown, Finalize, Reconcile, RegenerateDraft, Approve,
         Reject, Starting.CallTool, UploadDocument, MoveDocument, UpdateItem, RequestCorrection, SubmitCorrection, Told;
    var t := Apply(s, a);
    if Own(s, a.itemId, a.ctx) {
      ToldOnce(s.config, t.items[a.itemId], WorkflowEscalated);
    }
  }

  lemma {:induction false} CreatingTells(s: State, a: Action)
    requires ItemsOk(s) && a.CreatesItem?
    ensures Tells(s, Apply(s, a), a)
  {
    hide FanOut, FindItemByKey, RequestIdentity.NormalizedKey, PlanItem, Reserve, Renew, MarkUnknown, Finalize,
         Reconcile, RegenerateDraft, Approve, Reject, Starting.CallTool, UploadDocument, MoveDocument, UpdateItem,
         RequestCorrection, SubmitCorrection, Escalate, Told;
    var t := Apply(s, a);
    assert s.nextId !in s.items;
    if s.nextId in t.items {
      ToldOnce(s.config, t.items[s.nextId], WorkItemCreated);
    }
  }

  lemma {:induction false} RegeneratingTells(s: State, a: Action)
    requires ItemsOk(s) && a.RegeneratesDraft?
    ensures Tells(s, Apply(s, a), a)
  {
    hide FanOut, FindDraft, CreateItem, PlanItem, Reserve, Renew, MarkUnknown, Finalize, Reconcile, Approve, Reject,
         Starting.CallTool, UploadDocument, MoveDocument, UpdateItem, RequestCorrection, SubmitCorrection, Escalate,
         Told;
    var t := Apply(s, a);
    if a.itemId in t.items {
      ToldOnce(s.config, t.items[a.itemId], DraftRegenerated);
    }
  }

  lemma {:induction false} DecidedTells(s: State, n: nat, decided: Approval, kind: EventKind, ctx: SecurityContext)
    requires Inv(s) && n < |s.approvals| && s.approvals[n].workspace == ctx.workspace
    requires SameRequest(s.approvals[n], decided)
    ensures var (t, reply) := Decided(s, n, Ok(decided), s.approvals[n].status, kind, ctx);
            && t.items == s.items && t.runs == s.runs && s.approvals[n].itemId in s.items
            && reply == Ok(decided) && t.approvals == s.approvals[n := decided]
            && t.events == s.events + (if decided.status == s.approvals[n].status then []
                                       else FanOut(s.config, s.items[s.approvals[n].itemId], kind))
  {
    hide FanOut;
  }

  lemma {:induction false} RefusedDecision(s: State, n: nat, error: Error, before: ApprovalStatus, kind: EventKind,
                                           ctx: SecurityContext)
    requires n < |s.approvals|
    ensures Decided(s, n, Raised(error), before, kind, ctx) == (s, Raised(error))
  {
  }

  lemma {:induction false} DecidingTells(s: State, a: Action)
    requires Inv(s) && (a.Approves? || a.Rejects?)
    ensures Tells(s, Apply(s, a), a)
  {
    hide Inv, FanOut, CreateItem, PlanItem, Reserve, Renew, MarkUnknown, Finalize, Reconcile, RegenerateDraft,
         Starting.CallTool, UploadDocument, MoveDocument, UpdateItem, RequestCorrection, SubmitCorrection, Escalate,
         Told, Decided, FindApproval;
    var t := Apply(s, a);
    var found := FindApproval(s.approvals, a.approvalId);
    assert s.runs + [] == s.runs;
    if found.Some? && s.approvals[found.value].workspace == a.ctx.workspace {
      var approval := s.approvals[found.value];
      var kind := if a.Approves? then ApprovalApproved else ApprovalRejected;
      var decided := if a.Approves? then approval.Approve(a.ctx.actor, a.reviewNotes, s.clock)
                     else approval.Reject(a.ctx.actor, a.reviewNotes, s.clock);
      if decided.Ok? {
        DecidedTells(s, found.value, decided.value, kind, a.ctx);
        ToldOnce(s.config, s.items[approval.itemId], kind);
        if decided.value.status == approval.status {
          assert decided.value == approval && s.approvals[found.value := approval] == s.approvals;
          assert s.events + [] == s.events;
        } else {
          assert t.approvals[found.value] != s.approvals[found.value];
        }
      } else {
        RefusedDecision(s, found.value, decided.error, approval.status, kind, a.ctx);
      }
    }
  }

  lemma {:induction false} ReservingTells(s: State, a: Action)
    requires Inv(s) && a.Reserves?
    ensures Tells(s, Apply(s, a), a)
  {
    hide Inv, FanOut, ExecutionCheck, Reserve, Told, Apply, PlanOk;
    ReservingApplies(s, a.itemId, a.stepId, a.ctx);
    ReservingNotes(s, a.itemId, a.stepId, a.ctx);
    InvParts(s);
    AttemptsPart(s);
    Starting.FreshToken(s);
    ReserveSteps(s, a.itemId, a.stepId, a.ctx);
    var t := Reserve(s, a.itemId, a.stepId, a.ctx).0;
    if t != s {
      var p: Id, k: nat :| Starting.Startable(s, a.itemId, p, k) && t == Starting.After(s, a.itemId, p, k);
      StartTells(s, a.itemId, p, k);
      ToldOnce(s.config, t.items[a.itemId], ExecutionStarted);
    }
  }

  lemma {:induction false} StartTells(s: State, i: Id, p: Id, k: nat)
    requires ItemsOk(s) && Starting.Startable(s, i, p, k)
    ensures var t := Starting.After(s, i, p, k);
            i in t.items && t.events == s.events + FanOut(s.config, t.items[i], ExecutionStarted)
  {
    hide FanOut, ExecutionCheck;
  }

  lemma {:induction false} PlanningTells(s: State, a: Action)
    requires Inv(s) && a.PlansItem?
    ensures Tells(s, Apply(s, a), a)
  {
    hide Inv, FanOut, PlanItem, CreateItem, Reserve, Renew, MarkUnknown, Finalize, Reconcile, RegenerateDraft, Approve,
         Reject, Starting.CallTool, UploadDocument, MoveDocument, UpdateItem, RequestCorrection, SubmitCorrection,
         Escalate, Told, StorePlan, Planner.Steps, RequestIdentity.NormalizedKey, DraftRows, ApprovalRows,
         Planner.Escalates, Planner.WorkTypeFor;
    InvParts(s);
    NoPlanYet(s);
    var t := PlanItem(s, a.itemId, a.ctx, a.inputs, a.classified, a.key).0;
    if t != s {
      PlanningStoresSteps(s, a.itemId, a.ctx, a.inputs, a.classified, a.key);
      var item := s.items[a.itemId];
      var key := RequestIdentity.NormalizedKey(a.key).value;
      var steps := Planner.Steps(item, a.ctx, a.inputs, a.classified, s.nextId + 1, s.clock);
      LastStepBringsTheDraft(item, a.ctx, a.inputs, a.classified, s.nextId + 1, s.clock);
      StoringTells(s, item, Planner.WorkTypeFor(item, a.classified), steps,
                   Planner.Escalates(item, a.inputs, a.classified), key,
                   if key.Some? then Some(PlanningFingerprint(a.inputs, a.ctx.role, a.ctx.isAdmin)) else None, a);
    }
  }

  lemma {:induction false} NoPlanYet(s: State)
    requires Inv(s)
    ensures s.nextId !in s.plans
  {
    assert s.nextId in s.plans ==> PlanOk(s, s.nextId);
  }

  /** The events of the steps of a plan, of which the last alone may have rows. */
  lemma {:induction false} StepEventsOfShortPlans(config: Config, item: WorkItem, steps: seq<ActionStep>)
    requires 1 <= |steps| <= 2
    requires |steps| == 2 ==> DraftTypeFor(steps[0].action).None? && !steps[0].requiresApproval
    ensures var last := steps[|steps| - 1];
            StepEvents(config, item, steps)
            == (if NeedsDraft(last) then FanOut(config, item, DraftCreated) else [])
               + (if last.requiresApproval then FanOut(config, item, ApprovalRequested) else [])
  {
    hide FanOut;
    assert steps[..|steps| - 1] == if |steps| == 1 then [] else [steps[0]];
    if |steps| == 2 {
      assert [steps[0]][..0] == [];
      assert StepEvents(config, item, [steps[0]]) == [];
    }
  }

  lemma {:induction false} StoredTrail(s: State, item: WorkItem, kind: WorkType, steps: seq<ActionStep>,
                                       escalated: bool, key: Option<string>, fingerprint: Option<Fingerprint>)
    ensures var t := StorePlan(s, item, kind, steps, escalated, key, fingerprint);
            && t.events == s.events + FanOut(s.config, item, PlanGenerated) + StepEvents(s.config, item, steps)
                           + (if escalated then FanOut(s.config, item, WorkflowEscalated) else [])
            && t.runs == s.runs + (if s.config.recordsRuns then [PlanRun(item.id, s.nextId)] else [])
  {
    hide DraftRows, ApprovalRows, StepEvents, FanOut;
  }

  /** The deeds of a new plan whose last step may bring a draft and an approval. */
  function PlanDeeds(drafted: bool, asked: bool, escalated: bool): seq<EventKind> {
    [PlanGenerated] + When(drafted, DraftCreated) + When(asked, ApprovalRequested) + When(escalated, WorkflowEscalated)
  }

  lemma {:induction false} PlanDeedsTold(config: Config, item: WorkItem, drafted: bool, asked: bool, escalated: bool)
    ensures Told(config, item, PlanDeeds(drafted, asked, escalated))
            == FanOut(config, item, PlanGenerated) + (if drafted then FanOut(config, item, DraftCreated) else [])
               + (if asked then FanOut(config, item, ApprovalRequested) else [])
               + (if escalated then FanOut(config, item, WorkflowEscalated) else [])
  {
    hide FanOut, Told;
    var first := [PlanGenerated];
    var second := first + When(drafted, DraftCreated);
    var third := second + When(asked, ApprovalRequested);
    ToldOnce(config, item, PlanGenerated);
    ToldWhen(config, item, first, drafted, DraftCreated);
    ToldWhen(config, item, second, asked, ApprovalRequested);
    ToldWhen(config, item, third, escalated, WorkflowEscalated);
  }

  lemma {:induction false} Regrouped(log: seq<Event>, a: seq<Event>, b: seq<Event>, c: seq<Event>, d: seq<Event>)
    ensures log + a + (b + c) + d == log + (a + b + c + d)
  {
  }

  /** The events of a new plan are those of its deeds. */
  lemma {:induction false} PlanEventsTold(s: State, item: WorkItem, kind: WorkType, steps: seq<ActionStep>,
                                          escalated: bool, key: Option<string>, fingerprint: Option<Fingerprint>)
    requires 1 <= |steps| <= 2
    requires |steps| == 2 ==> DraftTypeFor(steps[0].action).None? && !steps[0].requiresApproval
    ensures var t := StorePlan(s, item, kind, steps, escalated, key, fingerprint);
            var last := steps[|steps| - 1];
            t.events == s.events + Told(s.config, item, PlanDeeds(NeedsDraft(last), last.requiresApproval, escalated))
  {
    hide FanOut, Told, StepEvents, NeedsDraft, StorePlan, PlanDeeds;
    StoredTrail(s, item, kind, steps, escalated, key, fingerprint);
    StepEventsOfShortPlans(s.config, item, steps);
    var last := steps[|steps| - 1];
    PlanDeedsTold(s.config, item, NeedsDraft(last), last.requiresApproval, escalated);
    Regrouped(s.events, FanOut(s.config, item, PlanGenerated),
              if NeedsDraft(last) then FanOut(s.config, item, DraftCreated) else [],
              if last.requiresApproval then FanOut(s.config, item, ApprovalRequested) else [],
              if escalated then FanOut(s.config, item, WorkflowEscalated) else []);
  }

  lemma {:induction false} StoringTells(s: State, item: WorkItem, kind: WorkType, steps: seq<ActionStep>,
                                        escalated: bool, key: Option<string>, fingerprint: Option<Fingerprint>,
                                        a: Action)
    requires a.PlansItem? && a.itemId == item.id && s.nextId !in s.plans && 1 <= |steps| <= 2
    requires |steps| == 2 ==> DraftTypeFor(steps[0].action).None? && !steps[0].requiresApproval
    ensures Tells(s, StorePlan(s, item, kind, steps, escalated, key, fingerprint), a)
  {
    hide FanOut, Told, DraftRows, ApprovalRows, StepEvents, NeedsDraft, StorePlan, PlanDeeds, Deeds;
    StoredTrail(s, item, kind, steps, escalated, key, fingerprint);
    StoredPlan(s, item, kind, steps, escalated, key, fingerprint);
    PlanEventsTold(s, item, kind, steps, escalated, key, fingerprint);
    var t := StorePlan(s, item, kind, steps, escalated, key, fingerprint);
    var after, last := t.items[item.id], steps[|steps| - 1];
    RowsOfShortPlans(item, steps, s.nextId + 1 + |steps|);
    SameTold(s.config, item, after, PlanDeeds(NeedsDraft(last), last.requiresApproval, escalated));
    DeedsOfPlan(s, t, a, NeedsDraft(last), last.requiresApproval, escalated);
  }

  lemma {:induction false} DeedsOfPlan(s: State, t: State, a: Action, drafted: bool, asked: bool, escalated: bool)
    requires a.PlansItem? && s.nextId !in s.plans && s.nextId in t.plans && t.plans[s.nextId].escalated == escalated
    requires |t.drafts| > |s.drafts| <==> drafted
    requires |t.approvals| > |s.approvals| <==> asked
    ensures Deeds(s, t, a) == PlanDeeds(drafted, asked, escalated) && Deeds(s, t, a) != []
  {
  }

  lemma {:induction false} SameTold(config: Config, a: WorkItem, b: WorkItem, deeds: seq<EventKind>)
    requires a.id == b.id && a.linkedDocuments == b.linkedDocuments
    ensures Told(config, a, deeds) == Told(config, b, deeds)
  {
    hide FanOut;
    if deeds != [] {
      SameTold(config, a, b, deeds[..|deeds| - 1]);
      SameFanOut(config, a, b, deeds[|deeds| - 1]);
    }
  }

  lemma {:induction false} ToldWhen(config: Config, item: WorkItem, deeds: seq<EventKind>, happened: bool,
                                    kind: EventKind)
    ensures Told(config, item, deeds + When(happened, kind))
              == Told(config, item, deeds) + (if happened then FanOut(config, item, kind) else [])
  {
    if happened {
      ToldTwice(config, item, deeds, kind);
    } else {
      assert deeds + [] == deeds;
    }
  }

  function MarkedUnknown(s: State, item: WorkItem): State {
    var marked := item.AttachContext(ExecutionOutcomeKey, OutcomeText(Unknown), s.clock).(status := ItemAwaitingHuman);
    Recorded(SaveItem(s, marked), marked, ExecutionOutcomeUnknown)
  }

  /** What a holder's calls do, in terms of whether it is active. */
  lemma {:induction false} HolderActs(s: State, r: Reservation, success: bool, ctx: SecurityContext)
    requires Inv(s) && GrantedReservation(s, r)
    ensures r.itemId in s.items && s.items[r.itemId].id == r.itemId
    ensures var item := s.items[r.itemId];
            && Renew(s, r, ctx).0 == (if Active(s, r.token, ctx)
                                         && item.Get(ExecutionOutcomeKey) == Some(OutcomeText(InFlight))
                                      then SaveItem(s, item.AttachContext(ExecutionHeartbeatAt, InstantText(s.clock),
                                                                          s.clock))
                                      else s)
            && (Finalize(s, r, success, ctx).1 == Ok(ToolResponse(success)) <==> Active(s, r.token, ctx))
            && (!Active(s, r.token, ctx) ==> Finalize(s, r, success, ctx).0 == s && MarkUnknown(s, r, ctx).0 == s)
            && (Active(s, r.token, ctx) ==> MarkUnknown(s, r, ctx).0 == MarkedUnknown(s, item))
  {
    hide Inv, Settle, ReservationMatches, Recorded, WorkItem.ExecutionPending;
    GrantedIsPlaced(s, r, ctx);
    ActiveIffExecuting(s, r);
    InvParts(s);
  }

  lemma {:induction false} MarkingTells(s: State, item: WorkItem)
    requires item.id in s.items
    ensures var t := MarkedUnknown(s, item);
            && item.id in t.items && t.runs == s.runs
            && t.events == s.events + FanOut(s.config, t.items[item.id], ExecutionOutcomeUnknown)
  {
    hide FanOut;
  }

  lemma {:induction false} SettlingTells(s: State, item: WorkItem, plan: TaskPlan, k: nat, succeeded: bool,
                                         kind: EventKind)
    requires k < |plan.steps|
    ensures var t := Settle(s, item, plan, k, succeeded, kind);
            && item.id in t.items && t.runs == s.runs
            && t.events == s.events + FanOut(s.config, t.items[item.id], kind)
  {
    hide FanOut;
  }

  lemma {:induction false} HoldingTells(s: State, a: Action)
    requires Inv(s) && (a.Renews? || a.MarksUnknown?)
    ensures Tells(s, Apply(s, a), a)
  {
    hide Inv, FanOut, Renew, MarkUnknown, Finalize, Told, Apply, MarkedUnknown, WellPlaced, StepStatus;
    var t := Apply(s, a);
    assert s.runs + [] == s.runs;
    if a.token in s.attempts {
      var r := s.attempts[a.token].reservation;
      GrantedToken(s, a.token);
      TokenIsOwn(s, a.token);
      HolderApplies(s, r, true, a.ctx);
      HolderActs(s, r, true, a.ctx);
      if a.MarksUnknown? && Active(s, a.token, a.ctx) {
        MarkingTells(s, s.items[r.itemId]);
        ToldOnce(s.config, t.items[r.itemId], ExecutionOutcomeUnknown);
      }
    } else {
      UnknownTokenDoesNothing(s, a);
    }
  }

  lemma {:induction false} TokenIsOwn(s: State, token: Id)
    requires Inv(s) && token in s.attempts
    ensures s.attempts[token].reservation.token == token
  {
    assert AttemptOk(s, token);
  }

  lemma {:induction false} UnknownTokenDoesNothing(s: State, a: Action)
    requires (a.Renews? || a.MarksUnknown? || a.Finalizes?) && a.token !in s.attempts
    ensures Apply(s, a) == s
  {
    hide Renew, MarkUnknown, Finalize, CreateItem, PlanItem, Reserve, Reconcile, UpdateItem, RequestCorrection,
         SubmitCorrection, Escalate, RegenerateDraft, Approve, Reject, Starting.CallTool, UploadDocument, MoveDocument;
  }

  lemma {:induction false} FinalizedTrail(s: State, r: Reservation, success: bool, ctx: SecurityContext)
    requires Inv(s) && GrantedReservation(s, r)
    ensures var t := Finalize(s, r, success, ctx).0;
            if Active(s, r.token, ctx) then
              && r.itemId in t.items && t.runs == NotedRun(s, r, success).runs
              && t.events == s.events + FanOut(s.config, t.items[r.itemId],
                                               if success then ActionExecuted else ActionFailed)
            else t == s
  {
    hide Inv, FanOut, Renew, MarkUnknown, Finalize, MarkedUnknown, WellPlaced, StepStatus, Settle, Held, PlanOk,
         HistoryOk, DraftsOk;
    HolderActs(s, r, success, ctx);
    Verdicts.Parts(s);
    Verdicts.FinalizingSettles(s, r, success, ctx);
    if Active(s, r.token, ctx) {
      SettlingTells(NotedRun(s, r, success), s.items[r.itemId], s.plans[r.planId], Held(s, r, ctx).value.1, success,
                    if success then ActionExecuted else ActionFailed);
    }
  }

  lemma {:induction false} FinalizingTells(s: State, a: Action)
    requires Inv(s) && a.Finalizes?
    ensures Tells(s, Apply(s, a), a)
  {
    hide Inv, FanOut, Renew, MarkUnknown, Finalize, Told, Apply, Active;
    var t := Apply(s, a);
    assert s.runs + [] == s.runs;
    if a.token in s.attempts {
      var r := s.attempts[a.token].reservation;
      GrantedToken(s, a.token);
      TokenIsOwn(s, a.token);
      HolderApplies(s, r, a.success, a.ctx);
      FinalizedTrail(s, r, a.success, a.ctx);
      if Active(s, a.token, a.ctx) {
        ToldOnce(s.config, t.items[r.itemId], if a.success then ActionExecuted else ActionFailed);
      }
    } else {
      UnknownTokenDoesNothing(s, a);
      UnknownTokenIsIdle(s, a.token, a.ctx);
    }
  }

  lemma {:induction false} UnknownTokenIsIdle(s: State, token: Id, ctx: SecurityContext)
    requires token !in s.attempts
    ensures !Active(s, token, ctx)
  {
  }

  lemma {:induction false} ReconcilingTells(s: State, a: Action)
    requires Inv(s) && a.Reconciles?
    ensures Tells(s, Apply(s, a), a)
  {
    hide Inv, FanOut, Told, Apply, Reconcile, Settling.After;
    ReconcilingApplies(s, a);
    var (t, reply) := Reconcile(s, a.itemId, a.stepId, a.ctx, a.succeeded, a.summary);
    var kind := if a.succeeded then ReconciledSucceeded else ReconciledFailed;
    assert s.runs + [] == s.runs;
    ReconcileSteps(s, a.itemId, a.stepId, a.ctx, a.succeeded, a.summary);
    if t != s {
      var p: Id, k: nat :| Running(s, a.itemId, p, k) && t == Settling.After(s, a.itemId, p, k, a.succeeded, kind);
      VerdictTells(s, a.itemId, p, k, a.succeeded, kind);
      ToldOnce(s.config, t.items[a.itemId], kind);
    }
  }

  lemma {:induction false} VerdictTells(s: State, i: Id, p: Id, k: nat, succeeded: bool, kind: EventKind)
    requires Inv(s) && Running(s, i, p, k)
    ensures var t := Settling.After(s, i, p, k, succeeded, kind);
            && i in t.items && t.runs == s.runs && t.plans != s.plans
            && t.events == s.events + FanOut(s.config, t.items[i], kind)
  {
    hide FanOut;
    assert PlanOk(s, p) && s.items[i].id == i;
    var t := Settling.After(s, i, p, k, succeeded, kind);
    assert t.plans[p].steps[k].status != s.plans[p].steps[k].status;
  }

  lemma {:induction false} ReconcilingApplies(s: State, a: Action)
    requires a.Reconciles?
    ensures Apply(s, a) == Reconcile(s, a.itemId, a.stepId, a.ctx, a.succeeded, a.summary).0
  {
    hide Reconcile;
  }

  lemma {:induction false} CallingTells(s: State, a: Action)
    requires a.CallsTool? || a.TimePasses? || a.DocumentArrives? || a.DocumentMoves?
    ensures Tells(s, Apply(s, a), a)
  {
    hide CreateItem, PlanItem, Reserve, Renew, MarkUnknown, Finalize, Reconcile, UpdateItem, RequestCorrection,
         SubmitCorrection, Escalate, RegenerateDraft, Approve, Reject, UploadDocument, MoveDocument;
    assert s.runs + [] == s.runs;
    if a.DocumentArrives? || a.DocumentMoves? {
      DocumentsMoveAlone(s, a);
    }
  }

  // ------------------------------------------------------------ every action, every run

  /** Every action of every actor logs exactly the events that stand for what it changed, of the
      item it is about, and notes exactly its agent run. */
  lemma {:induction false} ActionTells(s: State, a: Action)
    requires Inv(s)
    ensures Tells(s, Apply(s, a), a)
  {
    hide Inv, Tells, Apply, ItemsOk;
    InvParts(s);
    match a {
      case EditsItem(_, _, _, _, _, _, _) => EditingTells(s, a);
      case AsksCorrection(_, _, _) => AskingTells(s, a);
      case SubmitsCorrection(_, _, _) => SubmittingTells(s, a);
      case EscalatesItem(_, _) => EscalatingTells(s, a);
      case CreatesItem(_, _, _, _, _, _) => CreatingTells(s, a);
      case PlansItem(_, _, _, _, _) => PlanningTells(s, a);
      case RegeneratesDraft(_, _, _) => RegeneratingTells(s, a);
      case Approves(_, _, _) => DecidingTells(s, a);
      case Rejects(_, _, _) => DecidingTells(s, a);
      case Reserves(_, _, _) => ReservingTells(s, a);
      case Renews(_, _) => HoldingTells(s, a);
      case MarksUnknown(_, _) => HoldingTells(s, a);
      case Finalizes(_, _, _) => FinalizingTells(s, a);
      case Reconciles(_, _, _, _, _) => ReconcilingTells(s, a);
      case _ => CallingTells(s, a);
    }
  }

  lemma {:induction false} ToldKinds(config: Config, item: WorkItem, deeds: seq<EventKind>, n: nat)
    requires n < |Told(config, item, deeds)|
    ensures Told(config, item, deeds)[n].kind in deeds && Told(config, item, deeds)[n].itemId == item.id
  {
    hide FanOut;
    var front := deeds[..|deeds| - 1];
    if n < |Told(config, item, front)| {
      ToldKinds(config, item, front, n);
    } else {
      FanOutIs(config, item, deeds[|deeds| - 1]);
    }
  }

  /** Hence every event of a run goes back to an action of the run that did what it says. */
  lemma {:induction false} EventHasItsAction(start: State, actions: seq<Action>, n: nat) returns (c: nat)
    requires Initial(start) && n < |RunFrom(start, actions).events|
    ensures c < |actions|
    ensures var s, t, event := RunFrom(start, actions[..c]), RunFrom(start, actions[..c + 1]),
                               RunFrom(start, actions).events[n];
            && t == Apply(s, actions[c]) && |s.events| <= n < |t.events|
            && event.kind in Deeds(s, t, actions[c]) && About(s, actions[c]) == Some(event.itemId)
  {
    hide Inv, Evolves, Apply, Deeds, About, RunNotes;
    InitialInv(start);
    assert actions != [];
    var last := |actions| - 1;
    var before := RunFrom(start, actions[..last]);
    RunKeepsInv(start, actions[..last]);
    ActionTells(before, actions[last]);
    assert actions[..last + 1] == actions;
    if n < |before.events| {
      c := EventHasItsAction(start, actions[..last], n);
      assert actions[..last][..c] == actions[..c] && actions[..last][..c + 1] == actions[..c + 1];
    } else {
      c := last;
      var deeds := Deeds(before, RunFrom(start, actions), actions[last]);
      var item := RunFrom(start, actions).items[About(before, actions[last]).value];
      ToldKinds(before.config, item, deeds, n - |before.events|);
      ActionKeepsInv(before, actions[last]);
      ItemIsFiled(RunFrom(start, actions), About(before, actions[last]).value);
    }
  }

  lemma {:induction false} ItemIsFiled(s: State, i: Id)
    requires Inv(s) && i in s.items
    ensures s.items[i].id == i
  {
  }
}
