/** What the callers of the workflow are told, answer by answer. */
module Replies {
  import opened Basics
  import opened Documents
  import opened Models
  import opened Protocol
  import opened Invariant
  import opened Evolution
  import opened Runs
  import opened Fencing
  import opened ExecutionGuarantees
  import opened ReservationGuarantees
  import opened RecoveryGuarantees
  import opened PlanningGuarantees
  import AuditTrail
  import Planner
  import RequestIdentity

  // ------------------------------------------------------------ reserving

  /** A step that was never started and not blocked. */
  predicate Untouched(step: ActionStep) {
    step.status == Planned || step.status == WaitingForApproval || step.status == StepApproved
  }

  ghost predicate ApprovedOrFree(s: State, step: ActionStep) {
    step.requiresApproval ==> GrantedFor(s, step.id)
  }

  predicate HasTool(step: ActionStep) {
    step.action == ProcessDocument || step.action == ExportApprovedInvoice
  }

  predicate GuardedExport(s: State, step: ActionStep) {
    step.action == ExportApprovedInvoice && s.config.guardsExports
  }

  predicate FirstDocumentIsThere(s: State, item: WorkItem) {
    item.linkedDocuments != [] && item.linkedDocuments[0] in s.documents
    && s.documents[item.linkedDocuments[0]].workspace == item.workspace
  }

  /** The answer of the checks, in terms of the state alone. Each answer has one exact
      condition, and the conditions exclude one another. */
  lemma {:induction false} CheckAnswers(s: State, i: Id, p: Id, k: nat)
    requires Inv(s) && i in s.items && s.items[i].currentPlan == Some(p) && p in s.plans && k < |s.plans[p].steps|
    ensures var item, step := s.items[i], s.plans[p].steps[k];
            var check := ExecutionCheck(s, item, step);
            var open := Untouched(step) && ApprovedOrFree(s, step);
            var able := open && HasTool(step) && s.config.hasExecutor;
            && (check == Ok(Answer(AlreadyExecuted)) <==> step.status == Executed)
            && (check == Ok(Answer(BlockedReply(OutcomeUnreconciled))) <==> step.status == Executing)
            && (check == Ok(Answer(BlockedReply(StepNotRunnable))) <==> step.status == Blocked || step.status == Failed)
            && (check == Ok(Answer(BlockedReply(ApprovalMissing))) <==> Untouched(step) && !ApprovedOrFree(s, step))
            && (check == Ok(Answer(BlockedReply(NoToolForAction))) <==> open && !HasTool(step))
            && (check == Ok(Answer(BlockedReply(NoExecutor))) <==> open && HasTool(step) && !s.config.hasExecutor)
            && (check == Ok(Answer(BlockedReply(ExportNeedsDocument))) <==>
                  able && GuardedExport(s, step) && item.linkedDocuments == [])
            && (check == Raised(NotFound) <==>
                  able && GuardedExport(s, step) && item.linkedDocuments != [] && !FirstDocumentIsThere(s, item))
            && (check == Ok(Answer(BlockedReply(ExportNeedsApproval))) <==>
                  able && GuardedExport(s, step) && FirstDocumentIsThere(s, item)
                  && s.documents[item.linkedDocuments[0]].status != DocumentApproved)
            && (check == Ok(Proceed) <==> able && (GuardedExport(s, step) ==> ExportReady(s, item)))
  {
    hide Inv, ApprovedFor, GrantedFor;
    ItemFacts(s, i, p);
    if s.plans[p].steps[k].requiresApproval {
      GrantIsForItem(s, i, p, k);
    }
  }

  lemma {:induction false} ItemFacts(s: State, i: Id, p: Id)
    requires Inv(s) && i in s.items && s.items[i].currentPlan == Some(p)
    ensures s.items[i].id == i && p in s.plans && s.plans[p].itemId == i && PlanOk(s, p)
  {
  }

  /** The answer to a request for a step of the current plan is that of the checks, and a
      request that is not granted changes nothing. */
  lemma {:induction false} ReserveAnswers(s: State, i: Id, p: Id, k: nat, ctx: SecurityContext)
    requires Inv(s) && i in s.items && s.items[i].workspace == ctx.workspace
    requires s.items[i].currentPlan == Some(p) && p in s.plans && k < |s.plans[p].steps|
    ensures var (t, reply) := Reserve(s, i, s.plans[p].steps[k].id, ctx);
            match ExecutionCheck(s, s.items[i], s.plans[p].steps[k])
            case Raised(e) => reply == Raised(e) && t == s
            case Ok(Answer(answer)) => reply == Ok(Answered(answer)) && t == s
            case Ok(Proceed) => reply.Ok? && reply.value.Granted?
  {
    hide Inv, ExecutionCheck, FindStep, StartExecution;
    StepIsFound(s, p, k, s.plans[p].steps[k].id);
  }

  /** How a request for step `k` of the item's current plan is answered, in every reachable
      state: one exact condition for each answer, and no change unless it is granted. */
  lemma {:induction false} RequestIsAnswered(s: State, i: Id, p: Id, k: nat, ctx: SecurityContext)
    requires Reachable(s) && i in s.items && s.items[i].workspace == ctx.workspace
    requires s.items[i].currentPlan == Some(p) && p in s.plans && k < |s.plans[p].steps|
    ensures var item, step := s.items[i], s.plans[p].steps[k];
            var (t, reply) := Reserve(s, i, step.id, ctx);
            var open := Untouched(step) && ApprovedOrFree(s, step);
            var able := open && HasTool(step) && s.config.hasExecutor;
            && (reply == Ok(Answered(AlreadyExecuted)) <==> step.status == Executed)
            && (reply == Ok(Answered(BlockedReply(OutcomeUnreconciled))) <==> step.status == Executing)
            && (reply == Ok(Answered(BlockedReply(StepNotRunnable))) <==>
                  step.status == Blocked || step.status == Failed)
            && (reply == Ok(Answered(BlockedReply(ApprovalMissing))) <==>
                  Untouched(step) && !ApprovedOrFree(s, step))
            && (reply == Ok(Answered(BlockedReply(NoToolForAction))) <==> open && !HasTool(step))
            && (reply == Ok(Answered(BlockedReply(NoExecutor))) <==> open && HasTool(step) && !s.config.hasExecutor)
            && (reply == Ok(Answered(BlockedReply(ExportNeedsDocument))) <==>
                  able && GuardedExport(s, step) && item.linkedDocuments == [])
            && (reply == Raised(NotFound) <==>
                  able && GuardedExport(s, step) && item.linkedDocuments != [] && !FirstDocumentIsThere(s, item))
            && (reply == Ok(Answered(BlockedReply(ExportNeedsApproval))) <==>
                  able && GuardedExport(s, step) && FirstDocumentIsThere(s, item)
                  && s.documents[item.linkedDocuments[0]].status != DocumentApproved)
            && (reply.Ok? && reply.value.Granted? <==> able && (GuardedExport(s, step) ==> ExportReady(s, item)))
            && (reply.Raised? || reply.value.Answered? ==> t == s)
  {
    hide Inv, Reachable, ExecutionCheck, Reserve, Untouched, ApprovedOrFree, HasTool, GuardedExport,
         FirstDocumentIsThere, ExportReady;
    ReachableInv(s);
    CheckAnswers(s, i, p, k);
    ReserveAnswers(s, i, p, k, ctx);
  }

  /** When a request does not get as far as a step of the current plan. */
  lemma {:induction false} RequestFindsNoStep(s: State, i: Id, stepId: Id, ctx: SecurityContext)
    requires Reachable(s)
    ensures var (t, reply) := Reserve(s, i, stepId, ctx);
            && (!(i in s.items && s.items[i].workspace == ctx.workspace) ==> reply == Raised(NotFound) && t == s)
            && (i in s.items && s.items[i].workspace == ctx.workspace ==>
                  && (reply == Raised(WorkflowError(NoCurrentPlan)) <==> s.items[i].currentPlan.None?)
                  && (s.items[i].currentPlan.Some? ==>
                        && s.items[i].currentPlan.value in s.plans
                        && ((forall k :: 0 <= k < |s.plans[s.items[i].currentPlan.value].steps| ==>
                               s.plans[s.items[i].currentPlan.value].steps[k].id != stepId) ==>
                              reply == Raised(NotFound) && t == s)))
  {
    hide Inv, Reachable, ExecutionCheck, StartExecution, FindStep;
    ReachableInv(s);
    if i in s.items && s.items[i].currentPlan.Some? {
      ItemFacts(s, i, s.items[i].currentPlan.value);
      var p := s.items[i].currentPlan.value;
      if ItemFor(s, i, ctx).Ok? && FindStep(s.plans[p].steps, stepId).Some? {
        CheckNeverSaysNoPlan(s, s.items[i], s.plans[p].steps[FindStep(s.plans[p].steps, stepId).value]);
      }
    }
  }

  lemma {:induction false} CheckNeverSaysNoPlan(s: State, item: WorkItem, step: ActionStep)
    ensures ExecutionCheck(s, item, step) != Raised(WorkflowError(NoCurrentPlan))
  {
  }

  /** Idempotent execution. A step that was executed, or failed, stays so; whenever its plan is
      still the current one, requesting it again says that it was executed, or that it cannot
      run, and changes nothing. */
  lemma {:induction false} SettledStepIsReplayed(s: State, p: Id, k: nat, later: seq<Action>, ctx: SecurityContext)
    requires Reachable(s) && p in s.plans && k < |s.plans[p].steps|
    requires s.plans[p].steps[k].status == Executed || s.plans[p].steps[k].status == Failed
    ensures var u := RunFrom(s, later);
            var i, stepId := s.plans[p].itemId, s.plans[p].steps[k].id;
            i in u.items && u.items[i].workspace == ctx.workspace && u.items[i].currentPlan == Some(p) ==>
              Reserve(u, i, stepId, ctx)
              == (u, Ok(Answered(if s.plans[p].steps[k].status == Executed then AlreadyExecuted
                                 else BlockedReply(StepNotRunnable))))
  {
    hide Inv, Reachable, RunFrom, Evolves, Reserve, Untouched, ApprovedOrFree, HasTool, GuardedExport,
         FirstDocumentIsThere, ExportReady;
    var u := RunFrom(s, later);
    var i := s.plans[p].itemId;
    ReachableInv(s);
    RunKeepsInv(s, later);
    StepStays(s, u, p, k);
    if i in u.items && u.items[i].workspace == ctx.workspace && u.items[i].currentPlan == Some(p) {
      ReachableRuns(s, later);
      RequestIsAnswered(u, i, p, k, ctx);
    }
  }

  lemma {:induction false} StepStays(s: State, t: State, p: Id, k: nat)
    requires Evolves(s, t) && p in s.plans && k < |s.plans[p].steps|
    requires s.plans[p].steps[k].status == Executed || s.plans[p].steps[k].status == Failed
    ensures p in t.plans && k < |t.plans[p].steps| && t.plans[p].steps[k].id == s.plans[p].steps[k].id
    ensures t.plans[p].steps[k].status == s.plans[p].steps[k].status
  {
    assert PlanEvolves(s.plans[p], t.plans[p]);
    assert StepEvolves(s.plans[p].steps[k], t.plans[p].steps[k]);
  }

  // ------------------------------------------------------------ reconciling

  /** An outcome may be settled by hand if it is unknown, or if its heartbeat is 300 s old. */
  predicate Overdue(item: WorkItem, now: Time) {
    || item.Get(ExecutionOutcomeKey) == Some(OutcomeText(Unknown))
    || (item.Get(ExecutionHeartbeatAt).Some? && item.Get(ExecutionHeartbeatAt).value.InstantText?
        && now >= item.Get(ExecutionHeartbeatAt).value.at + 300_000_000)
  }

  /** A summary has words if and only if stripping leaves something of it. */
  lemma {:induction false} WordsAreWhatStrippingLeaves(summary: string)
    ensures HasWords(summary) <==> RequestIdentity.Strip(summary) != []
  {
    hide RequestIdentity.IsSpace, RequestIdentity.Strip;
    var n := RequestIdentity.StripTrims(summary);
    var r := RequestIdentity.Strip(summary);
    if r != [] {
      assert summary[n] == r[0];
    } else {
      forall m | 0 <= m < |summary| ensures RequestIdentity.IsSpace(summary[m]) {
        assert m < n ==> summary[..n][m] == summary[m];
        assert m >= n ==> summary[n..][m - n] == summary[m];
      }
    }
  }

  /** How a reconciliation of step `k` of a plan of the item is answered, in every reachable
      state. Neither the target test nor the plan lookup ever raises. */
  lemma {:induction false} ReconciliationIsAnswered(s: State, i: Id, p: Id, k: nat, ctx: SecurityContext,
                                                    succeeded: bool, summary: string)
    requires Reachable(s) && i in s.items && s.items[i].workspace == ctx.workspace
    requires p in s.plans && s.plans[p].itemId == i && k < |s.plans[p].steps|
    ensures var item, status := s.items[i], s.plans[p].steps[k].status;
            var (t, reply) := Reconcile(s, i, s.plans[p].steps[k].id, ctx, succeeded, summary);
            && (!HasWords(summary) ==> reply == Raised(WorkflowError(SummaryRequired)))
            && (HasWords(summary) ==>
                  && (status == Executed ==>
                        reply == if succeeded then Ok(item) else Raised(WorkflowError(SuccessIsFinal)))
                  && (status == Failed ==>
                        reply == if succeeded then Raised(WorkflowError(FailureIsFinal)) else Ok(item))
                  && (status == Executing && !Overdue(item, s.clock) ==>
                        reply == Raised(WorkflowError(ExecutionStillActive)))
                  && (status == Executing && Overdue(item, s.clock) ==> reply.Ok?)
                  && (status != Executed && status != Failed && status != Executing ==>
                        reply == Raised(WorkflowError(NothingToReconcile))))
            && (t != s <==> HasWords(summary) && status == Executing && Overdue(item, s.clock))
  {
    hide Inv, Reachable, HasWords, PlanContainingStep, FindStep, Settle, SettledItem;
    ReachableInv(s);
    LookupFindsThePlan(s, i, p, k);
    if s.plans[p].steps[k].status == Executing {
      ExecutingIsRunning(s, p, k);
      SettlingChangesThePlan(s, p, k, succeeded);
    }
  }

  lemma {:induction false} ExecutingIsRunning(s: State, p: Id, k: nat)
    requires Inv(s) && p in s.plans && k < |s.plans[p].steps| && s.plans[p].steps[k].status == Executing
    ensures Running(s, s.plans[p].itemId, p, k)
  {
    assert Justified(s, p, k);
  }

  lemma {:induction false} SettlingChangesThePlan(s: State, p: Id, k: nat, succeeded: bool)
    requires Inv(s) && p in s.plans && k < |s.plans[p].steps| && s.plans[p].itemId in s.items
    requires s.plans[p].steps[k].status == Executing
    ensures s.plans[p].id == p
    ensures Settle(s, s.items[s.plans[p].itemId], s.plans[p], k, succeeded,
                   if succeeded then ReconciledSucceeded else ReconciledFailed) != s
  {
    assert PlanOk(s, p);
  }

  /** What reconciliation makes of any item at all, reachable or not, whose step is executing: it
      insists on the target, and then on an outcome that is unknown, or in flight without a
      heartbeat, or in flight with one that is 300 s old. */
  lemma {:induction false} AnyReconciliation(s: State, i: Id, stepId: Id, ctx: SecurityContext, succeeded: bool,
                                             summary: string)
    requires i in s.items && s.items[i].workspace == ctx.workspace && HasWords(summary)
    requires PlanContainingStep(s, s.items[i], stepId).Ok?
    requires var p := PlanContainingStep(s, s.items[i], stepId).value;
             s.plans[p].id == p && s.plans[p].steps[FindStep(s.plans[p].steps, stepId).value].status == Executing
    ensures var item, p := s.items[i], PlanContainingStep(s, s.items[i], stepId).value;
            var reply := Reconcile(s, i, stepId, ctx, succeeded, summary).1;
            var heartbeat := item.Get(ExecutionHeartbeatAt);
            var target := item.Get(ExecutionPlanId) == Some(UuidText(p))
                          && item.Get(ExecutionStepId) == Some(UuidText(stepId));
            var over := || item.Get(ExecutionOutcomeKey) == Some(OutcomeText(Unknown))
                        || (item.Get(ExecutionOutcomeKey) == Some(OutcomeText(InFlight))
                            && (|| heartbeat.None? || heartbeat == Some(Text(""))
                                || (heartbeat.value.InstantText? && s.clock >= heartbeat.value.at + 300_000_000)));
            && (!target ==> reply == Raised(WorkflowError(TargetMismatch)))
            && (target && !over ==> reply == Raised(WorkflowError(ExecutionStillActive)))
            && (target && over ==> reply.Ok?)
  {
    hide HasWords, PlanContainingStep, FindStep, Settle, SettledItem;
  }

  /** What the lookup of the plan refuses, reachable or not: a name that is no identifier, a named
      plan that is not stored, and one that belongs elsewhere. */
  lemma {:induction false} NamedPlanMustBeOwn(s: State, item: WorkItem, stepId: Id)
    requires Truthy(item.Get(ExecutionPlanId))
    ensures var named, found := item.Get(ExecutionPlanId).value, PlanContainingStep(s, item, stepId);
            && (!named.UuidText? ==> found == Raised(WorkflowError(InvalidExecutionPlanId)))
            && (named.UuidText? && named.id !in s.plans ==> found == Raised(NotFound))
            && (named.UuidText? && named.id in s.plans
                && (s.plans[named.id].workspace != item.workspace || s.plans[named.id].itemId != item.id) ==>
                  found == Raised(WorkflowError(ForeignExecutionPlan)))
  {
  }

  // ------------------------------------------------------------ planning

  lemma {:induction false} EarlyRefusals(s: State, i: Id, ctx: SecurityContext, inputs: PlanningInput,
                                         classified: WorkType, rawKey: Option<string>)
    ensures var (t, reply) := PlanItem(s, i, ctx, inputs, classified, rawKey);
            var stripped := if rawKey.Some? then RequestIdentity.Strip(rawKey.value) else "";
            && (|stripped| > 200 ==> reply == Raised(WorkflowError(KeyTooLong)) && t == s)
            && (|stripped| <= 200 ==>
                  && RequestIdentity.NormalizedKey(rawKey) == Ok(if stripped == "" then None else Some(stripped))
                  && (!(i in s.items && s.items[i].workspace == ctx.workspace) ==> reply == Raised(NotFound) && t == s))
  {
    hide AddPlan, PlanResultFor, FindPlanByKey, RequestIdentity.Strip;
  }

  lemma {:induction false} FreshRequest(s: State, i: Id, ctx: SecurityContext, inputs: PlanningInput,
                                        classified: WorkType, rawKey: Option<string>)
    requires i in s.items && s.items[i].workspace == ctx.workspace && s.items[i].id == i && s.nextId !in s.plans
    requires RequestIdentity.NormalizedKey(rawKey).Ok?
    requires var key := RequestIdentity.NormalizedKey(rawKey).value;
             key.Some? ==> FindPlanByKey(s.plans, s.planOrder, ctx.workspace, i, key.value).None?
    ensures var (t, reply) := PlanItem(s, i, ctx, inputs, classified, rawKey);
            if s.items[i].ExecutionPending() then reply == Raised(WorkflowError(ExecutionPending)) && t == s
            else
              && reply.Ok? && reply.value.planId == s.nextId && s.nextId in t.plans
              && t.plans[s.nextId].idempotencyKey == RequestIdentity.NormalizedKey(rawKey).value
  {
    hide Planner.Steps, DraftRows, ApprovalRows, FanOut, StepEvents, PlanResultFor, RequestIdentity.NormalizedKey,
         FindPlanByKey;
  }

  ghost predicate IsBound(s: State, workspace: string, i: Id, key: string) {
    exists p :: p in s.plans && KeyedPlan(s.plans[p], workspace, i, key)
  }

  /** How a planning request is answered, in every reachable state: first the length of the key,
      then the item, then the plan that the key names, then a pending execution. */
  lemma {:induction false} PlanningIsAnswered(s: State, i: Id, ctx: SecurityContext, inputs: PlanningInput,
                                              classified: WorkType, rawKey: Option<string>)
    requires Reachable(s)
    ensures var (t, reply) := PlanItem(s, i, ctx, inputs, classified, rawKey);
            var stripped := if rawKey.Some? then RequestIdentity.Strip(rawKey.value) else "";
            var usable := |stripped| <= 200 && i in s.items && s.items[i].workspace == ctx.workspace;
            && (|stripped| > 200 ==> reply == Raised(WorkflowError(KeyTooLong)))
            && (|stripped| <= 200 && !usable ==> reply == Raised(NotFound))
            && (usable && stripped != "" && IsBound(s, ctx.workspace, i, stripped) ==>
                  && t == s
                  && forall p :: p in s.plans && KeyedPlan(s.plans[p], ctx.workspace, i, stripped) ==>
                       if s.plans[p].fingerprint == Some(PlanningFingerprint(inputs, ctx.role, ctx.isAdmin))
                       then reply.Ok? && reply.value.planId == p
                       else reply == Raised(WorkflowError(KeyBoundToOtherRequest)))
            && (usable && !(stripped != "" && IsBound(s, ctx.workspace, i, stripped)) ==>
                  if s.items[i].ExecutionPending() then reply == Raised(WorkflowError(ExecutionPending))
                  else
                    && reply.Ok? && reply.value.planId == s.nextId && s.nextId in t.plans && s.nextId !in s.plans
                    && t.plans[s.nextId].idempotencyKey == (if stripped == "" then None else Some(stripped)))
            && (reply.Raised? ==> t == s)
  {
    hide Inv, Reachable, PlanItem, KeyedPlan, PlanResultFor, RequestIdentity.Strip, RequestIdentity.NormalizedKey,
         FindPlanByKey, WorkItem.ExecutionPending;
    ReachableInv(s);
    KnownItems(s);
    AuditTrail.NoPlanYet(s);
    EarlyRefusals(s, i, ctx, inputs, classified, rawKey);
    var stripped := if rawKey.Some? then RequestIdentity.Strip(rawKey.value) else "";
    if |stripped| <= 200 && i in s.items && s.items[i].workspace == ctx.workspace {
      if stripped != "" && IsBound(s, ctx.workspace, i, stripped) {
        forall p | p in s.plans && KeyedPlan(s.plans[p], ctx.workspace, i, stripped)
          ensures PlanItem(s, i, ctx, inputs, classified, rawKey)
                  == (s, if s.plans[p].fingerprint == Some(PlanningFingerprint(inputs, ctx.role, ctx.isAdmin))
                         then Ok(PlanResultFor(s, s.items[i], s.plans[p], ctx.workspace))
                         else Raised(WorkflowError(KeyBoundToOtherRequest)))
          ensures PlanResultFor(s, s.items[i], s.plans[p], ctx.workspace).planId == p
        {
          KeyFindsItsPlan(s, p, ctx.workspace, i, stripped);
          KeyAnswers(s, p, i, ctx, inputs, classified, rawKey);
          ReplyNamesThePlan(s, i, p, ctx.workspace);
        }
      } else {
        if stripped != "" {
          UnboundFindsNothing(s, ctx.workspace, i, stripped);
        }
        FreshRequest(s, i, ctx, inputs, classified, rawKey);
      }
    }
  }

  lemma {:induction false} UnboundFindsNothing(s: State, workspace: string, i: Id, key: string)
    requires !IsBound(s, workspace, i, key)
    ensures FindPlanByKey(s.plans, s.planOrder, workspace, i, key).None?
  {
  }

  lemma {:induction false} ReplyNamesThePlan(s: State, i: Id, p: Id, workspace: string)
    requires Inv(s) && i in s.items && p in s.plans
    ensures PlanResultFor(s, s.items[i], s.plans[p], workspace).planId == p
  {
    PlanIsFiled(s, p);
  }

  lemma {:induction false} PlanIsFiled(s: State, p: Id)
    requires Inv(s) && p in s.plans
    ensures s.plans[p].id == p
  {
    assert PlanOk(s, p);
  }

  // ------------------------------------------------------------ creating and editing

  ghost predicate ItemBound(s: State, workspace: string, key: string) {
    exists i :: i in s.items && KeyedItem(s.items[i], workspace, key)
  }

  lemma {:induction false} KeyIsStripped(rawKey: Option<string>)
    ensures var stripped := if rawKey.Some? then RequestIdentity.Strip(rawKey.value) else "";
            RequestIdentity.NormalizedKey(rawKey)
            == if |stripped| > 200 then Raised(WorkflowError(KeyTooLong))
               else Ok(if stripped == "" then None else Some(stripped))
  {
    hide RequestIdentity.Strip;
  }

  lemma {:induction false} UnboundFindsNoItem(s: State, workspace: string, key: string)
    requires !ItemBound(s, workspace, key)
    ensures FindItemByKey(s.items, s.itemOrder, workspace, key).None?
  {
  }

  lemma {:induction false} StoredUnderTheKey(s: State, ctx: SecurityContext, title: string, workType: Option<WorkType>,
                                             documents: seq<Id>, context: map<ContextKey, ContextValue>,
                                             key: Option<string>, fingerprint: Fingerprint)
    ensures var t := StoreItem(s, ctx, title, workType, documents, context, key, fingerprint);
            && s.nextId in t.items && t.items == s.items[s.nextId := t.items[s.nextId]]
            && t.items[s.nextId].workspace == ctx.workspace && t.items[s.nextId].context == context
            && t.items[s.nextId].linkedDocuments == documents && t.items[s.nextId].title == title
            && t.items[s.nextId].idempotencyKey == key
  {
    hide FanOut;
  }

  /** How a request to create an item is answered, in every reachable state: a key of more than
      200 characters is refused; a key in use gives its item to the same request and is refused
      to any other; otherwise there is a new item under the key. */
  lemma {:induction false} CreationIsAnswered(s: State, ctx: SecurityContext, title: string, workType: Option<WorkType>,
                                              documents: seq<Id>, context: map<ContextKey, ContextValue>,
                                              rawKey: Option<string>)
    requires Reachable(s)
    ensures var (t, reply) := CreateItem(s, ctx, title, workType, documents, context, rawKey);
            var stripped := if rawKey.Some? then RequestIdentity.Strip(rawKey.value) else "";
            var same := Some(WorkItemFingerprint(title, workType, documents, context));
            && (|stripped| > 200 ==> reply == Raised(WorkflowError(KeyTooLong)) && t == s)
            && (|stripped| <= 200 && stripped != "" && ItemBound(s, ctx.workspace, stripped) ==>
                  && t == s
                  && forall i :: i in s.items && KeyedItem(s.items[i], ctx.workspace, stripped) ==>
                       reply == if s.items[i].fingerprint == same then Ok(i)
                                else Raised(WorkflowError(KeyBoundToOtherRequest)))
            && (|stripped| <= 200 && !(stripped != "" && ItemBound(s, ctx.workspace, stripped)) ==>
                  && reply == Ok(s.nextId) && s.nextId !in s.items && s.nextId in t.items
                  && t.items == s.items[s.nextId := t.items[s.nextId]]
                  && t.items[s.nextId].workspace == ctx.workspace && t.items[s.nextId].context == context
                  && t.items[s.nextId].linkedDocuments == documents && t.items[s.nextId].title == title
                  && t.items[s.nextId].idempotencyKey == (if stripped == "" then None else Some(stripped)))
  {
    hide Inv, Reachable, FindItemByKey, StoreItem, RequestIdentity.Strip, RequestIdentity.NormalizedKey;
    ReachableInv(s);
    ItemsAreOlder(s);
    KeyIsStripped(rawKey);
    var stripped := if rawKey.Some? then RequestIdentity.Strip(rawKey.value) else "";
    if |stripped| <= 200 {
      if stripped != "" && ItemBound(s, ctx.workspace, stripped) {
        forall i | i in s.items && KeyedItem(s.items[i], ctx.workspace, stripped)
          ensures FindItemByKey(s.items, s.itemOrder, ctx.workspace, stripped) == Some(i)
        {
          KeyFindsItsItem(s, i, ctx.workspace, stripped);
        }
      } else {
        if stripped != "" {
          UnboundFindsNoItem(s, ctx.workspace, stripped);
        }
        StoredUnderTheKey(s, ctx, title, workType, documents, context, if stripped == "" then None else Some(stripped),
                          WorkItemFingerprint(title, workType, documents, context));
      }
    }
  }

  lemma {:induction false} ItemsAreOlder(s: State)
    requires Inv(s)
    ensures s.nextId !in s.items
  {
  }

  /** Editing, asking for a correction, submitting one and escalating answer with the item of the
      caller's workspace, and find no other. */
  lemma {:induction false} EditsAreAnswered(s: State, i: Id, ctx: SecurityContext, title: Option<string>,
                                            priority: Option<WorkItemPriority>, assignee: Option<string>,
                                            outcome: Option<string>, tags: Option<seq<string>>, text: string)
    ensures var own := i in s.items && s.items[i].workspace == ctx.workspace;
            var answer := if own then Ok(i) else Raised(NotFound);
            && UpdateItem(s, i, ctx, title, priority, assignee, outcome, tags).1 == answer
            && RequestCorrection(s, i, ctx, text).1 == answer && SubmitCorrection(s, i, ctx, text).1 == answer
            && Escalate(s, i, ctx).1 == answer
            && (!own ==>
                  && UpdateItem(s, i, ctx, title, priority, assignee, outcome, tags).0 == s
                  && RequestCorrection(s, i, ctx, text).0 == s && SubmitCorrection(s, i, ctx, text).0 == s
                  && Escalate(s, i, ctx).0 == s)
  {
    hide EditedItem, Recorded, RequestIdentity.Strip, WorkItem.AttachContext;
  }

  // ------------------------------------------------------------ deciding and drafting

  /** How a decision on the approval at place `n` is answered, in every reachable state. */
  lemma {:induction false} DecisionIsAnswered(s: State, n: nat, ctx: SecurityContext, notes: Option<string>)
    requires Reachable(s) && n < |s.approvals|
    ensures var approval := s.approvals[n];
            var (granted, yes) := Approve(s, approval.id, ctx, notes);
            var (refused, no) := Reject(s, approval.id, ctx, notes);
            if approval.workspace != ctx.workspace then
              yes == Raised(NotFound) && no == Raised(NotFound) && granted == s && refused == s
            else
              && (approval.status == Pending ==>
                    && granted.approvals == s.approvals[n := approval.Reviewed(Approved, ctx.actor, notes, s.clock)]
                    && refused.approvals == s.approvals[n := approval.Reviewed(Rejected, ctx.actor, notes, s.clock)]
                    && yes == Ok(granted.approvals[n]) && no == Ok(refused.approvals[n]))
              && (approval.status == Approved ==>
                    yes == Ok(approval) && granted == s && no == Raised(ApprovalAlreadyDecided) && refused == s)
              && (approval.status == Rejected ==>
                    no == Ok(approval) && refused == s && yes == Raised(ApprovalAlreadyDecided) && granted == s)
  {
    hide Inv, Reachable, Decided;
    ReachableInv(s);
    var approval := s.approvals[n];
    ApprovalIsFound(s, n);
    var approved := approval.Approve(ctx.actor, notes, s.clock);
    var rejected := approval.Reject(ctx.actor, notes, s.clock);
    if approval.workspace == ctx.workspace {
      if approved.Ok? {
        AuditTrail.DecidedTells(s, n, approved.value, ApprovalApproved, ctx);
      } else {
        AuditTrail.RefusedDecision(s, n, approved.error, approval.status, ApprovalApproved, ctx);
      }
      if rejected.Ok? {
        AuditTrail.DecidedTells(s, n, rejected.value, ApprovalRejected, ctx);
      } else {
        AuditTrail.RefusedDecision(s, n, rejected.error, approval.status, ApprovalRejected, ctx);
      }
      SameDecisionTwice(s, n, approval.status, ApprovalApproved, ctx);
      SameDecisionTwice(s, n, approval.status, ApprovalRejected, ctx);
    }
  }

  lemma {:induction false} SameDecisionTwice(s: State, n: nat, before: ApprovalStatus, kind: EventKind,
                                             ctx: SecurityContext)
    requires n < |s.approvals| && s.approvals[n].status == before
    ensures Decided(s, n, Ok(s.approvals[n]), before, kind, ctx) == (s, Ok(s.approvals[n]))
  {
    assert s.approvals[n := s.approvals[n]] == s.approvals;
  }

  lemma {:induction false} ApprovalIsFound(s: State, n: nat)
    requires Inv(s) && n < |s.approvals|
    ensures FindApproval(s.approvals, s.approvals[n].id) == Some(n)
  {
    var found := FindApproval(s.approvals, s.approvals[n].id);
    assert found.Some? && s.approvals[found.value].id == s.approvals[n].id;
  }

  /** Regenerating a draft of the item adds one of the same kind for the same step, under a new
      identifier, and keeps the old one. */
  lemma {:induction false} RegenerationIsAnswered(s: State, i: Id, n: nat, ctx: SecurityContext)
    requires Reachable(s) && n < |s.drafts| && FindDraft(s.drafts, s.drafts[n].id) == Some(n)
    ensures var previous := s.drafts[n];
            var (t, reply) := RegenerateDraft(s, i, previous.id, ctx);
            if i in s.items && s.items[i].workspace == ctx.workspace && previous.workspace == ctx.workspace
               && previous.itemId == i
            then
              && reply == Ok(s.nextId) && |t.drafts| == |s.drafts| + 1 && s.drafts <= t.drafts
              && t.drafts[|s.drafts|] == previous.(id := s.nextId)
              && forall d :: d in s.drafts ==> d.id != s.nextId
            else reply == Raised(NotFound) && t == s
  {
    hide Inv, Reachable, FanOut, FindDraft;
    ReachableInv(s);
    KnownItems(s);
    DraftsAreOlder(s);
  }

  lemma {:induction false} DraftsAreOlder(s: State)
    requires Inv(s)
    ensures forall d :: d in s.drafts ==> d.id < s.nextId
  {
  }
}
