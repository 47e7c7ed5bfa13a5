/** What becomes of an item that was created with a context that claims a pending execution:
    a case that the routes rule out and the service does not. */
module ForgedItems {
  import opened Basics
  import opened Models
  import opened Protocol
  import opened Invariant
  import opened QuietOperations
  import opened Runs
  import Creation
  import Planner
  import RequestIdentity

  /** Records are stored under their own identifiers. */
  ghost predicate Filed(s: State) {
    && (forall j :: j in s.items ==> s.items[j].id == j && j < s.nextId)
    && (forall p :: p in s.plans ==> s.plans[p].id == p && p < s.nextId)
  }

  /** The item waits for an execution and has no plan, no reservation and no way to get one. */
  ghost predicate Wedged(s: State, i: Id) {
    && Filed(s)
    && i in s.items && s.items[i].ExecutionPending() && s.items[i].currentPlan == None
    && (forall p :: p in s.plans ==> s.plans[p].itemId != i)
    && (forall t :: t in s.attempts ==> s.attempts[t].reservation.itemId != i)
  }

  // ------------------------------------------------------------ no transaction helps

  lemma {:induction false} SearchFindsNothing(s: State, item: WorkItem, ids: seq<Id>, stepId: Id)
    requires forall p :: p in s.plans ==> s.plans[p].itemId != item.id
    ensures ids != [] ==> SearchPreferred(s, item, ids, stepId).Raised?
    ensures SearchAll(s, item, s.planOrder, stepId).None?
  {
  }

  lemma {:induction false} NoPlanContains(s: State, i: Id, stepId: Id)
    requires Wedged(s, i)
    ensures PlanContainingStep(s, s.items[i], stepId).Raised?
  {
    hide SearchAll, SearchPreferred;
    var preferred := PreferredPlans(s.items[i]);
    if preferred.Ok? {
      SearchFindsNothing(s, s.items[i], preferred.value, stepId);
      SearchNowhere(s, s.items[i], stepId);
    }
  }

  lemma {:induction false} SearchNowhere(s: State, item: WorkItem, stepId: Id)
    ensures SearchPreferred(s, item, [], stepId) == Ok(None)
  {
  }

  /** Reserving, reconciling and planning are refused and change nothing. */
  lemma {:induction false} NothingHelps(s: State, i: Id, ctx: SecurityContext, stepId: Id, succeeded: bool,
                                        summary: string, inputs: PlanningInput, classified: WorkType,
                                        key: Option<string>)
    requires Wedged(s, i)
    ensures Reserve(s, i, stepId, ctx).0 == s && Reserve(s, i, stepId, ctx).1.Raised?
    ensures Reconcile(s, i, stepId, ctx, succeeded, summary).0 == s
    ensures Reconcile(s, i, stepId, ctx, succeeded, summary).1.Raised?
    ensures PlanItem(s, i, ctx, inputs, classified, key).0 == s
              && PlanItem(s, i, ctx, inputs, classified, key).1.Raised?
  {
    hide PlanContainingStep, FindStep, ExecutionCheck, AddPlan, PlanResultFor;
    NoPlanContains(s, i, stepId);
  }

  // ------------------------------------------------------------ nor does anything else

  lemma {:induction false} EditKeepsOutcome(item: WorkItem, title: Option<string>, priority: Option<WorkItemPriority>,
                                            assignee: Option<string>, requestedOutcome: Option<string>,
                                            tags: Option<seq<string>>, now: Time)
    ensures var b := EditedItem(item, title, priority, assignee, requestedOutcome, tags, now);
            && b.id == item.id && b.currentPlan == item.currentPlan
            && b.Get(ExecutionOutcomeKey) == item.Get(ExecutionOutcomeKey)
  {
    hide RequestIdentity.Strip, TagList, Joined;
  }

  lemma {:induction false} EditingKeepsWedged(s: State, a: Action, i: Id)
    requires Wedged(s, i) && a.EditsItem?
    ensures Wedged(Apply(s, a), i)
  {
    hide FanOut, EditedItem;
    if a.itemId in s.items {
      EditKeepsOutcome(s.items[a.itemId], a.newTitle, a.priority, a.assignee, a.requestedOutcome, a.tags, s.clock);
    }
  }

  lemma {:induction false} AskingKeepsWedged(s: State, a: Action, i: Id)
    requires Wedged(s, i) && (a.AsksCorrection? || a.EscalatesItem?)
    ensures Wedged(Apply(s, a), i)
  {
    hide FanOut, RequestIdentity.Strip, CreateItem, PlanItem, Reserve, Renew, MarkUnknown, Finalize, Reconcile,
         UpdateItem, SubmitCorrection, RegenerateDraft, Approve, Reject;
  }

  lemma {:induction false} SubmittingKeepsWedged(s: State, a: Action, i: Id)
    requires Wedged(s, i) && a.SubmitsCorrection?
    ensures Wedged(Apply(s, a), i)
  {
    hide FanOut, CreateItem, PlanItem, Reserve, Renew, MarkUnknown, Finalize, Reconcile, UpdateItem, RequestCorrection,
         Escalate, RegenerateDraft, Approve, Reject;
  }

  lemma {:induction false} DecisionKeepsWedged(s: State, a: Action, i: Id)
    requires Wedged(s, i) && (a.Approves? || a.Rejects?)
    ensures Wedged(Apply(s, a), i)
  {
    hide FindApproval, Decided;
    var found := FindApproval(s.approvals, a.approvalId);
    if found.Some? {
      var approval := s.approvals[found.value];
      DecisionTouches(s, found.value, approval.Approve(a.ctx.actor, a.reviewNotes, s.clock), approval.status,
                      ApprovalApproved, a.ctx);
      DecisionTouches(s, found.value, approval.Reject(a.ctx.actor, a.reviewNotes, s.clock), approval.status,
                      ApprovalRejected, a.ctx);
    }
  }

  lemma {:induction false} RegeneratingKeepsWedged(s: State, a: Action, i: Id)
    requires Wedged(s, i) && a.RegeneratesDraft?
    ensures Wedged(Apply(s, a), i)
  {
    hide FanOut, FindDraft, ItemFor;
  }

  lemma {:induction false} WorldKeepsWedged(s: State, a: Action, i: Id)
    requires Wedged(s, i) && (a.TimePasses? || a.DocumentArrives? || a.DocumentMoves? || a.CallsTool?)
    ensures Wedged(Apply(s, a), i)
  {
    hide CreateItem, PlanItem, Reserve, Renew, MarkUnknown, Finalize, Reconcile, UpdateItem, RequestCorrection,
         SubmitCorrection, Escalate, RegenerateDraft, Approve, Reject;
  }

  lemma {:induction false} CreationKeepsWedged(s: State, a: Action, i: Id)
    requires Wedged(s, i) && a.CreatesItem?
    ensures Wedged(Apply(s, a), i)
  {
    hide FanOut, FindItemByKey, RequestIdentity.NormalizedKey;
  }

  lemma {:induction false} StoringKeepsWedged(s: State, item: WorkItem, workType: WorkType, steps: seq<ActionStep>,
                                              escalated: bool, key: Option<string>, fingerprint: Option<Fingerprint>,
                                              i: Id)
    requires Wedged(s, i) && item.id in s.items && item.id != i
    ensures Wedged(StorePlan(s, item, workType, steps, escalated, key, fingerprint), i)
  {
    hide FanOut, DraftRows, ApprovalRows, StepEvents;
  }

  lemma {:induction false} PlanningKeepsWedged(s: State, a: Action, i: Id)
    requires Wedged(s, i) && a.PlansItem?
    ensures Wedged(Apply(s, a), i)
  {
    hide StorePlan, StoredReply, PlanResultFor, FindPlanByKey, RequestIdentity.NormalizedKey, Planner.Steps,
         Planner.Escalates, Planner.WorkTypeFor;
    var t := Apply(s, a);
    if t != s {
      assert a.itemId != i by {
        if a.itemId == i {
          NothingHelps(s, i, a.ctx, 0, true, "", a.inputs, a.classified, a.key);
        }
      }
      var key := RequestIdentity.NormalizedKey(a.key).value;
      var item := s.items[a.itemId];
      StoringKeepsWedged(s, item, Planner.WorkTypeFor(item, a.classified),
                         Planner.Steps(item, a.ctx, a.inputs, a.classified, s.nextId + 1, s.clock),
                         Planner.Escalates(item, a.inputs, a.classified), key,
                         if key.Some? then Some(PlanningFingerprint(a.inputs, a.ctx.role, a.ctx.isAdmin)) else None, i);
    }
  }

  lemma {:induction false} ReservingKeepsWedged(s: State, a: Action, i: Id)
    requires Wedged(s, i) && a.Reserves?
    ensures Wedged(Apply(s, a), i)
  {
    hide FanOut, FindStep, ExecutionCheck, CreateItem, PlanItem, Renew, MarkUnknown, Finalize, Reconcile, UpdateItem,
         RequestCorrection, SubmitCorrection, Escalate, RegenerateDraft, Approve, Reject;
  }

  lemma {:induction false} RenewalKeepsWedged(s: State, a: Action, i: Id)
    requires Wedged(s, i) && (a.Renews? || a.MarksUnknown?)
    ensures Wedged(Apply(s, a), i)
  {
    hide FanOut, FindStep, ReservationMatches, CreateItem, PlanItem, Reserve, Finalize, Reconcile, UpdateItem,
         RequestCorrection, SubmitCorrection, Escalate, RegenerateDraft, Approve, Reject;
  }

  lemma {:induction false} FinalizationKeepsWedged(s: State, a: Action, i: Id)
    requires Wedged(s, i) && a.Finalizes?
    ensures Wedged(Apply(s, a), i)
  {
    hide FanOut, FindStep, ReservationMatches, CreateItem, PlanItem, Reserve, Renew, MarkUnknown, Reconcile, UpdateItem,
         RequestCorrection, SubmitCorrection, Escalate, RegenerateDraft, Approve, Reject;
  }

  lemma {:induction false} ReconcilingKeepsWedged(s: State, a: Action, i: Id)
    requires Wedged(s, i) && a.Reconciles?
    ensures Wedged(Apply(s, a), i)
  {
    hide FanOut, FindStep, PlanContainingStep, TargetMatches, Reconcilable, HasWords, CreateItem, PlanItem, Reserve,
         Renew, MarkUnknown, Finalize, UpdateItem, RequestCorrection, SubmitCorrection, Escalate, RegenerateDraft,
         Approve, Reject;
    NoPlanContains(s, i, a.stepId);
  }

  lemma {:induction false} ActionKeepsWedged(s: State, a: Action, i: Id)
    requires Wedged(s, i)
    ensures Wedged(Apply(s, a), i)
  {
    hide Wedged, Apply;
    match a {
      case EditsItem(_, _, _, _, _, _, _) => EditingKeepsWedged(s, a, i);
      case AsksCorrection(_, _, _) => AskingKeepsWedged(s, a, i);
      case SubmitsCorrection(_, _, _) => SubmittingKeepsWedged(s, a, i);
      case EscalatesItem(_, _) => AskingKeepsWedged(s, a, i);
      case CreatesItem(_, _, _, _, _, _) => CreationKeepsWedged(s, a, i);
      case PlansItem(_, _, _, _, _) => PlanningKeepsWedged(s, a, i);
      case Reserves(_, _, _) => ReservingKeepsWedged(s, a, i);
      case Renews(_, _) => RenewalKeepsWedged(s, a, i);
      case MarksUnknown(_, _) => RenewalKeepsWedged(s, a, i);
      case Finalizes(_, _, _) => FinalizationKeepsWedged(s, a, i);
      case Reconciles(_, _, _, _, _) => ReconcilingKeepsWedged(s, a, i);
      case Approves(_, _, _) => DecisionKeepsWedged(s, a, i);
      case Rejects(_, _, _) => DecisionKeepsWedged(s, a, i);
      case RegeneratesDraft(_, _, _) => RegeneratingKeepsWedged(s, a, i);
      case _ => WorldKeepsWedged(s, a, i);
    }
  }

  lemma {:induction false} RunKeepsWedged(s: State, actions: seq<Action>, i: Id)
    requires Wedged(s, i)
    ensures Wedged(RunFrom(s, actions), i)
  {
    hide Wedged, Apply;
    if actions != [] {
      RunKeepsWedged(s, actions[..|actions| - 1], i);
      ActionKeepsWedged(RunFrom(s, actions[..|actions| - 1]), actions[|actions| - 1], i);
    }
  }

  // ------------------------------------------------------------ the consequence

  lemma {:induction false} NothingForNewItem(s: State)
    requires Inv(s)
    ensures Filed(s)
    ensures forall p :: p in s.plans ==> s.plans[p].itemId != s.nextId
    ensures forall t :: t in s.attempts ==> s.attempts[t].reservation.itemId != s.nextId
  {
    forall p | p in s.plans ensures s.plans[p].id == p && s.plans[p].itemId in s.items && p < s.nextId {
      assert PlanOk(s, p);
    }
    forall t | t in s.attempts ensures s.attempts[t].reservation.itemId in s.items {
      assert AttemptOk(s, t);
    }
  }

  lemma {:induction false} ForgedIsWedged(s: State, ctx: SecurityContext, title: string, workType: Option<WorkType>,
                                          documents: seq<Id>, context: map<ContextKey, ContextValue>,
                                          key: Option<string>)
    requires Inv(s) && Creation.ClaimsPending(context)
    ensures var t := CreateItem(s, ctx, title, workType, documents, context, key).0;
            t != s ==> Wedged(t, s.nextId)
  {
    hide Inv, FanOut, FindItemByKey, RequestIdentity.NormalizedKey;
    NothingForNewItem(s);
  }

  /** An item created with a pending outcome can never be planned, reserved or reconciled,
      however the workflow goes on. */
  lemma {:induction false} ForgedItemIsWedged(s: State, ctx: SecurityContext, title: string, workType: Option<WorkType>,
                                              documents: seq<Id>, context: map<ContextKey, ContextValue>,
                                              key: Option<string>, later: seq<Action>, again: SecurityContext,
                                              stepId: Id, succeeded: bool, summary: string, inputs: PlanningInput,
                                              classified: WorkType, planKey: Option<string>)
    requires Reachable(s) && Creation.ClaimsPending(context)
    requires CreateItem(s, ctx, title, workType, documents, context, key).0 != s
    ensures var i := s.nextId;
            var t := RunFrom(CreateItem(s, ctx, title, workType, documents, context, key).0, later);
            && i in t.items && t.items[i].ExecutionPending()
            && PlanItem(t, i, again, inputs, classified, planKey).0 == t
            && PlanItem(t, i, again, inputs, classified, planKey).1.Raised?
            && Reserve(t, i, stepId, again).0 == t && Reserve(t, i, stepId, again).1.Raised?
            && Reconcile(t, i, stepId, again, succeeded, summary).0 == t
            && Reconcile(t, i, stepId, again, succeeded, summary).1.Raised?
  {
    hide Inv, Reachable, CreateItem, PlanItem, Reserve, Reconcile, Apply;
    ReachableInv(s);
    ForgedIsWedged(s, ctx, title, workType, documents, context, key);
    var t := CreateItem(s, ctx, title, workType, documents, context, key).0;
    RunKeepsWedged(t, later, s.nextId);
    NothingHelps(RunFrom(t, later), s.nextId, again, stepId, succeeded, summary, inputs, classified, planKey);
  }

  lemma {:induction false} NewItemHasNoPlan(s: State, ctx: SecurityContext, title: string, workType: Option<WorkType>,
                                            documents: seq<Id>, context: map<ContextKey, ContextValue>,
                                            key: Option<string>)
    requires Inv(s) && CreateItem(s, ctx, title, workType, documents, context, key).0 != s
    ensures var t := CreateItem(s, ctx, title, workType, documents, context, key).0;
            && s.nextId in t.items && t.items[s.nextId].id == s.nextId && t.items[s.nextId].workspace == ctx.workspace
            && (t.items[s.nextId].ExecutionPending() <==> Creation.ClaimsPending(context))
            && forall p :: p in t.plans ==> t.plans[p].itemId != s.nextId
  {
    hide Inv, FanOut, FindItemByKey, RequestIdentity.NormalizedKey;
    NothingForNewItem(s);
  }

  /** A pending outcome is all that does it: with a usable key or none, the item's workspace
      can plan a new item if and only if the context it was created with claims no pending
      outcome, whatever else that context claims. */
  lemma {:induction false} NewItemPlansIff(s: State, ctx: SecurityContext, title: string, workType: Option<WorkType>,
                                           documents: seq<Id>, context: map<ContextKey, ContextValue>,
                                           key: Option<string>, again: SecurityContext, inputs: PlanningInput,
                                           classified: WorkType, planKey: Option<string>)
    requires Reachable(s) && CreateItem(s, ctx, title, workType, documents, context, key).0 != s
    requires again.workspace == ctx.workspace && RequestIdentity.NormalizedKey(planKey).Ok?
    ensures var t := CreateItem(s, ctx, title, workType, documents, context, key).0;
            PlanItem(t, s.nextId, again, inputs, classified, planKey).1.Ok? <==> !Creation.ClaimsPending(context)
  {
    hide Inv, Reachable, CreateItem, AddPlan, PlanResultFor, Creation.ClaimsPending, RequestIdentity.NormalizedKey;
    ReachableInv(s);
    NewItemHasNoPlan(s, ctx, title, workType, documents, context, key);
  }
}
