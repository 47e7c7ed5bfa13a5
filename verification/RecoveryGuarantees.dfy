/** The lease that protects a live holder, and the way out when a holder is lost. */
module RecoveryGuarantees {
  import opened Basics
  import opened Models
  import opened Protocol
  import opened Invariant
  import opened QuietOperations
  import opened Evolution
  import opened Runs
  import opened Fencing
  import RequestIdentity
  import Settling
  import Starting
  import Creation

  predicate IsInFlight(s: State, i: Id) {
    i in s.items && s.items[i].Get(ExecutionOutcomeKey) == Some(OutcomeText(InFlight))
  }

  // ------------------------------------------------------------ beats

  /** The action is a reservation on the item that went through, or a renewal by its holder
      that did. */
  predicate Beats(s: State, a: Action, i: Id) {
    match a
    case Reserves(itemId, stepId, ctx) =>
      var reply := Reserve(s, itemId, stepId, ctx).1;
      itemId == i && reply.Ok? && reply.value.Granted?
    case Renews(token, ctx) =>
      token in s.attempts && s.attempts[token].reservation.itemId == i
      && Renew(s, s.attempts[token].reservation, ctx).1 == Ok(true)
    case _ => false
  }

  /** When the last beat of the item happened. */
  function LastBeat(s: State, actions: seq<Action>, i: Id): Option<Time> {
    if actions == [] then None
    else
      var earlier := actions[..|actions| - 1];
      if Beats(RunFrom(s, earlier), actions[|actions| - 1], i) then Some(RunFrom(s, earlier).clock)
      else LastBeat(s, earlier, i)
  }

  predicate SameHeartbeat(s: State, t: State, i: Id) {
    i in s.items && i in t.items && t.items[i].Get(ExecutionHeartbeatAt) == s.items[i].Get(ExecutionHeartbeatAt)
    && (t.items[i].ExecutionPending() ==> s.items[i].ExecutionPending())
  }

  lemma {:induction false} EditKeepsHeartbeat(item: WorkItem, title: Option<string>, priority: Option<WorkItemPriority>,
                                              assignee: Option<string>, requestedOutcome: Option<string>,
                                              tags: Option<seq<string>>, now: Time)
    ensures var b := EditedItem(item, title, priority, assignee, requestedOutcome, tags, now);
            b.Get(ExecutionHeartbeatAt) == item.Get(ExecutionHeartbeatAt)
            && b.Get(ExecutionOutcomeKey) == item.Get(ExecutionOutcomeKey)
            && b.id == item.id
  {
    hide RequestIdentity.Strip, TagList, Joined;
  }

  lemma {:induction false} EditingKeepsHeartbeat(s: State, a: Action, i: Id)
    requires ItemsOk(s) && i in s.items && a.EditsItem? && i in Apply(s, a).items
    ensures Apply(s, a).items[i].Get(ExecutionHeartbeatAt) == s.items[i].Get(ExecutionHeartbeatAt)
  {
    if ItemFor(s, a.itemId, a.ctx).Ok? {
      EditKeepsHeartbeat(s.items[a.itemId], a.newTitle, a.priority, a.assignee, a.requestedOutcome, a.tags, s.clock);
    }
  }

  lemma {:induction false} AskingKeepsHeartbeat(s: State, itemId: Id, ctx: SecurityContext, notes: string, i: Id)
    requires ItemsOk(s) && i in s.items
    ensures var t := RequestCorrection(s, itemId, ctx, notes).0;
            i in t.items && t.items[i].Get(ExecutionHeartbeatAt) == s.items[i].Get(ExecutionHeartbeatAt)
  {
    hide FanOut, RequestIdentity.Strip;
  }

  lemma {:induction false} SubmittingKeepsHeartbeat(s: State, itemId: Id, ctx: SecurityContext, changes: string, i: Id)
    requires ItemsOk(s) && i in s.items
    ensures var t := SubmitCorrection(s, itemId, ctx, changes).0;
            i in t.items && t.items[i].Get(ExecutionHeartbeatAt) == s.items[i].Get(ExecutionHeartbeatAt)
  {
    hide FanOut;
  }

  lemma {:induction false} EscalatingKeepsHeartbeat(s: State, itemId: Id, ctx: SecurityContext, i: Id)
    requires ItemsOk(s) && i in s.items
    ensures var t := Escalate(s, itemId, ctx).0;
            i in t.items && t.items[i].Get(ExecutionHeartbeatAt) == s.items[i].Get(ExecutionHeartbeatAt)
  {
    hide FanOut;
  }

  lemma {:induction false} CorrectionKeepsHeartbeat(s: State, a: Action, i: Id)
    requires ItemsOk(s) && i in s.items && (a.AsksCorrection? || a.SubmitsCorrection? || a.EscalatesItem?)
    requires i in Apply(s, a).items
    ensures Apply(s, a).items[i].Get(ExecutionHeartbeatAt) == s.items[i].Get(ExecutionHeartbeatAt)
  {
    hide CreateItem, PlanItem, Reserve, Renew, MarkUnknown, Finalize, Reconcile, UpdateItem, RequestCorrection,
         SubmitCorrection, Escalate, RegenerateDraft, Approve, Reject, Starting.CallTool;
    match a {
      case AsksCorrection(itemId, ctx, notes) => AskingKeepsHeartbeat(s, itemId, ctx, notes, i);
      case SubmitsCorrection(itemId, ctx, changes) => SubmittingKeepsHeartbeat(s, itemId, ctx, changes, i);
      case EscalatesItem(itemId, ctx) => EscalatingKeepsHeartbeat(s, itemId, ctx, i);
    }
  }

  lemma {:induction false} MarkingKeepsHeartbeat(s: State, a: Action, i: Id)
    requires ItemsOk(s) && i in s.items && a.MarksUnknown? && i in Apply(s, a).items
    ensures Apply(s, a).items[i].Get(ExecutionHeartbeatAt) == s.items[i].Get(ExecutionHeartbeatAt)
  {
  }

  lemma {:induction false} DecisionKeepsItems(s: State, a: Action)
    requires a.Approves? || a.Rejects?
    ensures Apply(s, a).items == s.items
  {
    hide CreateItem, PlanItem, Reserve, Renew, MarkUnknown, Finalize, Reconcile, UpdateItem, RequestCorrection,
         SubmitCorrection, Escalate, RegenerateDraft, Starting.CallTool, FindApproval, Decided;
    if FindApproval(s.approvals, a.approvalId).Some? {
      var n := FindApproval(s.approvals, a.approvalId).value;
      var approval := s.approvals[n];
      DecisionTouches(s, n, approval.Approve(a.ctx.actor, a.reviewNotes, s.clock), approval.status, ApprovalApproved,
                      a.ctx);
      DecisionTouches(s, n, approval.Reject(a.ctx.actor, a.reviewNotes, s.clock), approval.status, ApprovalRejected,
                      a.ctx);
    }
  }

  lemma {:induction false} WorldKeepsItems(s: State, a: Action)
    requires a.RegeneratesDraft? || a.TimePasses? || a.DocumentArrives? || a.DocumentMoves?
    ensures Apply(s, a).items == s.items
  {
    hide CreateItem, PlanItem, Reserve, Renew, MarkUnknown, Finalize, Reconcile, UpdateItem, RequestCorrection,
         SubmitCorrection, Escalate, Starting.CallTool, FanOut, FindDraft, Approve, Reject;
  }

  lemma {:induction false} QuietKeepsPending(s: State, t: State, i: Id)
    requires Quiet(s, t) && i in s.items
    ensures i in t.items && (t.items[i].ExecutionPending() ==> s.items[i].ExecutionPending())
  {
    assert SameExecution(s.items[i], t.items[i], t.clock);
  }

  /** Only a renewal moves a heartbeat without starting an execution. */
  lemma {:induction false} QuietKeepsHeartbeat(s: State, a: Action, i: Id)
    requires ItemsOk(s) && i in s.items && IsQuietAction(a) && !a.Renews? && Quiet(s, Apply(s, a))
    ensures SameHeartbeat(s, Apply(s, a), i)
  {
    hide Quiet, Apply, ItemsOk;
    QuietKeepsPending(s, Apply(s, a), i);
    match a {
      case EditsItem(_, _, _, _, _, _, _) => EditingKeepsHeartbeat(s, a, i);
      case AsksCorrection(_, _, _) => CorrectionKeepsHeartbeat(s, a, i);
      case SubmitsCorrection(_, _, _) => CorrectionKeepsHeartbeat(s, a, i);
      case EscalatesItem(_, _) => CorrectionKeepsHeartbeat(s, a, i);
      case MarksUnknown(_, _) => MarkingKeepsHeartbeat(s, a, i);
      case Approves(_, _, _) => DecisionKeepsItems(s, a);
      case Rejects(_, _, _) => DecisionKeepsItems(s, a);
      case _ => WorldKeepsItems(s, a);
    }
  }

  lemma {:induction false} RenewalBeats(s: State, token: Id, ctx: SecurityContext, i: Id)
    requires ItemsOk(s) && i in s.items
    ensures var t := Apply(s, Renews(token, ctx));
            if Beats(s, Renews(token, ctx), i)
            then i in t.items && t.items[i].Get(ExecutionHeartbeatAt) == Some(InstantText(s.clock))
            else SameHeartbeat(s, t, i)
  {
  }

  lemma {:induction false} StartBeats(s: State, j: Id, p: Id, k: nat, i: Id)
    requires ItemsOk(s) && i in s.items && Starting.Startable(s, j, p, k)
    ensures var t := Starting.After(s, j, p, k);
            if j == i then i in t.items && t.items[i].Get(ExecutionHeartbeatAt) == Some(InstantText(s.clock))
            else SameHeartbeat(s, t, i)
  {
  }

  lemma {:induction false} ReservationBeats(s: State, itemId: Id, stepId: Id, ctx: SecurityContext, i: Id)
    requires Inv(s) && ItemsOk(s) && i in s.items
    ensures var t := Reserve(s, itemId, stepId, ctx).0;
            if Beats(s, Reserves(itemId, stepId, ctx), i)
            then i in t.items && t.items[i].Get(ExecutionHeartbeatAt) == Some(InstantText(s.clock))
            else SameHeartbeat(s, t, i)
  {
    hide Inv;
    var t := Reserve(s, itemId, stepId, ctx).0;
    if Reserve(s, itemId, stepId, ctx).1.Ok? && Reserve(s, itemId, stepId, ctx).1.value.Granted? {
      var p := s.items[itemId].currentPlan.value;
      var k := FindStep(s.plans[p].steps, stepId).value;
      assert Starting.Startable(s, itemId, p, k) && t == Starting.After(s, itemId, p, k);
      StartBeats(s, itemId, p, k, i);
    }
  }

  lemma {:induction false} SettlementKeepsHeartbeat(s: State, j: Id, p: Id, k: nat, succeeded: bool, kind: EventKind,
                                                    i: Id)
    requires ItemsOk(s) && i in s.items && Running(s, j, p, k)
    ensures SameHeartbeat(s, Settling.After(s, j, p, k, succeeded, kind), i)
  {
  }

  lemma {:induction false} NotedSettlementKeepsHeartbeat(s: State, r: Reservation, k: nat, success: bool,
                                                         kind: EventKind, i: Id)
    requires ItemsOk(s) && i in s.items && Running(s, r.itemId, r.planId, k)
    ensures Running(NotedRun(s, r, success), r.itemId, r.planId, k)
    ensures SameHeartbeat(s, Settling.After(NotedRun(s, r, success), r.itemId, r.planId, k, success, kind), i)
  {
    hide Settling.After, SameHeartbeat;
    var noted := NotedRun(s, r, success);
    assert ItemsOk(noted) && noted.items == s.items;
    SettlementKeepsHeartbeat(noted, r.itemId, r.planId, k, success, kind, i);
    SameFromHere(s, noted, Settling.After(noted, r.itemId, r.planId, k, success, kind), i);
  }

  lemma {:induction false} SameFromHere(s: State, noted: State, t: State, i: Id)
    requires noted.items == s.items && SameHeartbeat(noted, t, i)
    ensures SameHeartbeat(s, t, i)
  {
  }

  lemma {:induction false} FinalizationKeepsHeartbeat(s: State, token: Id, success: bool, ctx: SecurityContext, i: Id)
    requires Inv(s) && ItemsOk(s) && i in s.items
    ensures SameHeartbeat(s, Apply(s, Finalizes(token, success, ctx)), i)
  {
    hide Inv, ItemsOk, Finalize, Settling.After, SameHeartbeat, Apply;
    FinalizationApplies(s, token, success, ctx);
    if token !in s.attempts {
      SameFromItself(s, i);
    } else {
      var r := s.attempts[token].reservation;
      GrantedToken(s, token);
      FinalizeSteps(s, r, success, ctx);
      var t := Finalize(s, r, success, ctx).0;
      if t == s {
        SameFromItself(s, i);
      } else {
        var kind := if success then ActionExecuted else ActionFailed;
        var k: nat :| Running(s, r.itemId, r.planId, k)
                      && t == Settling.After(NotedRun(s, r, success), r.itemId, r.planId, k, success, kind);
        NotedSettlementKeepsHeartbeat(s, r, k, success, kind, i);
      }
    }
  }

  lemma {:induction false} SameFromItself(s: State, i: Id)
    requires i in s.items
    ensures SameHeartbeat(s, s, i)
  {
  }

  lemma {:induction false} FinalizationApplies(s: State, token: Id, success: bool, ctx: SecurityContext)
    ensures Apply(s, Finalizes(token, success, ctx))
            == if token in s.attempts then Finalize(s, s.attempts[token].reservation, success, ctx).0 else s
  {
    hide Finalize;
  }

  lemma {:induction false} ReconciliationKeepsHeartbeat(s: State, itemId: Id, stepId: Id, ctx: SecurityContext,
                                                        succeeded: bool, summary: string, i: Id)
    requires Inv(s) && ItemsOk(s) && i in s.items
    ensures SameHeartbeat(s, Reconcile(s, itemId, stepId, ctx, succeeded, summary).0, i)
  {
    hide Inv, Reconcile;
    ReconcileSteps(s, itemId, stepId, ctx, succeeded, summary);
    var t := Reconcile(s, itemId, stepId, ctx, succeeded, summary).0;
    if t != s {
      var kind := if succeeded then ReconciledSucceeded else ReconciledFailed;
      var p: Id, k: nat :| Running(s, itemId, p, k) && t == Settling.After(s, itemId, p, k, succeeded, kind);
      SettlementKeepsHeartbeat(s, itemId, p, k, succeeded, kind, i);
    }
  }

  lemma {:induction false} NewItemKeepsHeartbeat(s: State, ctx: SecurityContext, title: string,
                                                 workType: Option<WorkType>, documents: seq<Id>,
                                                 context: map<ContextKey, ContextValue>, key: Option<string>, i: Id)
    requires ItemsOk(s) && i in s.items
    ensures SameHeartbeat(s, CreateItem(s, ctx, title, workType, documents, context, key).0, i)
  {
    hide FanOut, FindItemByKey, RequestIdentity.NormalizedKey;
  }

  lemma {:induction false} CreationKeepsHeartbeat(s: State, a: Action, i: Id)
    requires ItemsOk(s) && i in s.items && (a.CreatesItem? || a.CallsTool?)
    ensures SameHeartbeat(s, Apply(s, a), i)
  {
    hide CreateItem, PlanItem, Reserve, Renew, MarkUnknown, Finalize, Reconcile, UpdateItem, RequestCorrection,
         SubmitCorrection, Escalate, RegenerateDraft, Approve, Reject, ItemsOk;
    if a.CreatesItem? {
      NewItemKeepsHeartbeat(s, a.ctx, a.title, a.workType, a.documents, RouteContext(a.outcome), a.key, i);
    }
  }

  lemma {:induction false} PlanAddedKeepsHeartbeat(s: State, t: State, item: WorkItem, key: Option<string>, i: Id)
    requires Creation.PlanAdded(s, t, item, key) && i in s.items
    ensures SameHeartbeat(s, t, i)
  {
  }

  lemma {:induction false} PlanningKeepsHeartbeat(s: State, itemId: Id, ctx: SecurityContext, inputs: PlanningInput,
                                                  classified: WorkType, key: Option<string>, i: Id)
    requires ItemsOk(s) && i in s.items
    ensures SameHeartbeat(s, PlanItem(s, itemId, ctx, inputs, classified, key).0, i)
  {
    hide Creation.PlanAdded, PlanItem;
    var t := PlanItem(s, itemId, ctx, inputs, classified, key).0;
    Creation.PlanningAdds(s, itemId, ctx, inputs, classified, key);
    if t != s {
      PlanAddedKeepsHeartbeat(s, t, s.items[itemId], RequestIdentity.NormalizedKey(key).value, i);
    }
  }

  /** An action either is a beat of the item and stamps its heartbeat, or leaves the
      heartbeat alone and starts no execution of the item. */
  lemma {:induction false} HeartbeatMoves(s: State, a: Action, i: Id)
    requires Inv(s) && i in s.items
    ensures var t := Apply(s, a);
            if Beats(s, a, i) then i in t.items && t.items[i].Get(ExecutionHeartbeatAt) == Some(InstantText(s.clock))
            else SameHeartbeat(s, t, i)
  {
    hide Inv, Quiet, SameHeartbeat, ItemsOk, DraftsOk, PlansOk;
    InvParts(s);
    match a {
      case CreatesItem(_, _, _, _, _, _) => CreationKeepsHeartbeat(s, a, i);
      case CallsTool(_) => CreationKeepsHeartbeat(s, a, i);
      case PlansItem(itemId, ctx, inputs, classified, key) =>
        PlanningKeepsHeartbeat(s, itemId, ctx, inputs, classified, key, i);
      case Reserves(itemId, stepId, ctx) => ReservationBeats(s, itemId, stepId, ctx, i);
      case Renews(token, ctx) => RenewalBeats(s, token, ctx, i);
      case Finalizes(token, success, ctx) => FinalizationKeepsHeartbeat(s, token, success, ctx, i);
      case Reconciles(itemId, stepId, ctx, succeeded, summary) =>
        ReconciliationKeepsHeartbeat(s, itemId, stepId, ctx, succeeded, summary, i);
      case _ =>
        QuietAction(s, a);
        QuietKeepsHeartbeat(s, a, i);
    }
  }

  lemma {:induction false} PlanAddedKeepsKeys(s: State, t: State, item: WorkItem, key: Option<string>)
    requires Creation.PlanAdded(s, t, item, key)
    ensures t.items.Keys == s.items.Keys
  {
  }

  lemma {:induction false} PlanningKeepsKeys(s: State, itemId: Id, ctx: SecurityContext, inputs: PlanningInput,
                                             classified: WorkType, key: Option<string>)
    requires ItemsOk(s)
    ensures PlanItem(s, itemId, ctx, inputs, classified, key).0.items.Keys == s.items.Keys
  {
    hide Creation.PlanAdded, PlanItem;
    Creation.PlanningAdds(s, itemId, ctx, inputs, classified, key);
    var t := PlanItem(s, itemId, ctx, inputs, classified, key).0;
    if t != s {
      PlanAddedKeepsKeys(s, t, s.items[itemId], RequestIdentity.NormalizedKey(key).value);
    }
  }

  lemma {:induction false} ReservingKeepsKeys(s: State, itemId: Id, stepId: Id, ctx: SecurityContext)
    requires ItemsOk(s)
    ensures Reserve(s, itemId, stepId, ctx).0.items.Keys == s.items.Keys
  {
    hide ExecutionCheck, FindStep, FanOut;
  }

  lemma {:induction false} FinalizingKeepsKeys(s: State, r: Reservation, success: bool, ctx: SecurityContext)
    requires ItemsOk(s)
    ensures Finalize(s, r, success, ctx).0.items.Keys == s.items.Keys
  {
    hide FindStep, FanOut, ReservationMatches;
  }

  lemma {:induction false} ReconcilingKeepsKeys(s: State, itemId: Id, stepId: Id, ctx: SecurityContext, succeeded: bool,
                                                summary: string)
    requires ItemsOk(s)
    ensures Reconcile(s, itemId, stepId, ctx, succeeded, summary).0.items.Keys == s.items.Keys
  {
    hide FindStep, FanOut, Reconcilable, TargetMatches, PlanContainingStep, HasWords;
  }

  lemma {:induction false} ExecutionKeepsKeys(s: State, a: Action)
    requires ItemsOk(s) && (a.Reserves? || a.CallsTool? || a.Finalizes? || a.Reconciles?)
    ensures Apply(s, a).items.Keys == s.items.Keys
  {
    hide CreateItem, PlanItem, Reserve, Renew, MarkUnknown, Finalize, Reconcile, UpdateItem, RequestCorrection,
         SubmitCorrection, Escalate, RegenerateDraft, Approve, Reject, ItemsOk;
    match a {
      case Reserves(itemId, stepId, ctx) => ReservingKeepsKeys(s, itemId, stepId, ctx);
      case CallsTool(_) =>
      case Finalizes(token, success, ctx) =>
        if token in s.attempts {
          FinalizingKeepsKeys(s, s.attempts[token].reservation, success, ctx);
        }
      case Reconciles(itemId, stepId, ctx, succeeded, summary) =>
        ReconcilingKeepsKeys(s, itemId, stepId, ctx, succeeded, summary);
    }
  }

  lemma {:induction false} QuietKeys(s: State, t: State)
    requires Quiet(s, t)
    ensures t.items.Keys == s.items.Keys
  {
  }

  lemma {:induction false} CreatedIsIdle(s: State, a: Action, i: Id)
    requires ItemsOk(s) && a.CreatesItem? && i !in s.items && i in Apply(s, a).items
    ensures !Apply(s, a).items[i].ExecutionPending()
  {
    Creation.CreationCreates(s, a.ctx, a.title, a.workType, a.documents, RouteContext(a.outcome), a.key);
  }

  /** A new item waits for nothing. */
  lemma {:induction false} NewItemIsIdle(s: State, a: Action, i: Id)
    requires Inv(s) && i !in s.items && i in Apply(s, a).items
    ensures !Apply(s, a).items[i].ExecutionPending()
  {
    hide Inv, Quiet, ItemsOk, DraftsOk, PlansOk;
    InvParts(s);
    match a {
      case CreatesItem(_, _, _, _, _, _) => CreatedIsIdle(s, a, i);
      case PlansItem(itemId, ctx, inputs, classified, key) =>
        PlanningKeepsKeys(s, itemId, ctx, inputs, classified, key);
      case Reserves(_, _, _) => ExecutionKeepsKeys(s, a);
      case CallsTool(_) => ExecutionKeepsKeys(s, a);
      case Finalizes(_, _, _) => ExecutionKeepsKeys(s, a);
      case Reconciles(_, _, _, _, _) => ExecutionKeepsKeys(s, a);
      case _ =>
        QuietAction(s, a);
        QuietKeys(s, Apply(s, a));
    }
  }

  /** In every run the heartbeat of a pending execution is the time of the item's last beat:
      it is never missing or unreadable, and never ahead of the clock. */
  lemma {:induction false} HeartbeatIsLastBeat(start: State, actions: seq<Action>, i: Id)
    requires Initial(start)
    requires i in RunFrom(start, actions).items && RunFrom(start, actions).items[i].ExecutionPending()
    ensures LastBeat(start, actions, i).Some?
    ensures RunFrom(start, actions).items[i].Get(ExecutionHeartbeatAt)
              == Some(InstantText(LastBeat(start, actions, i).value))
    ensures LastBeat(start, actions, i).value <= RunFrom(start, actions).clock
  {
    hide Inv, Apply, Beats, Evolves;
    var s := RunFrom(start, actions);
    InitialInv(start);
    if actions != [] {
      var earlier := actions[..|actions| - 1];
      var a := actions[|actions| - 1];
      var before := RunFrom(start, earlier);
      RunKeepsInv(start, earlier);
      ActionKeepsInv(before, a);
      ClockAdvances(before, s);
      if i in before.items {
        HeartbeatMoves(before, a, i);
        if !Beats(before, a, i) {
          HeartbeatIsLastBeat(start, earlier, i);
        }
      } else {
        NewItemIsIdle(before, a, i);
      }
    }
  }

  lemma {:induction false} ClockAdvances(s: State, t: State)
    requires Evolves(s, t)
    ensures s.clock <= t.clock
  {
  }

  // ------------------------------------------------------------ reconciliation

  /** When a pending execution may be reconciled: its outcome is unknown, or the lease ran out. */
  predicate LeaseOver(item: WorkItem, now: Time) {
    || item.Get(ExecutionOutcomeKey) == Some(OutcomeText(Unknown))
    || (item.Get(ExecutionHeartbeatAt).Some? && item.Get(ExecutionHeartbeatAt).value.InstantText?
        && now - item.Get(ExecutionHeartbeatAt).value.at >= 300_000_000)
  }

  /** Reconciling the step an item waits for goes through, with either verdict, exactly when
      there is a summary and the outcome is unknown or the lease is over; it then ends the
      wait. Neither the plan lookup nor the target test ever stands in the way. */
  lemma {:induction false} ReconcilesIffLeaseOver(s: State, i: Id, p: Id, k: nat, ctx: SecurityContext, succeeded: bool,
                                                  summary: string)
    requires Inv(s) && Running(s, i, p, k) && s.items[i].workspace == ctx.workspace
    ensures var (t, reply) := Reconcile(s, i, s.plans[p].steps[k].id, ctx, succeeded, summary);
            && (reply.Ok? <==> HasWords(summary) && LeaseOver(s.items[i], s.clock))
            && (reply.Raised? ==> t == s)
            && (reply.Ok? ==>
                  && i in t.items && !t.items[i].ExecutionPending()
                  && p in t.plans && k < |t.plans[p].steps|
                  && t.plans[p].steps[k].status == if succeeded then Executed else Failed)
  {
    LookupFindsThePlan(s, i, p, k);
    assert PlanOk(s, p) && s.items[i].id == i;
  }

  /** The lease, on the clock. An execution in flight whose heartbeat is at `beat` cannot be
      reconciled while fewer than 300 s have passed since then, and can from that moment on:
      wait any time and reconcile the awaited step with a summary and either verdict. */
  lemma {:induction false} ReconcilesFrom300SecondsOn(s: State, i: Id, beat: Time, elapsed: nat, ctx: SecurityContext,
                                                      succeeded: bool, summary: string) returns (p: Id, k: nat)
    requires Reachable(s) && IsInFlight(s, i) && s.items[i].Get(ExecutionHeartbeatAt) == Some(InstantText(beat))
    requires s.items[i].workspace == ctx.workspace && HasWords(summary)
    ensures p in s.plans && k < |s.plans[p].steps| && s.plans[p].steps[k].status == Executing
    ensures var waited := RunFrom(s, [TimePasses(elapsed)]);
            var (t, reply) := Reconcile(waited, i, s.plans[p].steps[k].id, ctx, succeeded, summary);
            && waited.clock == s.clock + elapsed
            && (waited.clock < beat + 300_000_000 ==>
                  t == waited && reply == Raised(WorkflowError(ExecutionStillActive)))
            && (waited.clock >= beat + 300_000_000 ==>
                  reply.Ok? && p in t.plans && k < |t.plans[p].steps|
                  && t.plans[p].steps[k].status == if succeeded then Executed else Failed)
  {
    hide Inv, Quiet, Reconcile, Apply, RunFrom, Reachable;
    ReachableInv(s);
    p, k := RunningStepOf(s, i);
    OneMore(s, [], TimePasses(elapsed));
    assert [] + [TimePasses(elapsed)] == [TimePasses(elapsed)];
    RunsNowhere(s);
    var waited := Wait(s, i, p, k, elapsed);
    ReconcilesIffLeaseOver(waited, i, p, k, ctx, succeeded, summary);
    if waited.clock < beat + 300_000_000 {
      EarlyIsStillActive(waited, i, p, k, ctx, succeeded, summary);
    }
  }

  /** What an early reconciliation is told. */
  lemma {:induction false} EarlyIsStillActive(s: State, i: Id, p: Id, k: nat, ctx: SecurityContext, succeeded: bool,
                                              summary: string)
    requires Inv(s) && Running(s, i, p, k) && s.items[i].workspace == ctx.workspace && HasWords(summary)
    requires !LeaseOver(s.items[i], s.clock)
    ensures Reconcile(s, i, s.plans[p].steps[k].id, ctx, succeeded, summary).1
              == Raised(WorkflowError(ExecutionStillActive))
  {
    LookupFindsThePlan(s, i, p, k);
    assert PlanOk(s, p) && s.items[i].id == i;
  }

  /** Lease exclusion. As long as less than 300 s have passed since the item's last beat,
      no reconciliation touches an execution in flight. */
  lemma {:induction false} LiveHolderIsNotOverruled(start: State, actions: seq<Action>, i: Id, stepId: Id,
                                                    ctx: SecurityContext, succeeded: bool, summary: string)
    requires Initial(start) && IsInFlight(RunFrom(start, actions), i)
    ensures LastBeat(start, actions, i).Some?
    ensures RunFrom(start, actions).clock - LastBeat(start, actions, i).value < 300_000_000 ==>
              Reconcile(RunFrom(start, actions), i, stepId, ctx, succeeded, summary).0 == RunFrom(start, actions)
  {
    hide Reconcile, RunFrom, LastBeat;
    HeartbeatIsLastBeat(start, actions, i);
    var s, beat := RunFrom(start, actions), LastBeat(start, actions, i).value;
    if s.clock - beat < 300_000_000 {
      FreshHeartbeatRefuses(s, i, beat, stepId, ctx, succeeded, summary);
    }
  }

  lemma {:induction false} FreshHeartbeatRefuses(s: State, i: Id, beat: Time, stepId: Id, ctx: SecurityContext,
                                                 succeeded: bool, summary: string)
    requires IsInFlight(s, i) && s.items[i].Get(ExecutionHeartbeatAt) == Some(InstantText(beat))
    requires s.clock - beat < 300_000_000
    ensures Reconcile(s, i, stepId, ctx, succeeded, summary).0 == s
  {
    hide HasWords, PlanContainingStep, FindStep, TargetMatches, Settle, SettledItem;
  }

  /** The holder of the item's executions is punctual: whenever one is in flight, less than
      300 s have passed since the last beat. */
  ghost predicate Punctual(start: State, actions: seq<Action>, i: Id) {
    forall n :: 0 <= n <= |actions| && IsInFlight(RunFrom(start, actions[..n]), i) ==>
      LastBeat(start, actions[..n], i).Some?
      && RunFrom(start, actions[..n]).clock - LastBeat(start, actions[..n], i).value < 300_000_000
  }

  /** In a run in which the holder is punctual, no reconciliation ever changes anything
      while the item's outcome is in flight. */
  lemma {:induction false} PunctualHolderKeepsItsExecution(start: State, actions: seq<Action>, i: Id, n: nat)
    requires Initial(start) && Punctual(start, actions, i)
    requires n < |actions| && IsInFlight(RunFrom(start, actions[..n]), i)
    requires actions[n].Reconciles? && actions[n].itemId == i
    ensures RunFrom(start, actions[..n + 1]) == RunFrom(start, actions[..n])
  {
    var a := actions[n];
    LiveHolderIsNotOverruled(start, actions[..n], i, a.stepId, a.ctx, a.succeeded, a.summary);
    assert actions[..n + 1][..n] == actions[..n];
  }

  // ------------------------------------------------------------ no wedge

  /** Waiting for 300 s and then reconciling the step. */
  function WayOut(stepId: Id, i: Id, ctx: SecurityContext, succeeded: bool, summary: string): seq<Action> {
    [TimePasses(300_000_000), Reconciles(i, stepId, ctx, succeeded, summary)]
  }

  /** From every reachable state with a pending execution there is a way out that needs no
      holder: once 300 s have passed, reconciling the step the item names goes through with
      either verdict, and from then on planning is not refused for a pending execution. */
  lemma {:induction false} NeverWedged(s: State, i: Id, ctx: SecurityContext, succeeded: bool, summary: string,
                                       inputs: PlanningInput, classified: WorkType)
    returns (p: Id, k: nat)
    requires Reachable(s) && i in s.items && s.items[i].ExecutionPending()
    requires s.items[i].workspace == ctx.workspace && HasWords(summary)
    ensures p in s.plans && k < |s.plans[p].steps| && TargetMatches(s.items[i], p, s.plans[p].steps[k].id)
    ensures var t := RunFrom(s, WayOut(s.plans[p].steps[k].id, i, ctx, succeeded, summary));
            && i in t.items && !t.items[i].ExecutionPending()
            && p in t.plans && k < |t.plans[p].steps|
            && t.plans[p].steps[k].status == (if succeeded then Executed else Failed)
            && PlanItem(t, i, ctx, inputs, classified, None).1.Ok?
  {
    hide Inv, Quiet, Reconcile, PlanItem, Apply, RunFrom, LeaseOver;
    ReachableInv(s);
    p, k := RunningStepOf(s, i);
    var stepId := s.plans[p].steps[k].id;
    var waited := Wait(s, i, p, k, 300_000_000);
    ReconcilesIffLeaseOver(waited, i, p, k, ctx, succeeded, summary);
    TwoActions(s, TimePasses(300_000_000), Reconciles(i, stepId, ctx, succeeded, summary));
    var t := Reconcile(waited, i, stepId, ctx, succeeded, summary).0;
    assert RunFrom(s, WayOut(stepId, i, ctx, succeeded, summary)) == t by {
      AppliesReconcile(waited, i, stepId, ctx, succeeded, summary);
    }
    SettledItemStays(waited, t, i, stepId, ctx, succeeded, summary);
    PlanningIsOpen(t, i, ctx, inputs, classified);
  }

  lemma {:induction false} AppliesReconcile(s: State, i: Id, stepId: Id, ctx: SecurityContext, succeeded: bool,
                                            summary: string)
    ensures Apply(s, Reconciles(i, stepId, ctx, succeeded, summary))
              == Reconcile(s, i, stepId, ctx, succeeded, summary).0
  {
  }

  lemma {:induction false} TwoActions(s: State, a: Action, b: Action)
    ensures RunFrom(s, [a, b]) == Apply(Apply(s, a), b)
  {
    assert [a, b][..1] == [a] && [a][..0] == [];
    assert RunFrom(s, [a]) == Apply(s, a);
  }

  lemma {:induction false} WaitingMovesTheClock(s: State, elapsed: nat)
    ensures Apply(s, TimePasses(elapsed)) == s.(clock := s.clock + elapsed)
  {
  }

  lemma {:induction false} Wait(s: State, i: Id, p: Id, k: nat, elapsed: nat) returns (t: State)
    requires Inv(s) && Running(s, i, p, k)
    ensures t == Apply(s, TimePasses(elapsed))
    ensures Inv(t) && Running(t, i, p, k) && (elapsed >= 300_000_000 ==> LeaseOver(t.items[i], t.clock))
    ensures t.items == s.items && t.plans == s.plans && t.clock == s.clock + elapsed
  {
    hide Inv, Quiet, Apply;
    t := s.(clock := s.clock + elapsed);
    WaitingMovesTheClock(s, elapsed);
    InvParts(s);
    WorldStep(s, TimePasses(elapsed));
    QuietStep(s, t);
    QuietKeepsRunning(s, t, i, p, k);
  }

  lemma {:induction false} PlanningIsOpen(s: State, i: Id, ctx: SecurityContext, inputs: PlanningInput,
                                          classified: WorkType)
    requires i in s.items && !s.items[i].ExecutionPending() && s.items[i].workspace == ctx.workspace
    ensures PlanItem(s, i, ctx, inputs, classified, None).1.Ok?
  {
    hide AddPlan;
  }

  lemma {:induction false} RunningStepOf(s: State, i: Id) returns (p: Id, k: nat)
    requires Inv(s) && i in s.items && s.items[i].ExecutionPending()
    ensures Running(s, i, p, k)
  {
    assert Waiting(s, i);
    p, k :| Running(s, i, p, k);
  }

  lemma {:induction false} SettledItemStays(s: State, t: State, i: Id, stepId: Id, ctx: SecurityContext,
                                            succeeded: bool, summary: string)
    requires Inv(s) && i in s.items && t == Reconcile(s, i, stepId, ctx, succeeded, summary).0
    ensures i in t.items && t.items[i].workspace == s.items[i].workspace
  {
    ReconciliationStep(s, i, stepId, ctx, succeeded, summary);
  }
}
