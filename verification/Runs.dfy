/** Runs of the workflow: any number of planners, approvers, editors, holders and
    reconcilers whose transactions interleave in any order, while the clock moves on. */
module Runs {
  import opened Basics
  import opened Documents
  import opened Models
  import opened Protocol
  import opened EventLog
  import opened Invariant
  import opened QuietOperations
  import opened Evolution
  import RequestIdentity
  import Settling
  import Starting
  import Creation

  /** One transaction, or one step of the world around the service. A holder acts under
      the token of its reservation and may do so at any later time, any number of times. */
  datatype Action =
    | CreatesItem(ctx: SecurityContext, title: string, workType: Option<WorkType>, documents: seq<Id>,
                  outcome: string, key: Option<string>)
    | EditsItem(itemId: Id, ctx: SecurityContext, newTitle: Option<string>, priority: Option<WorkItemPriority>,
                assignee: Option<string>, requestedOutcome: Option<string>, tags: Option<seq<string>>)
    | AsksCorrection(itemId: Id, ctx: SecurityContext, notes: string)
    | SubmitsCorrection(itemId: Id, ctx: SecurityContext, changes: string)
    | EscalatesItem(itemId: Id, ctx: SecurityContext)
    | PlansItem(itemId: Id, ctx: SecurityContext, inputs: PlanningInput, classified: WorkType, key: Option<string>)
    | RegeneratesDraft(itemId: Id, draftId: Id, ctx: SecurityContext)
    | Approves(approvalId: Id, ctx: SecurityContext, reviewNotes: Option<string>)
    | Rejects(approvalId: Id, ctx: SecurityContext, reviewNotes: Option<string>)
    | Reserves(itemId: Id, stepId: Id, ctx: SecurityContext)
    | CallsTool(token: Id)
    | Renews(token: Id, ctx: SecurityContext)
    | MarksUnknown(token: Id, ctx: SecurityContext)
    | Finalizes(token: Id, success: bool, ctx: SecurityContext)
    | Reconciles(itemId: Id, stepId: Id, ctx: SecurityContext, succeeded: bool, summary: string)
    | TimePasses(elapsed: nat)
    | DocumentArrives(documentId: Id, workspace: string)
    | DocumentMoves(documentId: Id, target: DocumentStatus)

  /** The context that the routes create an item with. */
  function RouteContext(outcome: string): map<ContextKey, ContextValue> {
    map[RequestedOutcome := Text(outcome)]
  }

  function Apply(s: State, a: Action): State {
    match a
    case CreatesItem(ctx, title, workType, documents, outcome, key) =>
      CreateItem(s, ctx, title, workType, documents, RouteContext(outcome), key).0
    case EditsItem(itemId, ctx, title, priority, assignee, requestedOutcome, tags) =>
      UpdateItem(s, itemId, ctx, title, priority, assignee, requestedOutcome, tags).0
    case AsksCorrection(itemId, ctx, notes) => RequestCorrection(s, itemId, ctx, notes).0
    case SubmitsCorrection(itemId, ctx, changes) => SubmitCorrection(s, itemId, ctx, changes).0
    case EscalatesItem(itemId, ctx) => Escalate(s, itemId, ctx).0
    case PlansItem(itemId, ctx, inputs, classified, key) => PlanItem(s, itemId, ctx, inputs, classified, key).0
    case RegeneratesDraft(itemId, draftId, ctx) => RegenerateDraft(s, itemId, draftId, ctx).0
    case Approves(approvalId, ctx, notes) => Approve(s, approvalId, ctx, notes).0
    case Rejects(approvalId, ctx, notes) => Reject(s, approvalId, ctx, notes).0
    case Reserves(itemId, stepId, ctx) => Reserve(s, itemId, stepId, ctx).0
    case CallsTool(token) => Starting.CallTool(s, token)
    case Renews(token, ctx) => if token in s.attempts then Renew(s, s.attempts[token].reservation, ctx).0 else s
    case MarksUnknown(token, ctx) =>
      if token in s.attempts then MarkUnknown(s, s.attempts[token].reservation, ctx).0 else s
    case Finalizes(token, success, ctx) =>
      if token in s.attempts then Finalize(s, s.attempts[token].reservation, success, ctx).0 else s
    case Reconciles(itemId, stepId, ctx, succeeded, summary) =>
      Reconcile(s, itemId, stepId, ctx, succeeded, summary).0
    case TimePasses(elapsed) => s.(clock := s.clock + elapsed)
    case DocumentArrives(documentId, workspace) => UploadDocument(s, documentId, workspace)
    case DocumentMoves(documentId, target) => MoveDocument(s, documentId, target).0
  }

  /** The state after a sequence of actions. */
  function RunFrom(s: State, actions: seq<Action>): State {
    if actions == [] then s
    else Apply(RunFrom(s, actions[..|actions| - 1]), actions[|actions| - 1])
  }

  // ------------------------------------------------------------ what an action does

  /** What a holder does is what a run calls its actions. */
  lemma {:induction false} HolderApplies(s: State, r: Reservation, success: bool, ctx: SecurityContext)
    requires GrantedReservation(s, r)
    ensures Apply(s, Renews(r.token, ctx)) == Renew(s, r, ctx).0
    ensures Apply(s, MarksUnknown(r.token, ctx)) == MarkUnknown(s, r, ctx).0
    ensures Apply(s, Finalizes(r.token, success, ctx)) == Finalize(s, r, success, ctx).0
  {
    hide Renew, MarkUnknown, Finalize, CreateItem, PlanItem, Reserve, Reconcile, UpdateItem, RequestCorrection,
         SubmitCorrection, Escalate, RegenerateDraft, Approve, Reject;
  }

  lemma {:induction false} CallingApplies(s: State, token: Id)
    ensures Apply(s, CallsTool(token)) == Starting.CallTool(s, token)
  {
  }

  lemma {:induction false} ReservingApplies(s: State, itemId: Id, stepId: Id, ctx: SecurityContext)
    ensures Apply(s, Reserves(itemId, stepId, ctx)) == Reserve(s, itemId, stepId, ctx).0
  {
    hide Reserve;
  }

  lemma {:induction false} MovingApplies(s: State, a: Action)
    requires a.DocumentArrives? || a.DocumentMoves?
    ensures a.DocumentArrives? ==> Apply(s, a) == UploadDocument(s, a.documentId, a.workspace)
    ensures a.DocumentMoves? ==> Apply(s, a) == MoveDocument(s, a.documentId, a.target).0
  {
    hide CreateItem, PlanItem, Reserve, Renew, MarkUnknown, Finalize, Reconcile, UpdateItem, RequestCorrection,
         SubmitCorrection, Escalate, RegenerateDraft, Approve, Reject, Starting.CallTool, UploadDocument, MoveDocument;
  }

  lemma {:induction false} DocumentsMoveAlone(s: State, a: Action)
    requires a.DocumentArrives? || a.DocumentMoves?
    ensures Apply(s, a) == s.(documents := Apply(s, a).documents)
  {
    hide Apply, Transition;
    MovingApplies(s, a);
  }

  predicate Initial(s: State) {
    && s.items == map[] && s.itemOrder == [] && s.plans == map[] && s.planOrder == [] && s.approvals == []
    && s.drafts == [] && s.events == [] && s.runs == [] && s.attempts == map[] && s.calls == []
  }

  ghost predicate Reachable(s: State) {
    exists start, actions :: Initial(start) && s == RunFrom(start, actions)
  }

  // ------------------------------------------------------------ one action

  lemma {:induction false} ReserveSteps(s: State, itemId: Id, stepId: Id, ctx: SecurityContext)
    requires Inv(s)
    ensures var (t, r) := Reserve(s, itemId, stepId, ctx);
            t == s || exists p: Id, k: nat ::
                        && Starting.Startable(s, itemId, p, k) && t == Starting.After(s, itemId, p, k)
                        && s.plans[p].steps[k].id == stepId
  {
    var (t, r) := Reserve(s, itemId, stepId, ctx);
    if t != s {
      var p := s.items[itemId].currentPlan.value;
      var k := FindStep(s.plans[p].steps, stepId).value;
      assert Starting.Startable(s, itemId, p, k) && t == Starting.After(s, itemId, p, k);
    }
  }

  /** A running step found under a granted reservation, or under the item's own target,
      is the one its item waits for. */
  lemma {:induction false} RunningStep(s: State, p: Id, stepId: Id)
    requires Inv(s) && p in s.plans && FindStep(s.plans[p].steps, stepId).Some?
    requires s.plans[p].steps[FindStep(s.plans[p].steps, stepId).value].status == Executing
    ensures Running(s, s.plans[p].itemId, p, FindStep(s.plans[p].steps, stepId).value)
  {
    assert Justified(s, p, FindStep(s.plans[p].steps, stepId).value);
  }

  function NotedRun(s: State, r: Reservation, success: bool): State {
    if s.config.recordsRuns then s.(runs := s.runs + [ExecutionRun(r.itemId, r.planId, success)]) else s
  }

  lemma {:induction false} NotingIsQuiet(s: State, r: Reservation, success: bool)
    requires DraftsOk(s)
    ensures Quiet(s, NotedRun(s, r, success))
  {
  }

  lemma {:induction false} FinalizeSteps(s: State, r: Reservation, success: bool, ctx: SecurityContext)
    requires Inv(s) && GrantedReservation(s, r)
    ensures var (t, reply) := Finalize(s, r, success, ctx);
            t == s || exists k: nat :: Running(s, r.itemId, r.planId, k) && s.plans[r.planId].steps[k].id == r.stepId
                                  && t == Settling.After(NotedRun(s, r, success), r.itemId, r.planId, k, success,
                                                         if success then ActionExecuted else ActionFailed)
  {
    var (t, reply) := Finalize(s, r, success, ctx);
    HolderFindsStep(s, r, ctx);
    if t != s {
      var k := Held(s, r, ctx).value.1;
      RunningStep(s, r.planId, r.stepId);
      assert s.items[r.itemId].id == r.itemId;
      assert PlanOk(s, r.planId);
      assert Running(s, r.itemId, r.planId, k);
    }
  }

  lemma {:induction false} ReconcileSteps(s: State, itemId: Id, stepId: Id, ctx: SecurityContext, succeeded: bool,
                                          summary: string)
    requires Inv(s)
    ensures var (t, reply) := Reconcile(s, itemId, stepId, ctx, succeeded, summary);
            t == s || exists p: Id, k: nat :: Running(s, itemId, p, k) && s.plans[p].steps[k].id == stepId
                                     && t == Settling.After(s, itemId, p, k, succeeded,
                                                            if succeeded then ReconciledSucceeded else ReconciledFailed)
  {
    var (t, reply) := Reconcile(s, itemId, stepId, ctx, succeeded, summary);
    if t != s {
      var item := s.items[itemId];
      var p := PlanContainingStep(s, item, stepId).value;
      var k := FindStep(s.plans[p].steps, stepId).value;
      LookupStaysHome(s, item, stepId);
      RunningStep(s, p, stepId);
      assert Running(s, itemId, p, k) && s.plans[p].steps[k].id == stepId;
      assert PlanOk(s, p);
    }
  }

  /** The plan that reconciliation finds always belongs to the item. */
  lemma {:induction false} LookupStaysHome(s: State, item: WorkItem, stepId: Id)
    requires PlanContainingStep(s, item, stepId).Ok?
    ensures OwnedPlanWithStep(s.plans[PlanContainingStep(s, item, stepId).value], item, stepId)
  {
    SearchPreferredFinds(s, item, PreferredPlans(item).value, stepId);
  }

  lemma {:induction false} QuietStep(s: State, t: State)
    requires Inv(s) && Quiet(s, t)
    ensures Inv(t) && Evolves(s, t)
  {
    QuietKeepsInv(s, t);
    QuietEvolves(s, t);
  }

  lemma {:induction false} CreationStep(s: State, ctx: SecurityContext, title: string, workType: Option<WorkType>,
                                        documents: seq<Id>, outcome: string, key: Option<string>)
    requires Inv(s)
    ensures var t := CreateItem(s, ctx, title, workType, documents, RouteContext(outcome), key).0;
            Inv(t) && Evolves(s, t)
  {
    var t := CreateItem(s, ctx, title, workType, documents, RouteContext(outcome), key).0;
    Creation.CreationCreates(s, ctx, title, workType, documents, RouteContext(outcome), key);
    if t == s {
      EvolvesIsReflexive(s);
    } else {
      Creation.CreatedKeepsInv(s, t, t.items[s.nextId]);
      CreatedEvolves(s, t, t.items[s.nextId]);
    }
  }

  lemma {:induction false} PlanningStep(s: State, itemId: Id, ctx: SecurityContext, inputs: PlanningInput,
                                        classified: WorkType, key: Option<string>)
    requires Inv(s)
    ensures var t := PlanItem(s, itemId, ctx, inputs, classified, key).0;
            Inv(t) && Evolves(s, t)
  {
    hide Creation.PlanAdded, Evolves, Inv, PlanItem;
    var t := PlanItem(s, itemId, ctx, inputs, classified, key).0;
    InvParts(s);
    Creation.PlanningAdds(s, itemId, ctx, inputs, classified, key);
    if t == s {
      EvolvesIsReflexive(s);
    } else {
      Creation.PlanKeepsInv(s, t, s.items[itemId], RequestIdentity.NormalizedKey(key).value);
      PlanAddedEvolves(s, t, s.items[itemId], RequestIdentity.NormalizedKey(key).value);
    }
  }

  lemma {:induction false} InvParts(s: State)
    requires Inv(s)
    ensures ItemsOk(s) && PlansOk(s) && DraftsOk(s)
  {
  }

  lemma {:induction false} StartingParts(s: State, p: Id)
    requires Inv(s) && p in s.plans
    ensures ItemsOk(s) && AttemptsOk(s) && PlanOk(s, p)
  {
    assert PlanOk(s, p);
  }

  lemma {:induction false} ReservationStep(s: State, itemId: Id, stepId: Id, ctx: SecurityContext)
    requires Inv(s)
    ensures Inv(Reserve(s, itemId, stepId, ctx).0) && Evolves(s, Reserve(s, itemId, stepId, ctx).0)
  {
    hide Inv, Evolves, Reserve;
    ReserveSteps(s, itemId, stepId, ctx);
    var t := Reserve(s, itemId, stepId, ctx).0;
    if t == s {
      EvolvesIsReflexive(s);
    } else {
      var p: Id, k: nat :| Starting.Startable(s, itemId, p, k) && t == Starting.After(s, itemId, p, k);
      Starting.StartKeepsInv(s, itemId, p, k);
      StartingParts(s, p);
      StartEvolves(s, itemId, p, k);
    }
  }

  lemma {:induction false} SettlingStep(s: State, i: Id, p: Id, k: nat, succeeded: bool, kind: EventKind)
    requires Inv(s) && Running(s, i, p, k) && Weight(kind) == -1
    ensures Inv(Settling.After(s, i, p, k, succeeded, kind)) && Evolves(s, Settling.After(s, i, p, k, succeeded, kind))
  {
    Settling.SettleKeepsInv(s, i, p, k, succeeded, kind);
    assert PlanOk(s, p);
    SettleEvolves(s, i, p, k, succeeded, kind);
  }

  lemma {:induction false} NotedSettlingStep(s: State, r: Reservation, k: nat, success: bool, kind: EventKind)
    requires Inv(s) && Running(s, r.itemId, r.planId, k) && Weight(kind) == -1
    ensures Running(NotedRun(s, r, success), r.itemId, r.planId, k)
    ensures var t := Settling.After(NotedRun(s, r, success), r.itemId, r.planId, k, success, kind);
            Inv(t) && Evolves(s, t)
  {
    hide Inv, Evolves, Quiet, Settling.After;
    var noted := NotedRun(s, r, success);
    InvParts(s);
    NotingIsQuiet(s, r, success);
    QuietKeepsRunning(s, noted, r.itemId, r.planId, k);
    QuietStep(s, noted);
    SettlingStep(noted, r.itemId, r.planId, k, success, kind);
    EvolvesIsTransitive(s, noted, Settling.After(noted, r.itemId, r.planId, k, success, kind));
  }

  lemma {:induction false} FinalizationStep(s: State, r: Reservation, success: bool, ctx: SecurityContext)
    requires Inv(s) && GrantedReservation(s, r)
    ensures Inv(Finalize(s, r, success, ctx).0) && Evolves(s, Finalize(s, r, success, ctx).0)
  {
    hide Inv, Evolves, Finalize, Settling.After;
    FinalizeSteps(s, r, success, ctx);
    var t := Finalize(s, r, success, ctx).0;
    if t == s {
      EvolvesIsReflexive(s);
    } else {
      var kind := if success then ActionExecuted else ActionFailed;
      var k: nat :| Running(s, r.itemId, r.planId, k)
                    && t == Settling.After(NotedRun(s, r, success), r.itemId, r.planId, k, success, kind);
      NotedSettlingStep(s, r, k, success, kind);
    }
  }

  lemma {:induction false} ReconciliationStep(s: State, itemId: Id, stepId: Id, ctx: SecurityContext, succeeded: bool,
                                              summary: string)
    requires Inv(s)
    ensures var t := Reconcile(s, itemId, stepId, ctx, succeeded, summary).0;
            Inv(t) && Evolves(s, t)
  {
    hide Inv, Evolves, Reconcile;
    ReconcileSteps(s, itemId, stepId, ctx, succeeded, summary);
    var t := Reconcile(s, itemId, stepId, ctx, succeeded, summary).0;
    if t == s {
      EvolvesIsReflexive(s);
    } else {
      var kind := if succeeded then ReconciledSucceeded else ReconciledFailed;
      var p: Id, k: nat :| Running(s, itemId, p, k) && t == Settling.After(s, itemId, p, k, succeeded, kind);
      SettlingStep(s, itemId, p, k, succeeded, kind);
    }
  }

  lemma {:induction false} WorldIsQuiet(s: State, t: State)
    requires DraftsOk(s) && s.clock <= t.clock && t == s.(clock := t.clock, documents := t.documents)
    ensures Quiet(s, t)
  {
  }

  lemma {:induction false} WorldStep(s: State, a: Action)
    requires DraftsOk(s) && (a.TimePasses? || a.DocumentArrives? || a.DocumentMoves?)
    ensures Quiet(s, Apply(s, a))
  {
    hide Quiet, CreateItem, PlanItem, Reserve, Renew, MarkUnknown, Finalize, Reconcile, UpdateItem, RequestCorrection,
         SubmitCorrection, Escalate, RegenerateDraft, Approve, Reject, Starting.CallTool, UploadDocument, MoveDocument;
    if !a.TimePasses? {
      DocumentsMoveAlone(s, a);
    }
    WorldIsQuiet(s, Apply(s, a));
  }

  /** The actions that neither add a record nor start, settle or carry out an execution. */
  predicate IsQuietAction(a: Action) {
    !(a.CreatesItem? || a.PlansItem? || a.Reserves? || a.CallsTool? || a.Finalizes? || a.Reconciles?)
  }

  lemma {:induction false} QuietAction(s: State, a: Action)
    requires Inv(s) && IsQuietAction(a)
    ensures Quiet(s, Apply(s, a))
  {
    hide Inv, Quiet;
    InvParts(s);
    match a {
      case EditsItem(itemId, ctx, title, priority, assignee, requestedOutcome, tags) =>
        EditsAreQuiet(s, itemId, ctx, title, priority, assignee, requestedOutcome, tags);
      case AsksCorrection(itemId, ctx, notes) => RequestCorrectionIsQuiet(s, itemId, ctx, notes);
      case SubmitsCorrection(itemId, ctx, changes) => SubmitCorrectionIsQuiet(s, itemId, ctx, changes);
      case EscalatesItem(itemId, ctx) => EscalationIsQuiet(s, itemId, ctx);
      case RegeneratesDraft(itemId, draftId, ctx) => RegeneratingIsQuiet(s, itemId, draftId, ctx);
      case Approves(approvalId, ctx, notes) => DecisionsAreQuiet(s, approvalId, ctx, notes);
      case Rejects(approvalId, ctx, notes) => DecisionsAreQuiet(s, approvalId, ctx, notes);
      case Renews(token, ctx) => HolderIsQuiet(s, token, ctx);
      case MarksUnknown(token, ctx) => HolderIsQuiet(s, token, ctx);
      case TimePasses(elapsed) => WorldStep(s, a);
      case DocumentArrives(documentId, workspace) => WorldStep(s, a);
      case DocumentMoves(documentId, target) => WorldStep(s, a);
    }
  }

  lemma {:induction false} HolderIsQuiet(s: State, token: Id, ctx: SecurityContext)
    requires Inv(s)
    ensures Quiet(s, Apply(s, Renews(token, ctx))) && Quiet(s, Apply(s, MarksUnknown(token, ctx)))
  {
    hide Quiet;
    if token in s.attempts {
      GrantedToken(s, token);
      RenewIsQuiet(s, s.attempts[token].reservation, ctx);
      MarkUnknownIsQuiet(s, s.attempts[token].reservation, ctx);
    } else {
      WorldStep(s, TimePasses(0));
    }
  }

  lemma {:induction false} AddingAction(s: State, a: Action)
    requires Inv(s) && (a.CreatesItem? || a.PlansItem? || a.Reserves?)
    ensures Inv(Apply(s, a)) && Evolves(s, Apply(s, a))
  {
    hide Inv, Evolves, CreateItem, PlanItem, Reserve, Renew, MarkUnknown, Finalize, Reconcile, UpdateItem,
         RequestCorrection, SubmitCorrection, Escalate, RegenerateDraft, Approve, Reject, Starting.CallTool;
    match a {
      case CreatesItem(ctx, title, workType, documents, outcome, key) =>
        CreationStep(s, ctx, title, workType, documents, outcome, key);
      case PlansItem(itemId, ctx, inputs, classified, key) => PlanningStep(s, itemId, ctx, inputs, classified, key);
      case Reserves(itemId, stepId, ctx) => ReservationStep(s, itemId, stepId, ctx);
    }
  }

  lemma {:induction false} SettlingAction(s: State, a: Action)
    requires Inv(s) && (a.CallsTool? || a.Finalizes? || a.Reconciles?)
    ensures Inv(Apply(s, a)) && Evolves(s, Apply(s, a))
  {
    hide Inv, Evolves, CreateItem, PlanItem, Reserve, Renew, MarkUnknown, Finalize, Reconcile, UpdateItem,
         RequestCorrection, SubmitCorrection, Escalate, RegenerateDraft, Approve, Reject, Starting.CallTool;
    match a {
      case CallsTool(token) =>
        Starting.CallKeepsInv(s, token);
        CallEvolves(s, token);
      case Finalizes(token, success, ctx) =>
        if token in s.attempts {
          GrantedToken(s, token);
          FinalizationStep(s, s.attempts[token].reservation, success, ctx);
        } else {
          EvolvesIsReflexive(s);
        }
      case Reconciles(itemId, stepId, ctx, succeeded, summary) =>
        ReconciliationStep(s, itemId, stepId, ctx, succeeded, summary);
    }
  }

  /** Every action keeps the invariant, and takes nothing back. */
  lemma {:induction false} ActionKeepsInv(s: State, a: Action)
    requires Inv(s)
    ensures Inv(Apply(s, a)) && Evolves(s, Apply(s, a))
  {
    hide Inv, Evolves, Quiet, Apply;
    if IsQuietAction(a) {
      QuietAction(s, a);
      QuietStep(s, Apply(s, a));
    } else if a.CreatesItem? || a.PlansItem? || a.Reserves? {
      AddingAction(s, a);
    } else {
      SettlingAction(s, a);
    }
  }

  lemma {:induction false} GrantedToken(s: State, token: Id)
    requires Inv(s) && token in s.attempts
    ensures GrantedReservation(s, s.attempts[token].reservation)
  {
    assert AttemptOk(s, token);
  }

  // ------------------------------------------------------------ whole runs

  lemma {:induction false} RunKeepsInv(s: State, actions: seq<Action>)
    requires Inv(s)
    ensures Inv(RunFrom(s, actions)) && Evolves(s, RunFrom(s, actions))
  {
    hide Inv, Evolves, Apply;
    if actions == [] {
      EvolvesIsReflexive(s);
    } else {
      var before := RunFrom(s, actions[..|actions| - 1]);
      RunKeepsInv(s, actions[..|actions| - 1]);
      ActionKeepsInv(before, actions[|actions| - 1]);
      EvolvesIsTransitive(s, before, RunFrom(s, actions));
    }
  }

  lemma {:induction false} InitialInv(s: State)
    requires Initial(s)
    ensures Inv(s)
  {
  }

  /** The invariant holds in every reachable state. */
  lemma {:induction false} ReachableInv(s: State)
    requires Reachable(s)
    ensures Inv(s)
  {
    hide Inv, Initial;
    var start, actions :| Initial(start) && s == RunFrom(start, actions);
    InitialInv(start);
    RunKeepsInv(start, actions);
  }

  lemma {:induction false} RunsCompose(s: State, first: seq<Action>, then_: seq<Action>)
    ensures RunFrom(s, first + then_) == RunFrom(RunFrom(s, first), then_)
  {
    hide Apply;
    if then_ == [] {
      assert first + then_ == first;
    } else {
      var n := |then_| - 1;
      RunsCompose(s, first, then_[..n]);
      assert (first + then_)[..|first + then_| - 1] == first + then_[..n];
    }
  }

  lemma {:induction false} RunsNowhere(s: State)
    ensures RunFrom(s, []) == s
  {
  }

  lemma {:induction false} OneMore(s: State, actions: seq<Action>, a: Action)
    ensures RunFrom(s, actions + [a]) == Apply(RunFrom(s, actions), a)
  {
    hide Apply;
    assert (actions + [a])[..|actions|] == actions;
  }

  /** A state that a run leads to from a reachable state is reachable. */
  lemma {:induction false} ReachableRuns(s: State, actions: seq<Action>)
    requires Reachable(s)
    ensures Reachable(RunFrom(s, actions))
  {
    var start, first :| Initial(start) && s == RunFrom(start, first);
    RunsCompose(start, first, actions);
    assert RunFrom(s, actions) == RunFrom(start, first + actions);
  }
}
