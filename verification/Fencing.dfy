/** Late holders, and verdicts that stand. */
module Fencing {
  import opened Basics
  import opened Models
  import opened Protocol
  import opened Invariant
  import opened QuietOperations
  import opened Evolution
  import opened Runs
  import Planner
  import RequestIdentity
  import Settling
  import Starting
  import Creation

  /** The status of the step that a reservation is for. */
  function StepStatus(s: State, r: Reservation): ActionStepStatus
    requires r.planId in s.plans && FindStep(s.plans[r.planId].steps, r.stepId).Some?
  {
    s.plans[r.planId].steps[FindStep(s.plans[r.planId].steps, r.stepId).value].status
  }

  predicate HasVerdict(status: ActionStepStatus) {
    status == Executed || status == Failed
  }

  ghost predicate WellPlaced(s: State, r: Reservation) {
    && r.itemId in s.items && r.planId in s.plans && s.plans[r.planId].itemId == r.itemId
    && FindStep(s.plans[r.planId].steps, r.stepId).Some?
  }

  /** The reservation is no longer the active one: its step was settled, the item has
      another plan by now, or a later reservation was granted on the item. */
  ghost predicate Superseded(s: State, r: Reservation) {
    WellPlaced(s, r)
    && (|| HasVerdict(StepStatus(s, r))
        || s.items[r.itemId].currentPlan != Some(r.planId)
        || exists t :: t in s.attempts && t > r.token && s.attempts[t].reservation.itemId == r.itemId)
  }

  lemma {:induction false} GrantedIsPlaced(s: State, r: Reservation, ctx: SecurityContext)
    requires Inv(s) && GrantedReservation(s, r)
    ensures WellPlaced(s, r)
    ensures StepStatus(s, r) == Executing || HasVerdict(StepStatus(s, r))
    ensures Held(s, r, ctx).Ok? <==> s.items[r.itemId].workspace == ctx.workspace
  {
    HolderFindsStep(s, r, ctx);
    assert AttemptOk(s, r.token);
    var k :| 0 <= k < |s.plans[r.planId].steps| && s.plans[r.planId].steps[k].id == r.stepId
             && Planner.Started(s.plans[r.planId].steps[k].status);
    assert s.plans[r.planId].steps[FindStep(s.plans[r.planId].steps, r.stepId).value].id
        == s.plans[r.planId].steps[k].id;
  }

  /** A granted reservation is the active one, by the token and target test that guards
      every holder call, exactly while its step is executing. */
  lemma {:induction false} ActiveIffExecuting(s: State, r: Reservation)
    requires Inv(s) && GrantedReservation(s, r) && WellPlaced(s, r)
    ensures StepStatus(s, r) == Executing <==>
              s.items[r.itemId].ExecutionPending() && ReservationMatches(s.items[r.itemId], r)
  {
    var k := FindStep(s.plans[r.planId].steps, r.stepId).value;
    assert Justified(s, r.planId, k);
    assert Waiting(s, r.itemId);
    if s.items[r.itemId].ExecutionPending() && ReservationMatches(s.items[r.itemId], r) {
      var p: Id, j: nat :| Running(s, r.itemId, p, j);
      assert p == r.planId && s.plans[p].steps[j].id == r.stepId;
    }
  }

  /** However a reservation was superseded, its step has its verdict. */
  lemma {:induction false} SupersededIsSettled(s: State, r: Reservation)
    requires Inv(s) && GrantedReservation(s, r) && Superseded(s, r)
    ensures WellPlaced(s, r) && HasVerdict(StepStatus(s, r))
  {
    var k := FindStep(s.plans[r.planId].steps, r.stepId).value;
    GrantedIsPlaced(s, r, SecurityContext("", false, "", Admin));
    assert Justified(s, r.planId, k);
    if StepStatus(s, r) == Executing {
      RunningIsNewest(s, r, k);
    }
  }

  /** The reservation of a running step is the last one granted on the item. */
  lemma {:induction false} RunningIsNewest(s: State, r: Reservation, k: nat)
    requires Inv(s) && GrantedReservation(s, r) && Running(s, r.itemId, r.planId, k)
    requires s.plans[r.planId].steps[k].id == r.stepId
    ensures forall t :: t in s.attempts && s.attempts[t].reservation.itemId == r.itemId ==> t <= r.token
  {
    assert PlanOk(s, r.planId);
    forall t | t in s.attempts && s.attempts[t].reservation.itemId == r.itemId ensures t <= r.token {
      assert AttemptOk(s, t);
    }
  }

  lemma {:induction false} SettledHolderIsInert(s: State, r: Reservation, ctx: SecurityContext, success: bool)
    requires WellPlaced(s, r) && HasVerdict(StepStatus(s, r))
    ensures Renew(s, r, ctx).0 == s && Renew(s, r, ctx).1 != Ok(true)
    ensures MarkUnknown(s, r, ctx).0 == s
    ensures Finalize(s, r, success, ctx).0 == s
    ensures !Finalize(s, r, success, ctx).1.Ok?
              || Finalize(s, r, success, ctx).1.value == BlockedReply(ReservationInactive)
  {
  }

  /** Fencing. Once a reservation is superseded, nothing its holder does at any later time
      changes anything: no plan, item, event or agent run. */
  lemma {:induction false} SupersededIsFenced(s: State, r: Reservation, later: seq<Action>, ctx: SecurityContext,
                                              success: bool)
    requires Reachable(s) && GrantedReservation(s, r) && Superseded(s, r)
    ensures var t := RunFrom(s, later);
            && Renew(t, r, ctx).0 == t && Renew(t, r, ctx).1 != Ok(true)
            && MarkUnknown(t, r, ctx).0 == t
            && Finalize(t, r, success, ctx).0 == t
            && Apply(t, Renews(r.token, ctx)) == t
            && Apply(t, MarksUnknown(r.token, ctx)) == t
            && Apply(t, Finalizes(r.token, success, ctx)) == t
  {
    hide Inv, WellPlaced, StepStatus, HasVerdict, Superseded, Renew, MarkUnknown, Finalize, Reachable, Apply, RunFrom;
    ReachableInv(s);
    SupersededIsSettled(s, r);
    VerdictPersists(s, r, later);
    SettledHolderIsInert(RunFrom(s, later), r, ctx, success);
    HolderApplies(RunFrom(s, later), r, success, ctx);
  }

  /** A verdict stands on every continuation. */
  lemma {:induction false} VerdictPersists(s: State, r: Reservation, later: seq<Action>)
    requires Inv(s) && GrantedReservation(s, r) && WellPlaced(s, r) && HasVerdict(StepStatus(s, r))
    ensures var t := RunFrom(s, later);
            WellPlaced(t, r) && StepStatus(t, r) == StepStatus(s, r) && GrantedReservation(t, r)
  {
    hide Inv, RunFrom, AttemptOk, FindStepFrom, FindStep;
    RunKeepsInv(s, later);
    var t := RunFrom(s, later);
    assert PlanEvolves(s.plans[r.planId], t.plans[r.planId]);
    FindStepAgrees(s.plans[r.planId].steps, t.plans[r.planId].steps, r.stepId);
    var k := FindStep(s.plans[r.planId].steps, r.stepId).value;
    assert StepEvolves(s.plans[r.planId].steps[k], t.plans[r.planId].steps[k]);
  }

  // ------------------------------------------------------------ one verdict per step

  /** In reachable states the plans to search first are never refused: they are plans of the
      item, without repeats, first the one the context names, then the current one. */
  lemma {:induction false} PreferredPlansAreOwn(s: State, i: Id)
    requires Reachable(s) && i in s.items
    ensures PreferredPlans(s.items[i]).Ok?
    ensures var ids := PreferredPlans(s.items[i]).value;
            && |ids| <= 2 && (|ids| == 2 ==> ids[0] != ids[1])
            && (forall p :: p in ids ==> p in s.plans && s.plans[p].itemId == i)
            && (s.items[i].currentPlan.Some? ==> s.items[i].currentPlan.value in ids)
            && (forall p :: s.items[i].Get(ExecutionPlanId) == Some(UuidText(p)) ==> |ids| > 0 && ids[0] == p)
  {
    ReachableInv(s);
    assert NamesOwnPlan(s, i);
  }

  /** The plan lookup of a reconciliation finds the plan that holds the step: in a reachable
      state there is one such plan, and neither the named nor the current plan of the item
      stops the search. */
  lemma {:induction false} LookupFindsThePlan(s: State, i: Id, p: Id, k: nat)
    requires Inv(s) && i in s.items && p in s.plans && s.plans[p].itemId == i && k < |s.plans[p].steps|
    ensures PlanContainingStep(s, s.items[i], s.plans[p].steps[k].id) == Ok(p)
    ensures FindStep(s.plans[p].steps, s.plans[p].steps[k].id) == Some(k)
  {
    var item := s.items[i];
    var stepId := s.plans[p].steps[k].id;
    assert NamesOwnPlan(s, i) && PlanOk(s, p);
    var ids := PreferredPlans(item).value;
    forall q | q in ids ensures q in s.plans && s.plans[q].itemId == i && s.plans[q].workspace == item.workspace {
      assert PlanOk(s, q);
    }
    PreferredSearchIsHarmless(s, item, ids, stepId, p, k);
    assert OwnedPlanWithStep(s.plans[p], item, stepId);
    var found := SearchAll(s, item, s.planOrder, stepId);
    if found.Some? {
      var j := FindStep(s.plans[found.value].steps, stepId).value;
      assert s.plans[found.value].steps[j].id == s.plans[p].steps[k].id;
    }
  }

  lemma {:induction false} PreferredSearchIsHarmless(s: State, item: WorkItem, ids: seq<Id>, stepId: Id, p: Id, k: nat)
    requires StepIdsOk(s) && p in s.plans && k < |s.plans[p].steps| && s.plans[p].steps[k].id == stepId
    requires forall q :: q in ids ==>
              q in s.plans && s.plans[q].itemId == item.id && s.plans[q].workspace == item.workspace
    ensures SearchPreferred(s, item, ids, stepId) == Ok(Some(p)) || SearchPreferred(s, item, ids, stepId) == Ok(None)
  {
    if ids != [] {
      assert ids[0] in ids;
      var found := FindStep(s.plans[ids[0]].steps, stepId);
      if found.Some? {
        assert s.plans[ids[0]].steps[found.value].id == s.plans[p].steps[k].id;
      } else {
        PreferredSearchIsHarmless(s, item, ids[1..], stepId, p, k);
      }
    }
  }

  /** The first verdict of a step is its only one. On every continuation the step keeps it,
      a reconciliation that agrees with it changes nothing and returns the item, and a
      contrary one is refused. */
  lemma {:induction false} FirstVerdictStands(s: State, p: Id, k: nat, later: seq<Action>, ctx: SecurityContext,
                                              succeeded: bool, summary: string)
    requires Reachable(s) && p in s.plans && k < |s.plans[p].steps| && HasVerdict(s.plans[p].steps[k].status)
    requires s.plans[p].workspace == ctx.workspace && HasWords(summary)
    ensures var t := RunFrom(s, later);
            var i := s.plans[p].itemId;
            var (u, reply) := Reconcile(t, i, s.plans[p].steps[k].id, ctx, succeeded, summary);
            && p in t.plans && k < |t.plans[p].steps| && t.plans[p].steps[k].status == s.plans[p].steps[k].status
            && u == t && i in t.items
            && (reply == Ok(t.items[i]) <==> succeeded == (s.plans[p].steps[k].status == Executed))
            && (reply.Raised? <==> succeeded != (s.plans[p].steps[k].status == Executed))
  {
    ReachableInv(s);
    RunKeepsInv(s, later);
    var t := RunFrom(s, later);
    assert PlanEvolves(s.plans[p], t.plans[p]);
    assert StepEvolves(s.plans[p].steps[k], t.plans[p].steps[k]);
    assert PlanOk(t, p);
    LookupFindsThePlan(t, s.plans[p].itemId, p, k);
  }

  // ------------------------------------------------------------ what happens to an outcome

  /** The moves of an item's outcome: a pending one may become unknown or get its verdict,
      and an execution starts only while none is pending. */
  predicate OutcomeMoves(a: Option<ContextValue>, b: Option<ContextValue>) {
    var pending := a == Some(OutcomeText(InFlight)) || a == Some(OutcomeText(Unknown));
    || b == a
    || (pending && b == Some(OutcomeText(Unknown)))
    || (pending && (b == Some(OutcomeText(ConfirmedSuccess)) || b == Some(OutcomeText(ConfirmedFailure))))
    || (!pending && b == Some(OutcomeText(InFlight)))
  }

  ghost predicate OutcomesMove(s: State, t: State) {
    forall i :: i in s.items ==>
      i in t.items && OutcomeMoves(s.items[i].Get(ExecutionOutcomeKey), t.items[i].Get(ExecutionOutcomeKey))
  }

  lemma {:induction false} QuietMoves(s: State, t: State)
    requires Quiet(s, t)
    ensures OutcomesMove(s, t)
  {
    forall i | i in s.items
      ensures i in t.items && OutcomeMoves(s.items[i].Get(ExecutionOutcomeKey), t.items[i].Get(ExecutionOutcomeKey))
    {
      assert SameExecution(s.items[i], t.items[i], t.clock);
    }
  }

  lemma {:induction false} SettleMoves(s: State, i: Id, p: Id, k: nat, succeeded: bool, kind: EventKind)
    requires ItemsOk(s) && Running(s, i, p, k)
    ensures OutcomesMove(s, Settling.After(s, i, p, k, succeeded, kind))
  {
  }

  lemma {:induction false} StartMoves(s: State, i: Id, p: Id, k: nat)
    requires ItemsOk(s) && Starting.Startable(s, i, p, k) && !s.items[i].ExecutionPending()
    ensures OutcomesMove(s, Starting.After(s, i, p, k))
  {
  }

  lemma {:induction false} CreatedMoves(s: State, ctx: SecurityContext, title: string, workType: Option<WorkType>,
                                        documents: seq<Id>, outcome: string, key: Option<string>)
    requires ItemsOk(s)
    ensures OutcomesMove(s, CreateItem(s, ctx, title, workType, documents, RouteContext(outcome), key).0)
  {
    Creation.CreationCreates(s, ctx, title, workType, documents, RouteContext(outcome), key);
  }

  lemma {:induction false} PlanAddedMoves(s: State, t: State, item: WorkItem, key: Option<string>)
    requires Creation.PlanAdded(s, t, item, key)
    ensures OutcomesMove(s, t)
  {
  }

  lemma {:induction false} PlanningMoves(s: State, itemId: Id, ctx: SecurityContext, inputs: PlanningInput,
                                         classified: WorkType, key: Option<string>)
    requires ItemsOk(s)
    ensures OutcomesMove(s, PlanItem(s, itemId, ctx, inputs, classified, key).0)
  {
    hide Creation.PlanAdded, PlanItem;
    var t := PlanItem(s, itemId, ctx, inputs, classified, key).0;
    Creation.PlanningAdds(s, itemId, ctx, inputs, classified, key);
    if t != s {
      PlanAddedMoves(s, t, s.items[itemId], RequestIdentity.NormalizedKey(key).value);
    }
  }

  lemma {:induction false} ReservationMoves(s: State, itemId: Id, stepId: Id, ctx: SecurityContext)
    requires Inv(s)
    ensures OutcomesMove(s, Reserve(s, itemId, stepId, ctx).0)
  {
    hide Inv, Reserve;
    ReserveSteps(s, itemId, stepId, ctx);
    InvParts(s);
    var t := Reserve(s, itemId, stepId, ctx).0;
    if t != s {
      var p: Id, k: nat :| Starting.Startable(s, itemId, p, k) && t == Starting.After(s, itemId, p, k);
      Starting.NothingElseRuns(s, itemId, p, k);
      StartMoves(s, itemId, p, k);
    }
  }

  lemma {:induction false} FinalizationMoves(s: State, r: Reservation, success: bool, ctx: SecurityContext)
    requires Inv(s) && GrantedReservation(s, r)
    ensures OutcomesMove(s, Finalize(s, r, success, ctx).0)
  {
    hide Inv, Finalize;
    FinalizeSteps(s, r, success, ctx);
    InvParts(s);
    var t := Finalize(s, r, success, ctx).0;
    if t != s {
      var kind := if success then ActionExecuted else ActionFailed;
      var noted := NotedRun(s, r, success);
      var k: nat :| Running(s, r.itemId, r.planId, k)
          && t == Settling.After(noted, r.itemId, r.planId, k, success, kind);
      NotingIsQuiet(s, r, success);
      QuietKeepsRunning(s, noted, r.itemId, r.planId, k);
      SettleMoves(noted, r.itemId, r.planId, k, success, kind);
    }
  }

  lemma {:induction false} ReconciliationMoves(s: State, itemId: Id, stepId: Id, ctx: SecurityContext, succeeded: bool,
                                               summary: string)
    requires Inv(s)
    ensures OutcomesMove(s, Reconcile(s, itemId, stepId, ctx, succeeded, summary).0)
  {
    hide Inv, Reconcile;
    ReconcileSteps(s, itemId, stepId, ctx, succeeded, summary);
    InvParts(s);
    var t := Reconcile(s, itemId, stepId, ctx, succeeded, summary).0;
    if t != s {
      var kind := if succeeded then ReconciledSucceeded else ReconciledFailed;
      var p: Id, k: nat :| Running(s, itemId, p, k) && t == Settling.After(s, itemId, p, k, succeeded, kind);
      SettleMoves(s, itemId, p, k, succeeded, kind);
    }
  }

  /** Whatever happens next, every outcome moves as OutcomeMoves says. In particular nothing
      turns an unknown outcome back into one in flight, a late renewal included. */
  lemma {:induction false} OutcomesOnlyMoveForward(s: State, a: Action)
    requires Reachable(s)
    ensures OutcomesMove(s, Apply(s, a))
    ensures forall i :: i in s.items && s.items[i].Get(ExecutionOutcomeKey) == Some(OutcomeText(Unknown)) ==>
              i in Apply(s, a).items && Apply(s, a).items[i].Get(ExecutionOutcomeKey) != Some(OutcomeText(InFlight))
  {
    hide Inv, Quiet, Apply;
    ReachableInv(s);
    InvParts(s);
    ActionMoves(s, a);
  }

  lemma {:induction false} ActionMoves(s: State, a: Action)
    requires Inv(s) && ItemsOk(s) && DraftsOk(s)
    ensures OutcomesMove(s, Apply(s, a))
  {
    hide Inv, Quiet, OutcomesMove;
    match a {
      case CreatesItem(ctx, title, workType, documents, outcome, key) =>
        CreatedMoves(s, ctx, title, workType, documents, outcome, key);
      case PlansItem(itemId, ctx, inputs, classified, key) =>
        PlanningMoves(s, itemId, ctx, inputs, classified, key);
      case Reserves(itemId, stepId, ctx) => ReservationMoves(s, itemId, stepId, ctx);
      case Finalizes(token, success, ctx) =>
        if token in s.attempts {
          GrantedToken(s, token);
          FinalizationMoves(s, s.attempts[token].reservation, success, ctx);
        } else {
          UnchangedMoves(s);
        }
      case Reconciles(itemId, stepId, ctx, succeeded, summary) =>
        ReconciliationMoves(s, itemId, stepId, ctx, succeeded, summary);
      case CallsTool(token) => CallMoves(s, token);
      case _ =>
        QuietAction(s, a);
        QuietMoves(s, Apply(s, a));
    }
  }

  lemma {:induction false} UnchangedMoves(s: State)
    ensures OutcomesMove(s, s)
  {
  }

  lemma {:induction false} CallMoves(s: State, token: Id)
    ensures OutcomesMove(s, Starting.CallTool(s, token))
  {
  }
}
