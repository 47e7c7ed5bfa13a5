/** What an item says about its execution: its recorded outcome is the status of the step that
    its context names, and a verdict leaves the item resolved or failed accordingly. */
module Verdicts {
  import opened Basics
  import opened Models
  import opened Protocol
  import opened EventLog
  import opened Invariant
  import opened QuietOperations
  import opened Evolution
  import opened Runs
  import opened Fencing
  import Planner
  import RequestIdentity
  import Settling
  import Starting
  import Creation

  /** The item's context names step `k` of plan `p`. */
  ghost predicate Names(s: State, i: Id, p: Id, k: nat) {
    && i in s.items && p in s.plans && k < |s.plans[p].steps|
    && s.items[i].Get(ExecutionPlanId) == Some(UuidText(p))
    && s.items[i].Get(ExecutionStepId) == Some(UuidText(s.plans[p].steps[k].id))
  }

  /** The outcome on record is the one that the status of the step stands for. */
  predicate Tells(item: WorkItem, status: ActionStepStatus) {
    var outcome := item.Get(ExecutionOutcomeKey);
    && (outcome == Some(OutcomeText(ConfirmedSuccess)) <==> status == Executed)
    && (outcome == Some(OutcomeText(ConfirmedFailure)) <==> status == Failed)
    && (outcome == Some(OutcomeText(InFlight)) || outcome == Some(OutcomeText(Unknown)) <==> status == Executing)
    && (status == Executed || status == Failed || status == Executing)
  }

  /** An item without a trace of an execution has none; any other names the step it is about
      and tells its status. */
  ghost predicate ReportsStep(s: State, i: Id)
    requires i in s.items
  {
    || (s.items[i].Get(ExecutionOutcomeKey).None? && s.items[i].Get(ExecutionPlanId).None?
        && s.items[i].Get(ExecutionStepId).None?)
    || exists p: Id, k: nat :: Names(s, i, p, k) && Tells(s.items[i], s.plans[p].steps[k].status)
  }

  ghost predicate VerdictsOk(s: State) {
    forall i {:trigger ReportsStep(s, i)} :: i in s.items ==> ReportsStep(s, i)
  }

  // ------------------------------------------------------------ kept by every action

  lemma {:induction false} QuietKeepsVerdicts(s: State, t: State)
    requires Quiet(s, t) && VerdictsOk(s)
    ensures VerdictsOk(t)
  {
    forall i | i in t.items ensures ReportsStep(t, i) {
      assert ReportsStep(s, i) && SameExecution(s.items[i], t.items[i], t.clock);
      if s.items[i].Get(ExecutionPlanId).Some? {
        var p: Id, k: nat :| Names(s, i, p, k) && Tells(s.items[i], s.plans[p].steps[k].status);
        assert Names(t, i, p, k) && Tells(t.items[i], t.plans[p].steps[k].status);
      }
    }
  }

  lemma {:induction false} CreatedKeepsVerdicts(s: State, t: State, item: WorkItem, outcome: string)
    requires Creation.Created(s, t, item) && ItemsOk(s) && VerdictsOk(s) && item.context == RouteContext(outcome)
    ensures VerdictsOk(t)
  {
    forall i | i in t.items ensures ReportsStep(t, i) {
      if i in s.items {
        assert ReportsStep(s, i);
        if s.items[i].Get(ExecutionPlanId).Some? {
          var p: Id, k: nat :| Names(s, i, p, k) && Tells(s.items[i], s.plans[p].steps[k].status);
          assert Names(t, i, p, k);
        }
      }
    }
  }

  lemma {:induction false} PlanAddedKeepsVerdicts(s: State, t: State, item: WorkItem, key: Option<string>)
    requires Creation.PlanAdded(s, t, item, key) && PlansOk(s) && VerdictsOk(s)
    ensures VerdictsOk(t)
  {
    forall i | i in t.items ensures ReportsStep(t, i) {
      assert ReportsStep(s, i);
      if s.items[i].Get(ExecutionPlanId).Some? {
        var p: Id, k: nat :| Names(s, i, p, k) && Tells(s.items[i], s.plans[p].steps[k].status);
        assert PlanOk(s, p);
        assert Names(t, i, p, k);
      }
    }
  }

  lemma {:induction false} StartKeepsVerdicts(s: State, i: Id, p: Id, k: nat)
    requires ItemsOk(s) && HistoryOk(s) && Starting.Startable(s, i, p, k) && PlanOk(s, p) && VerdictsOk(s)
    ensures VerdictsOk(Starting.After(s, i, p, k))
  {
    hide FanOut, ExecutionCheck, Planner.Bounded;
    var t := Starting.After(s, i, p, k);
    assert Names(t, i, p, k) && Tells(t.items[i], t.plans[p].steps[k].status);
    forall j | j in t.items && j != i ensures ReportsStep(t, j) {
      OtherItemsKeepReporting(s, t, i, p, j);
    }
  }

  lemma {:induction false} SettleKeepsVerdicts(s: State, i: Id, p: Id, k: nat, succeeded: bool, kind: EventKind)
    requires ItemsOk(s) && HistoryOk(s) && Running(s, i, p, k) && PlanOk(s, p) && VerdictsOk(s)
    ensures VerdictsOk(Settling.After(s, i, p, k, succeeded, kind))
  {
    hide FanOut, Planner.Bounded;
    var t := Settling.After(s, i, p, k, succeeded, kind);
    assert Names(t, i, p, k) && Tells(t.items[i], t.plans[p].steps[k].status);
    forall j | j in t.items && j != i ensures ReportsStep(t, j) {
      OtherItemsKeepReporting(s, t, i, p, j);
    }
  }

  lemma {:induction false} OtherItemsKeepReporting(s: State, t: State, i: Id, p: Id, j: Id)
    requires HistoryOk(s) && VerdictsOk(s) && j in s.items && j in t.items && j != i && t.items[j] == s.items[j]
    requires p in s.plans && s.plans[p].itemId == i
    requires forall q :: q in s.plans && q != p ==> q in t.plans && t.plans[q] == s.plans[q]
    ensures ReportsStep(t, j)
  {
    assert ReportsStep(s, j) && NamesOwnPlan(s, j);
    if s.items[j].Get(ExecutionPlanId).Some? {
      var q: Id, n: nat :| Names(s, j, q, n) && Tells(s.items[j], s.plans[q].steps[n].status);
      assert Names(t, j, q, n);
    }
  }

  lemma {:induction false} SameRecordsKeepVerdicts(s: State, t: State)
    requires VerdictsOk(s) && t.items == s.items && t.plans == s.plans
    ensures VerdictsOk(t)
  {
    forall i | i in t.items ensures ReportsStep(t, i) {
      assert ReportsStep(s, i);
      if s.items[i].Get(ExecutionPlanId).Some? {
        var p: Id, k: nat :| Names(s, i, p, k) && Tells(s.items[i], s.plans[p].steps[k].status);
        assert Names(t, i, p, k);
      }
    }
  }

  lemma {:induction false} Parts(s: State)
    requires Inv(s)
    ensures ItemsOk(s) && PlansOk(s) && HistoryOk(s) && DraftsOk(s)
    ensures forall p :: p in s.plans ==> PlanOk(s, p)
  {
  }

  lemma {:induction false} CreatingKeepsVerdicts(s: State, ctx: SecurityContext, title: string,
                                                 workType: Option<WorkType>, documents: seq<Id>, outcome: string,
                                                 key: Option<string>)
    requires Inv(s) && VerdictsOk(s)
    ensures VerdictsOk(CreateItem(s, ctx, title, workType, documents, RouteContext(outcome), key).0)
  {
    hide Inv, VerdictsOk, CreateItem, Creation.Created;
    Parts(s);
    Creation.CreationCreates(s, ctx, title, workType, documents, RouteContext(outcome), key);
    var t := CreateItem(s, ctx, title, workType, documents, RouteContext(outcome), key).0;
    if t != s {
      CreatedKeepsVerdicts(s, t, t.items[s.nextId], outcome);
    }
  }

  lemma {:induction false} PlanningKeepsVerdicts(s: State, itemId: Id, ctx: SecurityContext, inputs: PlanningInput,
                                                 classified: WorkType, key: Option<string>)
    requires Inv(s) && VerdictsOk(s)
    ensures VerdictsOk(PlanItem(s, itemId, ctx, inputs, classified, key).0)
  {
    hide Inv, VerdictsOk, PlanItem, Creation.PlanAdded, RequestIdentity.NormalizedKey;
    Parts(s);
    Creation.PlanningAdds(s, itemId, ctx, inputs, classified, key);
    var t := PlanItem(s, itemId, ctx, inputs, classified, key).0;
    if t != s {
      PlanAddedKeepsVerdicts(s, t, s.items[itemId], RequestIdentity.NormalizedKey(key).value);
    }
  }

  lemma {:induction false} ReservingKeepsVerdicts(s: State, itemId: Id, stepId: Id, ctx: SecurityContext)
    requires Inv(s) && VerdictsOk(s)
    ensures VerdictsOk(Reserve(s, itemId, stepId, ctx).0)
  {
    hide Inv, VerdictsOk, Reserve, ExecutionCheck, Starting.After, PlanOk, ItemsOk, PlansOk, HistoryOk, DraftsOk;
    Parts(s);
    ReserveSteps(s, itemId, stepId, ctx);
    var t := Reserve(s, itemId, stepId, ctx).0;
    if t != s {
      var p: Id, k: nat :| Starting.Startable(s, itemId, p, k) && t == Starting.After(s, itemId, p, k);
      StartKeepsVerdicts(s, itemId, p, k);
    }
  }

  lemma {:induction false} AddingKeepsVerdicts(s: State, a: Action)
    requires Inv(s) && VerdictsOk(s) && (a.CreatesItem? || a.PlansItem? || a.Reserves?)
    ensures VerdictsOk(Apply(s, a))
  {
    hide Inv, VerdictsOk, CreateItem, PlanItem, Reserve, Renew, MarkUnknown, Finalize, Reconcile, UpdateItem,
         RequestCorrection, SubmitCorrection, Escalate, RegenerateDraft, Approve, Reject, Starting.CallTool,
         UploadDocument, MoveDocument;
    match a {
      case CreatesItem(ctx, title, workType, documents, outcome, key) =>
        CreatingKeepsVerdicts(s, ctx, title, workType, documents, outcome, key);
      case PlansItem(itemId, ctx, inputs, classified, key) =>
        PlanningKeepsVerdicts(s, itemId, ctx, inputs, classified, key);
      case Reserves(itemId, stepId, ctx) => ReservingKeepsVerdicts(s, itemId, stepId, ctx);
    }
  }

  lemma {:induction false} VerdictKeepsVerdicts(s: State, i: Id, p: Id, k: nat, succeeded: bool, kind: EventKind)
    requires Inv(s) && VerdictsOk(s) && Running(s, i, p, k)
    ensures VerdictsOk(Settling.After(s, i, p, k, succeeded, kind))
  {
    hide Inv, VerdictsOk, Settling.After;
    Parts(s);
    SettleKeepsVerdicts(s, i, p, k, succeeded, kind);
  }

  lemma {:induction false} FinalizingKeepsVerdicts(s: State, r: Reservation, success: bool, ctx: SecurityContext)
    requires Inv(s) && VerdictsOk(s) && GrantedReservation(s, r)
    ensures VerdictsOk(Finalize(s, r, success, ctx).0)
  {
    hide Inv, VerdictsOk, Finalize, Settling.After, Quiet;
    FinalizeSteps(s, r, success, ctx);
    var t := Finalize(s, r, success, ctx).0;
    if t != s {
      var kind := if success then ActionExecuted else ActionFailed;
      var k: nat :| Running(s, r.itemId, r.planId, k)
                    && t == Settling.After(NotedRun(s, r, success), r.itemId, r.planId, k, success, kind);
      var noted := NotedRun(s, r, success);
      Parts(s);
      NotingIsQuiet(s, r, success);
      QuietKeepsRunning(s, noted, r.itemId, r.planId, k);
      QuietStep(s, noted);
      QuietKeepsVerdicts(s, noted);
      VerdictKeepsVerdicts(noted, r.itemId, r.planId, k, success, kind);
    }
  }

  lemma {:induction false} ReconcilingKeepsVerdicts(s: State, itemId: Id, stepId: Id, ctx: SecurityContext,
                                                    succeeded: bool, summary: string)
    requires Inv(s) && VerdictsOk(s)
    ensures VerdictsOk(Reconcile(s, itemId, stepId, ctx, succeeded, summary).0)
  {
    hide Inv, VerdictsOk, Reconcile, Settling.After;
    ReconcileSteps(s, itemId, stepId, ctx, succeeded, summary);
    var t := Reconcile(s, itemId, stepId, ctx, succeeded, summary).0;
    if t != s {
      var kind := if succeeded then ReconciledSucceeded else ReconciledFailed;
      var p: Id, k: nat :| Running(s, itemId, p, k) && t == Settling.After(s, itemId, p, k, succeeded, kind);
      VerdictKeepsVerdicts(s, itemId, p, k, succeeded, kind);
    }
  }

  lemma {:induction false} SettlingKeepsVerdicts(s: State, a: Action)
    requires Inv(s) && VerdictsOk(s) && (a.CallsTool? || a.Finalizes? || a.Reconciles?)
    ensures VerdictsOk(Apply(s, a))
  {
    hide Inv, VerdictsOk, CreateItem, PlanItem, Reserve, Renew, MarkUnknown, Finalize, Reconcile, UpdateItem,
         RequestCorrection, SubmitCorrection, Escalate, RegenerateDraft, Approve, Reject, UploadDocument, MoveDocument;
    match a {
      case CallsTool(token) => SameRecordsKeepVerdicts(s, Starting.CallTool(s, token));
      case Finalizes(token, success, ctx) =>
        if token in s.attempts {
          GrantedToken(s, token);
          FinalizingKeepsVerdicts(s, s.attempts[token].reservation, success, ctx);
        }
      case Reconciles(itemId, stepId, ctx, succeeded, summary) =>
        ReconcilingKeepsVerdicts(s, itemId, stepId, ctx, succeeded, summary);
    }
  }

  lemma {:induction false} ActionKeepsVerdicts(s: State, a: Action)
    requires Inv(s) && VerdictsOk(s)
    ensures VerdictsOk(Apply(s, a))
  {
    hide Inv, VerdictsOk, Quiet, Apply;
    if IsQuietAction(a) {
      QuietAction(s, a);
      QuietKeepsVerdicts(s, Apply(s, a));
    } else if a.CreatesItem? || a.PlansItem? || a.Reserves? {
      AddingKeepsVerdicts(s, a);
    } else {
      SettlingKeepsVerdicts(s, a);
    }
  }

  lemma {:induction false} RunKeepsVerdicts(start: State, actions: seq<Action>)
    requires Initial(start)
    ensures Inv(RunFrom(start, actions)) && VerdictsOk(RunFrom(start, actions))
  {
    hide Inv, Evolves, Apply;
    InitialInv(start);
    RunKeepsInv(start, actions);
    if actions != [] {
      var earlier := actions[..|actions| - 1];
      RunKeepsVerdicts(start, earlier);
      ActionKeepsVerdicts(RunFrom(start, earlier), actions[|actions| - 1]);
    }
  }

  // ------------------------------------------------------------ the outcome on record

  /** In every reachable state an item with an outcome names a step, and of the step it names
      the outcome on record is the verdict: confirmed success if and only if the step is
      executed, confirmed failure if and only if it failed, and in flight or unknown if and
      only if it is executing. */
  lemma {:induction false} OutcomeIsTheVerdict(s: State, i: Id)
    requires Reachable(s) && i in s.items
    ensures s.items[i].Get(ExecutionOutcomeKey).Some? ==> exists p: Id, k: nat :: Names(s, i, p, k)
    ensures forall p: Id, k: nat :: Names(s, i, p, k) ==>
              var outcome, status := s.items[i].Get(ExecutionOutcomeKey), s.plans[p].steps[k].status;
              && (outcome == Some(OutcomeText(ConfirmedSuccess)) <==> status == Executed)
              && (outcome == Some(OutcomeText(ConfirmedFailure)) <==> status == Failed)
              && (outcome == Some(OutcomeText(InFlight)) || outcome == Some(OutcomeText(Unknown)) <==>
                    status == Executing)
  {
    hide Inv;
    var start, actions :| Initial(start) && s == RunFrom(start, actions);
    RunKeepsVerdicts(start, actions);
    assert ReportsStep(s, i);
    if s.items[i].Get(ExecutionPlanId).Some? {
      var p: Id, k: nat :| Names(s, i, p, k) && Tells(s.items[i], s.plans[p].steps[k].status);
      forall q: Id, n: nat | Names(s, i, q, n) ensures q == p && n == k {
        StepIsNamedOnce(s, p, k, n);
      }
    }
  }

  lemma {:induction false} StepIsNamedOnce(s: State, p: Id, k: nat, n: nat)
    requires Inv(s) && p in s.plans && k < |s.plans[p].steps| && n < |s.plans[p].steps|
    requires s.plans[p].steps[k].id == s.plans[p].steps[n].id
    ensures k == n
  {
  }

  // ------------------------------------------------------------ what a verdict writes

  /** The item got its verdict: resolved with a confirmed success, or failed with a confirmed
      failure, now; nothing else about it changed, and no other item did. */
  ghost predicate GotVerdict(s: State, t: State, i: Id, succeeded: bool) {
    && i in s.items && i in t.items && t.items == s.items[i := t.items[i]]
    && var before, after := s.items[i], t.items[i];
       && after.status == (if succeeded then ItemResolved else ItemFailed)
       && after.Get(ExecutionOutcomeKey) == Some(OutcomeText(if succeeded then ConfirmedSuccess else ConfirmedFailure))
       && (forall key :: key != ExecutionOutcomeKey ==> after.Get(key) == before.Get(key))
       && after.updatedAt == s.clock
       && after == before.(status := after.status, context := after.context, updatedAt := after.updatedAt)
  }

  lemma {:induction false} SettlingGivesTheVerdict(s: State, i: Id, plan: TaskPlan, k: nat, succeeded: bool,
                                                   kind: EventKind)
    requires i in s.items && s.items[i].id == i && k < |plan.steps|
    ensures GotVerdict(s, Settle(s, s.items[i], plan, k, succeeded, kind), i, succeeded)
  {
    hide FanOut;
  }

  lemma {:induction false} FinalizingSettles(s: State, r: Reservation, success: bool, ctx: SecurityContext)
    requires ItemsOk(s) && forall p :: p in s.plans ==> PlanOk(s, p)
    ensures var (t, reply) := Finalize(s, r, success, ctx);
            if reply.Ok? && reply.value.ToolResponse? then
              && reply.value.success == success && Held(s, r, ctx).Ok?
              && t == Settle(NotedRun(s, r, success), s.items[r.itemId], s.plans[r.planId],
                             Held(s, r, ctx).value.1, success, if success then ActionExecuted else ActionFailed)
            else t == s
  {
    hide Settle, ReservationMatches, Held, Planner.Bounded;
    assert Held(s, r, ctx).Ok? ==> PlanOk(s, r.planId);
  }

  /** A finalization that answers with the tool's response gave the item that verdict; any
      other answer leaves everything as it was. */
  lemma {:induction false} FinalizingGivesTheVerdict(s: State, r: Reservation, success: bool, ctx: SecurityContext)
    requires Inv(s)
    ensures var (t, reply) := Finalize(s, r, success, ctx);
            if reply.Ok? && reply.value.ToolResponse?
            then reply.value.success == success && GotVerdict(s, t, r.itemId, success)
            else t == s
  {
    hide Inv, Finalize, Settle, Held, PlanOk, PlansOk, HistoryOk, DraftsOk;
    Parts(s);
    FinalizingSettles(s, r, success, ctx);
    var (t, reply) := Finalize(s, r, success, ctx);
    if reply.Ok? && reply.value.ToolResponse? {
      SettlingGivesTheVerdict(NotedRun(s, r, success), r.itemId, s.plans[r.planId],
                              Held(s, r, ctx).value.1, success, if success then ActionExecuted else ActionFailed);
    }
  }

  /** A reconciliation that changes anything gave the item that verdict, and returns it. */
  lemma {:induction false} ReconcilingGivesTheVerdict(s: State, itemId: Id, stepId: Id, ctx: SecurityContext,
                                                      succeeded: bool, summary: string)
    requires Inv(s)
    ensures var (t, reply) := Reconcile(s, itemId, stepId, ctx, succeeded, summary);
            t != s ==> GotVerdict(s, t, itemId, succeeded) && reply == Ok(t.items[itemId])
  {
    hide Inv, PlanContainingStep, FindStep, TargetMatches, Reconcilable, HasWords, Settle, PlanOk, PlansOk, HistoryOk,
         DraftsOk;
    Parts(s);
    var (t, reply) := Reconcile(s, itemId, stepId, ctx, succeeded, summary);
    if t != s {
      var p := PlanContainingStep(s, s.items[itemId], stepId).value;
      var k := FindStep(s.plans[p].steps, stepId).value;
      SettlingGivesTheVerdict(s, itemId, s.plans[p], k, succeeded,
                              if succeeded then ReconciledSucceeded else ReconciledFailed);
      SettledItemIsStored(s, s.items[itemId], s.plans[p], k, succeeded,
                          if succeeded then ReconciledSucceeded else ReconciledFailed);
    }
  }

  lemma {:induction false} SettledItemIsStored(s: State, item: WorkItem, plan: TaskPlan, k: nat, succeeded: bool,
                                               kind: EventKind)
    requires k < |plan.steps| && item.id in s.items
    ensures Settle(s, item, plan, k, succeeded, kind).items[item.id] == SettledItem(item, succeeded, s.clock)
  {
    hide FanOut;
  }

  /** Step `k` of the plan got the status, now; nothing else about the plan changed, and no other
      plan did. */
  ghost predicate StepGot(s: State, t: State, p: Id, k: nat, status: ActionStepStatus) {
    && p in s.plans && k < |s.plans[p].steps| && p in t.plans && t.plans == s.plans[p := t.plans[p]]
    && t.plans[p] == s.plans[p].(steps := t.plans[p].steps) && |t.plans[p].steps| == |s.plans[p].steps|
    && t.plans[p].steps[k] == s.plans[p].steps[k].(status := status, updatedAt := s.clock)
    && forall j :: 0 <= j < |s.plans[p].steps| && j != k ==> t.plans[p].steps[j] == s.plans[p].steps[j]
  }

  /** What a granted reservation writes: step and item are executing, now; the item names the plan
      and the step, and holds the token; nothing else changed. */
  lemma {:induction false} ReservingWrites(s: State, itemId: Id, stepId: Id, ctx: SecurityContext)
    requires Inv(s) && Reserve(s, itemId, stepId, ctx).1.Ok? && Reserve(s, itemId, stepId, ctx).1.value.Granted?
    ensures var (t, reply) := Reserve(s, itemId, stepId, ctx);
            var r := reply.value.reservation;
            && itemId in s.items && itemId in t.items && t.items == s.items[itemId := t.items[itemId]]
            && r.itemId == itemId && s.items[itemId].currentPlan == Some(r.planId) && r.stepId == stepId
            && r.planId in s.plans
            && (exists k: nat :: StepGot(s, t, r.planId, k, Executing) && s.plans[r.planId].steps[k].id == stepId
                                 && r.tool == s.plans[r.planId].steps[k].action)
            && var before, after := s.items[itemId], t.items[itemId];
               && after.Get(ExecutionToken) == Some(TokenText(r.token))
               && after.Get(ExecutionOutcomeKey) == Some(OutcomeText(InFlight))
               && after.Get(ExecutionHeartbeatAt) == Some(InstantText(s.clock))
               && after.Get(ExecutionPlanId) == Some(UuidText(r.planId))
               && after.Get(ExecutionStepId) == Some(UuidText(r.stepId))
               && (forall key :: !IsExecutionKey(key) ==> after.Get(key) == before.Get(key))
               && after == before.(context := after.context, status := ItemExecuting, updatedAt := s.clock)
  {
    hide Inv, FanOut, ExecutionCheck, FindStep, PlanOk, HistoryOk, PlansOk, DraftsOk;
    Parts(s);
    var (t, reply) := Reserve(s, itemId, stepId, ctx);
    var p := s.items[itemId].currentPlan.value;
    var k := FindStep(s.plans[p].steps, stepId).value;
    assert s.plans[p].id == p by { PlanFiled(s, p); }
    assert StepGot(s, t, p, k, Executing);
  }

  lemma {:induction false} PlanFiled(s: State, p: Id)
    requires p in s.plans && PlanOk(s, p)
    ensures s.plans[p].id == p
  {
  }

  lemma {:induction false} SettlingGivesTheStep(s: State, item: WorkItem, p: Id, k: nat, succeeded: bool,
                                                kind: EventKind)
    requires p in s.plans && s.plans[p].id == p && k < |s.plans[p].steps|
    ensures StepGot(s, Settle(s, item, s.plans[p], k, succeeded, kind), p, k, if succeeded then Executed else Failed)
  {
    hide FanOut;
  }

  /** The step, too, gets its verdict and nothing else changes: of a finalization ... */
  lemma {:induction false} FinalizingWritesTheStep(s: State, r: Reservation, success: bool, ctx: SecurityContext)
    requires Inv(s) && Finalize(s, r, success, ctx).1 == Ok(ToolResponse(success))
    ensures exists k: nat :: StepGot(s, Finalize(s, r, success, ctx).0, r.planId, k,
                                     if success then Executed else Failed)
                             && s.plans[r.planId].steps[k].id == r.stepId
  {
    hide Inv, Finalize, Settle, Held, PlanOk, PlansOk, HistoryOk, DraftsOk, StepGot;
    Parts(s);
    FinalizingSettles(s, r, success, ctx);
    PlanFiled(s, r.planId);
    SettlingGivesTheStep(NotedRun(s, r, success), s.items[r.itemId], r.planId, Held(s, r, ctx).value.1, success,
                         if success then ActionExecuted else ActionFailed);
    SameStepGot(s, NotedRun(s, r, success), Finalize(s, r, success, ctx).0, r.planId, Held(s, r, ctx).value.1,
                if success then Executed else Failed);
  }

  lemma {:induction false} SameStepGot(s: State, n: State, t: State, p: Id, k: nat, status: ActionStepStatus)
    requires StepGot(n, t, p, k, status) && n.plans == s.plans && n.clock == s.clock
    ensures StepGot(s, t, p, k, status)
  {
  }

  /** ... and of a reconciliation. */
  lemma {:induction false} ReconcilingWritesTheStep(s: State, itemId: Id, stepId: Id, ctx: SecurityContext,
                                                    succeeded: bool, summary: string)
    requires Inv(s) && Reconcile(s, itemId, stepId, ctx, succeeded, summary).0 != s
    ensures exists p: Id, k: nat :: StepGot(s, Reconcile(s, itemId, stepId, ctx, succeeded, summary).0, p, k,
                                            if succeeded then Executed else Failed)
                                    && s.plans[p].steps[k].id == stepId && s.plans[p].itemId == itemId
  {
    hide Inv, Reconcile, StepGot, PlanOk, PlansOk, HistoryOk, DraftsOk, Settle;
    Parts(s);
    ReconcileSteps(s, itemId, stepId, ctx, succeeded, summary);
    var t := Reconcile(s, itemId, stepId, ctx, succeeded, summary).0;
    var kind := if succeeded then ReconciledSucceeded else ReconciledFailed;
    var p: Id, k: nat :| Running(s, itemId, p, k) && s.plans[p].steps[k].id == stepId
                         && t == Settling.After(s, itemId, p, k, succeeded, kind);
    PlanFiled(s, p);
    SettlingGivesTheStep(s, s.items[itemId], p, k, succeeded, kind);
  }
}
