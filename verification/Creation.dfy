/** Items and plans come into being. */
module Creation {
  import opened Basics
  import opened Models
  import opened Protocol
  import opened EventLog
  import opened Invariant
  import Planner
  import RequestIdentity

  // ------------------------------------------------------------ work items

  lemma {:induction false} NoEventsNoBalance(events: seq<Event>, i: Id)
    requires forall n :: 0 <= n < |events| ==> events[n].itemId != i
    ensures Balance(events, i) == 0
  {
    if events != [] {
      NoEventsNoBalance(events[..|events| - 1], i);
    }
  }

  predicate ClaimsPending(context: map<ContextKey, ContextValue>) {
    ExecutionOutcomeKey in context
    && (context[ExecutionOutcomeKey] == OutcomeText(InFlight) || context[ExecutionOutcomeKey] == OutcomeText(Unknown))
  }

  /** A context that claims an execution that never was: a pending outcome, or a plan. */
  predicate ClaimsExecution(context: map<ContextKey, ContextValue>) {
    ExecutionPlanId in context || ClaimsPending(context)
  }

  /** The state before and after an item was really created. */
  ghost predicate Created(s: State, t: State, item: WorkItem) {
    && item.id == s.nextId && item.currentPlan == None
    && item.Get(ExecutionPlanId) == None && item.idempotencyKey != Some("")
    && t == Recorded(s.(items := s.items[item.id := item], itemOrder := s.itemOrder + [item.id],
                        nextId := s.nextId + 1), item, WorkItemCreated)
    && (item.idempotencyKey.Some? ==>
          FindItemByKey(s.items, s.itemOrder, item.workspace, item.idempotencyKey.value).None?)
  }

  lemma {:induction false} CreatedKeepsRunning(s: State, t: State, item: WorkItem, i: Id, p: Id, k: nat)
    requires Created(s, t, item) && ItemsOk(s) && Running(s, i, p, k)
    ensures Running(t, i, p, k)
  {
  }

  lemma {:induction false} CreatedKeepsExecutions(s: State, t: State, item: WorkItem)
    requires Created(s, t, item) && ItemsOk(s) && ExecutionsOk(s) && !item.ExecutionPending()
    ensures ExecutionsOk(t)
  {
    forall p, k | p in t.plans && 0 <= k < |t.plans[p].steps| ensures Justified(t, p, k) {
      assert Justified(s, p, k);
      if t.plans[p].steps[k].status == Executing {
        CreatedKeepsRunning(s, t, item, t.plans[p].itemId, p, k);
      }
    }
    forall i | i in t.items ensures Waiting(t, i) {
      if i in s.items {
        assert Waiting(s, i);
        if t.items[i].ExecutionPending() && i != item.id {
          var p, k :| Running(s, i, p, k);
          CreatedKeepsRunning(s, t, item, i, p, k);
        }
      }
    }
  }

  lemma {:induction false} CreatedKeepsRecords(s: State, t: State, item: WorkItem)
    requires Created(s, t, item)
    requires ItemsOk(s) && PlansOk(s) && AttemptsOk(s) && ApprovalsOk(s) && GrantsOk(s)
    ensures ItemsOk(t) && PlansOk(t) && AttemptsOk(t) && ApprovalsOk(t) && GrantsOk(t)
  {
    forall p | p in t.plans ensures PlanOk(t, p) {
      assert PlanOk(s, p);
    }
    forall u | u in t.attempts ensures AttemptOk(t, u) && HasGrant(t, u) {
      assert AttemptOk(s, u) && HasGrant(s, u);
    }
    forall p, k | p in t.plans && 0 <= k < |t.plans[p].steps| ensures Requested(t, p, k) {
      assert Requested(s, p, k);
    }
  }

  lemma {:induction false} CreatedKeepsHistory(s: State, t: State, item: WorkItem)
    requires Created(s, t, item) && ItemsOk(s) && PlansOk(s) && AttemptsOk(s) && HistoryOk(s)
    ensures HistoryOk(t)
  {
    forall i | i in t.items ensures NamesOwnPlan(t, i) {
      assert i in s.items ==> NamesOwnPlan(s, i);
    }
    forall p | p in t.plans ensures t.plans[p].itemId in s.items {
      assert PlanOk(s, p);
    }
  }

  lemma {:induction false} CreatedKeepsKeys(s: State, t: State, item: WorkItem)
    requires Created(s, t, item) && ItemsOk(s) && StepIdsOk(s) && KeysOk(s)
    ensures StepIdsOk(t) && KeysOk(t)
  {
    forall i | i in s.items && item.idempotencyKey.Some?
      ensures s.items[i].workspace == item.workspace ==> s.items[i].idempotencyKey != item.idempotencyKey
    {
      assert !KeyedItem(s.items[i], item.workspace, item.idempotencyKey.value);
    }
  }

  lemma {:induction false} CreatedKeepsEvents(s: State, t: State, item: WorkItem)
    requires Created(s, t, item) && ItemsOk(s) && EventsOk(s) && !item.ExecutionPending()
    ensures EventsOk(t)
  {
    var more := FanOut(s.config, item, WorkItemCreated);
    BalanceOfFanOut(s.config, item, WorkItemCreated, item.id);
    assert Neutral(more, item.id);
    forall i | i in t.items && t.config.recordsEvents ensures Balance(t.events, i) == Outstanding(t.items[i]) {
      NeutralExtension(s.events, more, item.id, i);
      if i == item.id {
        NoEventsNoBalance(s.events, i);
      }
    }
  }

  lemma {:induction false} CreatedKeepsInv(s: State, t: State, item: WorkItem)
    requires Inv(s) && Created(s, t, item) && !item.ExecutionPending()
    ensures Inv(t)
  {
    CreatedKeepsExecutions(s, t, item);
    CreatedKeepsRecords(s, t, item);
    CreatedKeepsHistory(s, t, item);
    CreatedKeepsKeys(s, t, item);
    CreatedKeepsEvents(s, t, item);
  }

  lemma {:induction false} StoringCreates(s: State, ctx: SecurityContext, title: string, workType: Option<WorkType>,
                                          documents: seq<Id>, context: map<ContextKey, ContextValue>,
                                          key: Option<string>, fingerprint: Fingerprint)
    requires ItemsOk(s) && key != Some("")
    requires key.Some? ==> FindItemByKey(s.items, s.itemOrder, ctx.workspace, key.value).None?
    ensures var t := StoreItem(s, ctx, title, workType, documents, context, key, fingerprint);
            && s.nextId in t.items && t.items[s.nextId].context == context
            && (!ClaimsExecution(context) ==>
                  Created(s, t, t.items[s.nextId]) && !t.items[s.nextId].ExecutionPending())
  {
    hide FanOut, FindItemByKey;
  }

  lemma {:induction false} CreationCreates(s: State, ctx: SecurityContext, title: string, workType: Option<WorkType>,
                                           documents: seq<Id>, context: map<ContextKey, ContextValue>,
                                           rawKey: Option<string>)
    requires ItemsOk(s)
    ensures var (t, r) := CreateItem(s, ctx, title, workType, documents, context, rawKey);
            t != s ==> s.nextId in t.items && t.items[s.nextId].context == context
                       && (!ClaimsExecution(context) ==>
                             Created(s, t, t.items[s.nextId]) && !t.items[s.nextId].ExecutionPending())
  {
    hide StoreItem, FindItemByKey, Created;
    var key := RequestIdentity.NormalizedKey(rawKey);
    if CreateItem(s, ctx, title, workType, documents, context, rawKey).0 != s {
      StoringCreates(s, ctx, title, workType, documents, context, key.value,
                     WorkItemFingerprint(title, workType, documents, context));
    }
  }

  /** Creating an item keeps the invariant unless the caller passes a context that claims
      an execution; then it never does. */
  lemma {:induction false} CreationKeepsInvUnlessForged(s: State, ctx: SecurityContext, title: string,
                                                        workType: Option<WorkType>, documents: seq<Id>,
                                                        context: map<ContextKey, ContextValue>, rawKey: Option<string>)
    requires Inv(s)
    ensures var t := CreateItem(s, ctx, title, workType, documents, context, rawKey).0;
            Inv(t) <==> t == s || !ClaimsExecution(context)
  {
    hide Inv, Created;
    var t := CreateItem(s, ctx, title, workType, documents, context, rawKey).0;
    assert ItemsOk(s) && PlansOk(s) by { KnownParts(s); }
    CreationCreates(s, ctx, title, workType, documents, context, rawKey);
    if t != s {
      if ClaimsExecution(context) {
        ForgedBreaksInv(s, t);
      } else {
        CreatedKeepsInv(s, t, t.items[s.nextId]);
      }
    }
  }

  lemma {:induction false} KnownParts(s: State)
    requires Inv(s)
    ensures ItemsOk(s) && PlansOk(s)
  {
  }

  lemma {:induction false} ForgedBreaksInv(s: State, t: State)
    requires ItemsOk(s) && PlansOk(s) && t.plans == s.plans && s.nextId in t.items
              && ClaimsExecution(t.items[s.nextId].context)
    ensures !Inv(t)
  {
    var i := s.nextId;
    forall p | p in t.plans ensures t.plans[p].itemId != i {
      assert PlanOk(s, p);
    }
    assert !Waiting(t, i) || !NamesOwnPlan(t, i);
  }

  // ------------------------------------------------------------ plans

  /** The draft was made for one of the steps, under one of the identifiers from `base` on. */
  ghost predicate DraftRowOk(draft: ActionDraft, item: WorkItem, steps: seq<ActionStep>, base: Id) {
    && base <= draft.id < base + 2 * |steps|
    && draft.workspace == item.workspace && draft.itemId == item.id
    && exists k :: 0 <= k < |steps| && steps[k].id == draft.stepId
  }

  lemma {:induction false} DraftRowsFacts(item: WorkItem, steps: seq<ActionStep>, base: Id)
    ensures forall draft :: draft in DraftRows(item, steps, base) ==> DraftRowOk(draft, item, steps, base)
  {
    if steps != [] {
      var n := |steps| - 1;
      DraftRowsFacts(item, steps[..n], base);
      forall draft | draft in DraftRows(item, steps, base) ensures DraftRowOk(draft, item, steps, base) {
        if draft in DraftRows(item, steps[..n], base) {
          var k :| 0 <= k < n && steps[..n][k].id == draft.stepId;
          assert steps[k].id == draft.stepId;
        } else {
          assert steps[n].id == draft.stepId;
        }
      }
    }
  }

  /** The approval was made for a step that requires one. */
  ghost predicate ApprovalRowOk(approval: Approval, item: WorkItem, steps: seq<ActionStep>, base: Id) {
    && base <= approval.id < base + 2 * |steps|
    && approval.workspace == item.workspace && approval.itemId == item.id && approval.status == Pending
    && exists k :: 0 <= k < |steps| && steps[k].id == approval.stepId && steps[k].requiresApproval
  }

  ghost predicate DistinctSteps(steps: seq<ActionStep>) {
    forall j, k :: 0 <= j < |steps| && 0 <= k < |steps| && steps[j].id == steps[k].id ==> j == k
  }

  /** Approvals are made for the steps that require one, ... */
  lemma {:induction false} ApprovalRowsFacts(item: WorkItem, steps: seq<ActionStep>, base: Id)
    ensures forall approval :: approval in ApprovalRows(item, steps, base) ==>
              ApprovalRowOk(approval, item, steps, base)
  {
    if steps != [] {
      var n := |steps| - 1;
      ApprovalRowsFacts(item, steps[..n], base);
      forall approval | approval in ApprovalRows(item, steps, base) ensures ApprovalRowOk(approval, item, steps, base) {
        if approval in ApprovalRows(item, steps[..n], base) {
          var k :| 0 <= k < n && steps[..n][k].id == approval.stepId && steps[..n][k].requiresApproval;
          assert steps[k].id == approval.stepId;
        } else {
          assert steps[n].id == approval.stepId;
        }
      }
    }
  }

  /** ... one for each of them ... */
  lemma {:induction false} ApprovalRowsCover(item: WorkItem, steps: seq<ActionStep>, base: Id, k: nat)
    requires k < |steps| && steps[k].requiresApproval
    ensures exists a :: 0 <= a < |ApprovalRows(item, steps, base)|
              && ApprovalRows(item, steps, base)[a].stepId == steps[k].id
  {
    var n := |steps| - 1;
    var earlier := ApprovalRows(item, steps[..n], base);
    if k < n {
      ApprovalRowsCover(item, steps[..n], base, k);
      var a :| 0 <= a < |earlier| && earlier[a].stepId == steps[..n][k].id;
      assert ApprovalRows(item, steps, base)[a].stepId == steps[k].id;
    } else {
      assert ApprovalRows(item, steps, base)[|earlier|].stepId == steps[k].id;
    }
  }

  ghost predicate DistinctApprovals(rows: seq<Approval>) {
    forall a, b :: 0 <= a < b < |rows| ==> rows[a].stepId != rows[b].stepId && rows[a].id != rows[b].id
  }

  /** ... and no two for the same step or under the same identifier. */
  lemma {:induction false} ApprovalRowsDistinct(item: WorkItem, steps: seq<ActionStep>, base: Id)
    requires DistinctSteps(steps)
    ensures DistinctApprovals(ApprovalRows(item, steps, base))
  {
    if steps != [] {
      var n := |steps| - 1;
      var earlier := ApprovalRows(item, steps[..n], base);
      ApprovalRowsDistinct(item, steps[..n], base);
      ApprovalRowsFacts(item, steps[..n], base);
      forall a | 0 <= a < |earlier| ensures earlier[a].stepId != steps[n].id && earlier[a].id < base + 2 * n {
        assert ApprovalRowOk(earlier[a], item, steps[..n], base);
        var k :| 0 <= k < n && steps[..n][k].id == earlier[a].stepId && steps[..n][k].requiresApproval;
        assert steps[k].id == earlier[a].stepId;
      }
    }
  }

  ghost predicate PlanInput(s: State, item: WorkItem, key: Option<string>) {
    && item.id in s.items && s.items[item.id] == item && !item.ExecutionPending() && key != Some("")
    && (key.Some? ==> FindPlanByKey(s.plans, s.planOrder, item.workspace, item.id, key.value).None?)
  }

  /** A new plan `p` with bounded steps was stored for an item without a pending execution. */
  ghost predicate PlanAdded(s: State, t: State, item: WorkItem, key: Option<string>) {
    var p := s.nextId;
    && PlanInput(s, item, key)
    && p in t.plans && t.plans == s.plans[p := t.plans[p]] && t.planOrder == s.planOrder + [p]
    && t.plans[p].id == p && t.plans[p].itemId == item.id && t.plans[p].workspace == item.workspace
    && t.plans[p].idempotencyKey == key
    && Planner.Bounded(t.plans[p].steps)
    && (forall k :: 0 <= k < |t.plans[p].steps| ==>
          t.plans[p].steps[k].id == p + 1 + k && !Planner.Started(t.plans[p].steps[k].status))
    && item.id in t.items && t.items == s.items[item.id := t.items[item.id]]
    && t.items[item.id] == item.(workType := t.items[item.id].workType, currentPlan := Some(p),
                                 status := t.items[item.id].status, updatedAt := s.clock)
    && t.nextId == p + 1 + 3 * |t.plans[p].steps|
    && t.config == s.config && t.itemOrder == s.itemOrder && t.clock == s.clock
    && t.attempts == s.attempts && t.calls == s.calls
    && t.drafts == s.drafts + DraftRows(item, t.plans[p].steps, p + 1 + |t.plans[p].steps|)
    && t.approvals == s.approvals + ApprovalRows(item, t.plans[p].steps, p + 1 + |t.plans[p].steps|)
    && QuietEvents(s, t, item.id) && s.runs <= t.runs && t.documents == s.documents
  }

  lemma {:induction false} NeutralConcat(a: seq<Event>, b: seq<Event>, i: Id)
    requires Neutral(a, i) && Neutral(b, i)
    ensures Neutral(a + b, i)
  {
  }

  lemma {:induction false} PlanEventsAreQuiet(s: State, t: State, item: WorkItem, steps: seq<ActionStep>,
                                              escalation: seq<Event>)
    requires escalation == [] || escalation == FanOut(s.config, item, WorkflowEscalated)
    requires t.events == s.events + FanOut(s.config, item, PlanGenerated) + StepEvents(s.config, item, steps)
              + escalation
    ensures QuietEvents(s, t, item.id)
  {
    var generated := FanOut(s.config, item, PlanGenerated);
    var stepEvents := StepEvents(s.config, item, steps);
    BalanceOfFanOut(s.config, item, PlanGenerated, item.id);
    BalanceOfFanOut(s.config, item, WorkflowEscalated, item.id);
    StepEventsAreNeutral(s.config, item, steps);
    NeutralConcat(generated, stepEvents, item.id);
    NeutralConcat(generated + stepEvents, escalation, item.id);
    assert t.events == s.events + (generated + stepEvents + escalation);
  }

  /** Steps as the planner makes them, numbered from `first` on. */
  ghost predicate FreshSteps(steps: seq<ActionStep>, first: Id) {
    && Planner.Bounded(steps)
    && (forall k :: 0 <= k < |steps| ==> steps[k].id == first + k && !Planner.Started(steps[k].status))
  }

  lemma {:induction false} StorePlanAdds(s: State, item: WorkItem, workType: WorkType, steps: seq<ActionStep>,
                                         escalated: bool, key: Option<string>, fingerprint: Option<Fingerprint>)
    requires PlanInput(s, item, key) && FreshSteps(steps, s.nextId + 1)
    ensures PlanAdded(s, StorePlan(s, item, workType, steps, escalated, key, fingerprint), item, key)
  {
    PlanEventsAreQuiet(s, StorePlan(s, item, workType, steps, escalated, key, fingerprint), item, steps,
                       if escalated then FanOut(s.config, item, WorkflowEscalated) else []);
  }

  lemma {:induction false} AddPlanAdds(s: State, item: WorkItem, ctx: SecurityContext, inputs: PlanningInput,
                                       classified: WorkType, key: Option<string>)
    requires PlanInput(s, item, key)
    ensures PlanAdded(s, AddPlan(s, item, ctx, inputs, classified, key).0, item, key)
  {
    hide PlanAdded, Planner.Steps;
    Planner.PlansAreBounded(item, ctx, inputs, classified, s.nextId + 1, s.clock);
    StorePlanAdds(s, item, Planner.WorkTypeFor(item, classified),
                  Planner.Steps(item, ctx, inputs, classified, s.nextId + 1, s.clock),
                  Planner.Escalates(item, inputs, classified), key,
                  if key.Some? then Some(PlanningFingerprint(inputs, ctx.role, ctx.isAdmin)) else None);
  }

  lemma {:induction false} PlanKeepsRunning(s: State, t: State, item: WorkItem, key: Option<string>, i: Id, p: Id,
                                            k: nat)
    requires PlanAdded(s, t, item, key) && ItemsOk(s) && PlansOk(s) && Running(s, i, p, k)
    ensures Running(t, i, p, k)
  {
    assert PlanOk(s, p);
  }

  lemma {:induction false} PlanKeepsExecutions(s: State, t: State, item: WorkItem, key: Option<string>)
    requires PlanAdded(s, t, item, key) && ItemsOk(s) && PlansOk(s) && ExecutionsOk(s)
    ensures ExecutionsOk(t)
  {
    forall p, k | p in t.plans && 0 <= k < |t.plans[p].steps| ensures Justified(t, p, k) {
      if p != s.nextId {
        assert Justified(s, p, k);
        if t.plans[p].steps[k].status == Executing {
          PlanKeepsRunning(s, t, item, key, t.plans[p].itemId, p, k);
        }
      }
    }
    forall i | i in t.items ensures Waiting(t, i) {
      assert Waiting(s, i);
      if t.items[i].ExecutionPending() {
        var p, k :| Running(s, i, p, k);
        PlanKeepsRunning(s, t, item, key, i, p, k);
      }
    }
  }

  lemma {:induction false} NewPlanIsNew(s: State)
    requires PlansOk(s)
    ensures s.nextId !in s.plans
  {
    assert s.nextId in s.plans ==> PlanOk(s, s.nextId);
  }

  lemma {:induction false} PlanKeepsRecords(s: State, t: State, item: WorkItem, key: Option<string>)
    requires PlanAdded(s, t, item, key) && ItemsOk(s) && PlansOk(s) && AttemptsOk(s)
    ensures ItemsOk(t) && PlansOk(t) && AttemptsOk(t)
  {
    hide DraftRows, ApprovalRows, QuietEvents, Planner.Bounded;
    NewPlanIsNew(s);
    forall p | p in t.plans ensures PlanOk(t, p) {
      if p != s.nextId {
        assert PlanOk(s, p);
      }
    }
    forall u | u in t.attempts ensures AttemptOk(t, u) {
      assert AttemptOk(s, u);
    }
  }

  lemma {:induction false} PlanKeepsHistory(s: State, t: State, item: WorkItem, key: Option<string>)
    requires PlanAdded(s, t, item, key) && ItemsOk(s) && PlansOk(s) && HistoryOk(s)
    ensures HistoryOk(t)
  {
    NewPlanIsNew(s);
    forall i | i in t.items ensures NamesOwnPlan(t, i) {
      assert NamesOwnPlan(s, i);
    }
    forall p | p in s.plans ensures p < s.nextId && s.plans[p].itemId in s.items {
      assert PlanOk(s, p);
    }
  }

  lemma {:induction false} PlanKeepsStepIds(s: State, t: State, item: WorkItem, key: Option<string>)
    requires PlanAdded(s, t, item, key) && PlansOk(s) && StepIdsOk(s)
    ensures StepIdsOk(t)
  {
    NewPlanIsNew(s);
  }

  lemma {:induction false} PlanKeepsKeys(s: State, t: State, item: WorkItem, key: Option<string>)
    requires PlanAdded(s, t, item, key) && PlansOk(s) && KeysOk(s)
    ensures KeysOk(t)
  {
    NewPlanIsNew(s);
    forall p | p in s.plans && key.Some?
      ensures s.plans[p].workspace == item.workspace && s.plans[p].itemId == item.id ==>
                s.plans[p].idempotencyKey != key
    {
      assert PlanOk(s, p);
      assert !KeyedPlan(s.plans[p], item.workspace, item.id, key.value);
    }
  }

  lemma {:induction false} PlanKeepsDrafts(s: State, t: State, item: WorkItem, key: Option<string>)
    requires PlanAdded(s, t, item, key) && DraftsOk(s)
    ensures DraftsOk(t)
  {
    var steps := t.plans[s.nextId].steps;
    var rows := DraftRows(item, steps, s.nextId + 1 + |steps|);
    DraftRowsFacts(item, steps, s.nextId + 1 + |steps|);
    forall d | 0 <= d < |t.drafts| ensures t.drafts[d].id < t.nextId && t.drafts[d].stepId < t.nextId {
      if d >= |s.drafts| {
        assert t.drafts[d] in rows;
      }
    }
  }

  /** An approval that came with the new plan. */
  ghost predicate NewApproval(s: State, t: State, item: WorkItem, approval: Approval) {
    && s.nextId <= approval.id < t.nextId && s.nextId <= approval.stepId < t.nextId
    && approval.itemId == item.id && approval.workspace == item.workspace && approval.status == Pending
  }

  lemma {:induction false} NewApprovals(s: State, t: State, item: WorkItem, key: Option<string>)
    requires PlanAdded(s, t, item, key)
    ensures |s.approvals| <= |t.approvals|
    ensures forall a :: 0 <= a < |s.approvals| ==> t.approvals[a] == s.approvals[a]
    ensures forall a :: |s.approvals| <= a < |t.approvals| ==> NewApproval(s, t, item, t.approvals[a])
    ensures DistinctApprovals(t.approvals[|s.approvals|..])
  {
    var steps := t.plans[s.nextId].steps;
    var base := s.nextId + 1 + |steps|;
    var rows := ApprovalRows(item, steps, base);
    ApprovalRowsFacts(item, steps, base);
    ApprovalRowsDistinct(item, steps, base);
    assert t.approvals[|s.approvals|..] == rows;
    forall a | |s.approvals| <= a < |t.approvals| ensures NewApproval(s, t, item, t.approvals[a]) {
      assert t.approvals[a] in rows;
    }
  }

  lemma {:induction false} NewStepsAreRequested(s: State, t: State, item: WorkItem, key: Option<string>, k: nat)
    requires PlanAdded(s, t, item, key) && k < |t.plans[s.nextId].steps|
    ensures Requested(t, s.nextId, k)
  {
    var steps := t.plans[s.nextId].steps;
    var base := s.nextId + 1 + |steps|;
    var rows := ApprovalRows(item, steps, base);
    if steps[k].requiresApproval {
      ApprovalRowsCover(item, steps, base, k);
      ApprovalRowsFacts(item, steps, base);
      var a :| 0 <= a < |rows| && rows[a].stepId == steps[k].id;
      assert rows[a] in rows;
      assert t.approvals[|s.approvals| + a] == rows[a];
    }
  }

  lemma {:induction false} PlanKeepsApprovals(s: State, t: State, item: WorkItem, key: Option<string>)
    requires PlanAdded(s, t, item, key) && ItemsOk(s) && PlansOk(s) && ApprovalsOk(s)
    ensures ApprovalsOk(t)
  {
    NewApprovals(s, t, item, key);
    var rows := t.approvals[|s.approvals|..];
    assert forall a :: |s.approvals| <= a < |t.approvals| ==> t.approvals[a] == rows[a - |s.approvals|];
    forall p, k | p in t.plans && 0 <= k < |t.plans[p].steps| ensures Requested(t, p, k) {
      if p == s.nextId {
        NewStepsAreRequested(s, t, item, key, k);
      } else {
        assert Requested(s, p, k);
        if s.plans[p].steps[k].requiresApproval {
          var a :| 0 <= a < |s.approvals| && s.approvals[a].stepId == s.plans[p].steps[k].id
                   && s.approvals[a].itemId == s.plans[p].itemId;
          assert t.approvals[a] == s.approvals[a];
        }
      }
    }
  }

  lemma {:induction false} PlanKeepsGrants(s: State, t: State, item: WorkItem, key: Option<string>)
    requires PlanAdded(s, t, item, key) && GrantsOk(s)
    ensures GrantsOk(t)
  {
    forall u | u in t.attempts ensures HasGrant(t, u) {
      assert HasGrant(s, u);
      var a :| 0 <= a < |s.approvals| && s.approvals[a].stepId == s.attempts[u].reservation.stepId
               && s.approvals[a].status == Approved;
      assert t.approvals[a] == s.approvals[a];
    }
  }

  lemma {:induction false} PlanKeepsEvents(s: State, t: State, item: WorkItem, key: Option<string>)
    requires PlanAdded(s, t, item, key) && EventsOk(s)
    ensures EventsOk(t)
  {
    QuietEventsKeepBalance(s, t, 0);
    forall i | i in t.items && t.config.recordsEvents ensures Balance(t.events, i) == Outstanding(t.items[i]) {
      QuietEventsKeepBalance(s, t, i);
    }
  }

  lemma {:induction false} PlanKeepsInv(s: State, t: State, item: WorkItem, key: Option<string>)
    requires Inv(s) && PlanAdded(s, t, item, key)
    ensures Inv(t)
  {
    PlanKeepsExecutions(s, t, item, key);
    PlanKeepsRecords(s, t, item, key);
    PlanKeepsHistory(s, t, item, key);
    PlanKeepsStepIds(s, t, item, key);
    PlanKeepsKeys(s, t, item, key);
    PlanKeepsDrafts(s, t, item, key);
    PlanKeepsApprovals(s, t, item, key);
    PlanKeepsGrants(s, t, item, key);
    PlanKeepsEvents(s, t, item, key);
  }

  /** Planning either leaves the state alone or adds exactly one plan. */
  lemma {:induction false} PlanningAdds(s: State, itemId: Id, ctx: SecurityContext, inputs: PlanningInput,
                                        classified: WorkType, rawKey: Option<string>)
    requires ItemsOk(s)
    ensures var t := PlanItem(s, itemId, ctx, inputs, classified, rawKey).0;
            t == s || (itemId in s.items && RequestIdentity.NormalizedKey(rawKey).Ok?
                       && PlanAdded(s, t, s.items[itemId], RequestIdentity.NormalizedKey(rawKey).value))
  {
    var (t, reply) := PlanItem(s, itemId, ctx, inputs, classified, rawKey);
    if t != s {
      AddPlanAdds(s, s.items[itemId], ctx, inputs, classified, RequestIdentity.NormalizedKey(rawKey).value);
    }
  }
}
