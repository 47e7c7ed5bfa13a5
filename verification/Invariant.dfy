/** What holds in every reachable state of the back-office workflow. */
module Invariant {
  import opened Basics
  import opened Models
  import opened Protocol
  import opened EventLog
  import Planner

  /** Work items: stored under their own identifier, with a current plan of their own. */
  ghost predicate ItemsOk(s: State) {
    && (forall i :: i in s.items ==> s.items[i].id == i && i < s.nextId && i in s.itemOrder)
    && (forall i :: i in s.items && s.items[i].currentPlan.Some? ==>
          s.items[i].currentPlan.value in s.plans && s.plans[s.items[i].currentPlan.value].itemId == i)
  }

  /** Plans: stored under their own identifier, owned by an item, with at most one tool step. */
  ghost predicate PlanOk(s: State, p: Id)
    requires p in s.plans
  {
    var plan := s.plans[p];
    && plan.id == p && p < s.nextId && p in s.planOrder
    && plan.itemId in s.items && plan.workspace == s.items[plan.itemId].workspace
    && Planner.Bounded(plan.steps)
  }

  ghost predicate PlansOk(s: State) {
    forall p {:trigger PlanOk(s, p)} :: p in s.plans ==> PlanOk(s, p)
  }

  /** No two steps of any plans share an identifier. */
  ghost predicate StepIdsOk(s: State) {
    && (forall p, k :: p in s.plans && 0 <= k < |s.plans[p].steps| ==> s.plans[p].steps[k].id < s.nextId)
    && (forall p, q, j, k ::
          p in s.plans && q in s.plans && 0 <= j < |s.plans[p].steps| && 0 <= k < |s.plans[q].steps|
          && s.plans[p].steps[j].id == s.plans[q].steps[k].id
          ==> p == q && j == k)
  }

  /** Item `i` is waiting for step `k` of plan `p`: the plan is its current one, its context
      names the step, the step is executing, and the token and the heartbeat are the ones
      the reservation and its renewals stored. */
  ghost predicate Running(s: State, i: Id, p: Id, k: nat) {
    && i in s.items && p in s.plans && k < |s.plans[p].steps|
    && s.items[i].ExecutionPending()
    && s.items[i].currentPlan == Some(p)
    && s.plans[p].itemId == i
    && s.plans[p].steps[k].status == Executing
    && TargetMatches(s.items[i], p, s.plans[p].steps[k].id)
    && HoldsToken(s, s.items[i], p, s.plans[p].steps[k].id)
    && HasHeartbeat(s.items[i], s.clock)
  }

  ghost predicate HoldsToken(s: State, item: WorkItem, p: Id, stepId: Id) {
    && item.Get(ExecutionToken).Some? && item.Get(ExecutionToken).value.TokenText?
    && var t := item.Get(ExecutionToken).value.token;
       t in s.attempts && s.attempts[t].reservation.planId == p && s.attempts[t].reservation.stepId == stepId
  }

  predicate HasHeartbeat(item: WorkItem, now: Time) {
    var heartbeat := item.Get(ExecutionHeartbeatAt);
    heartbeat.Some? && heartbeat.value.InstantText? && heartbeat.value.at <= now
  }

  /** The step, if it is executing, is the one its item waits for. */
  ghost predicate Justified(s: State, p: Id, k: nat)
    requires p in s.plans && k < |s.plans[p].steps|
  {
    s.plans[p].steps[k].status == Executing ==> Running(s, s.plans[p].itemId, p, k)
  }

  /** The item, if its outcome is pending, waits for some step. */
  ghost predicate Waiting(s: State, i: Id)
    requires i in s.items
  {
    s.items[i].ExecutionPending() ==> exists p, k :: Running(s, i, p, k)
  }

  /** A step is executing exactly when its item is waiting for it. */
  ghost predicate ExecutionsOk(s: State) {
    && (forall p, k {:trigger Justified(s, p, k)} :: p in s.plans && 0 <= k < |s.plans[p].steps| ==> Justified(s, p, k))
    && (forall i {:trigger Waiting(s, i)} :: i in s.items ==> Waiting(s, i))
  }

  /** A granted reservation names a step of its item that was started. */
  ghost predicate AttemptOk(s: State, t: Id)
    requires t in s.attempts
  {
    var r := s.attempts[t].reservation;
    && r.token == t && t < s.nextId
    && r.itemId in s.items && r.planId in s.plans && s.plans[r.planId].itemId == r.itemId
    && exists k :: 0 <= k < |s.plans[r.planId].steps| && s.plans[r.planId].steps[k].id == r.stepId
                   && Planner.Started(s.plans[r.planId].steps[k].status)
  }

  /** ... and no step was ever reserved twice. */
  ghost predicate AttemptsOk(s: State) {
    && (forall t {:trigger AttemptOk(s, t)} :: t in s.attempts ==> AttemptOk(s, t))
    && (forall t, u ::
          t in s.attempts && u in s.attempts && s.attempts[t].reservation.stepId == s.attempts[u].reservation.stepId
          ==> t == u)
  }

  /** The tool was called by holders only, and by each at most once. */
  ghost predicate CallsOk(s: State) {
    && (forall n :: 0 <= n < |s.calls| ==>
          s.calls[n].token in s.attempts && s.attempts[s.calls[n].token] == Attempt(s.calls[n], true))
    && (forall m, n :: 0 <= m < |s.calls| && 0 <= n < |s.calls| && s.calls[m].token == s.calls[n].token ==> m == n)
  }

  /** Planning created exactly one approval for every step that requires one. */
  ghost predicate ApprovalsOk(s: State) {
    && (forall a :: 0 <= a < |s.approvals| ==>
          && s.approvals[a].id < s.nextId && s.approvals[a].stepId < s.nextId
          && s.approvals[a].itemId in s.items
          && s.approvals[a].workspace == s.items[s.approvals[a].itemId].workspace)
    && (forall a, b ::
          0 <= a < |s.approvals| && 0 <= b < |s.approvals|
          && (s.approvals[a].stepId == s.approvals[b].stepId || s.approvals[a].id == s.approvals[b].id)
          ==> a == b)
    && (forall p, k {:trigger Requested(s, p, k)} :: p in s.plans && 0 <= k < |s.plans[p].steps| ==> Requested(s, p, k))
  }

  /** The step, if it requires approval, has one. */
  ghost predicate Requested(s: State, p: Id, k: nat)
    requires p in s.plans && k < |s.plans[p].steps|
  {
    s.plans[p].steps[k].requiresApproval ==>
      exists a :: 0 <= a < |s.approvals| && s.approvals[a].stepId == s.plans[p].steps[k].id
                  && s.approvals[a].itemId == s.plans[p].itemId
  }

  /** Every step that was ever reserved has a granted approval. */
  ghost predicate GrantsOk(s: State) {
    forall t {:trigger HasGrant(s, t)} :: t in s.attempts ==> HasGrant(s, t)
  }

  ghost predicate HasGrant(s: State, t: Id)
    requires t in s.attempts
  {
    exists a :: 0 <= a < |s.approvals| && s.approvals[a].stepId == s.attempts[t].reservation.stepId
                && s.approvals[a].status == Approved
  }

  ghost predicate DraftsOk(s: State) {
    forall d :: 0 <= d < |s.drafts| ==> s.drafts[d].id < s.nextId && s.drafts[d].stepId < s.nextId
  }

  /** An idempotency key is never empty; it names at most one plan of an item, and at most
      one item. */
  ghost predicate KeysOk(s: State) {
    && (forall p :: p in s.plans ==> s.plans[p].idempotencyKey != Some(""))
    && (forall i :: i in s.items ==> s.items[i].idempotencyKey != Some(""))
    && (forall p, q ::
          p in s.plans && q in s.plans && s.plans[p].idempotencyKey.Some?
          && s.plans[p].idempotencyKey == s.plans[q].idempotencyKey
          && s.plans[p].workspace == s.plans[q].workspace && s.plans[p].itemId == s.plans[q].itemId
          ==> p == q)
    && (forall i, j ::
          i in s.items && j in s.items && s.items[i].idempotencyKey.Some?
          && s.items[i].idempotencyKey == s.items[j].idempotencyKey && s.items[i].workspace == s.items[j].workspace
          ==> i == j)
  }

  /** How many started events of an item still wait for their verdict. */
  function Outstanding(item: WorkItem): nat {
    if item.ExecutionPending() then FanWidth(item) else 0
  }

  ghost predicate EventsOk(s: State) {
    && (forall n :: 0 <= n < |s.events| ==> s.events[n].itemId in s.items)
    && (s.config.recordsEvents ==> forall i :: i in s.items ==> Balance(s.events, i) == Outstanding(s.items[i]))
  }

  /** The plan an item's context names, if any, is a plan of the item. */
  ghost predicate NamesOwnPlan(s: State, i: Id)
    requires i in s.items
  {
    var named := s.items[i].Get(ExecutionPlanId);
    named.Some? ==> named.value.UuidText? && named.value.id in s.plans && s.plans[named.value.id].itemId == i
  }

  /** The current plan is the item's newest, and later reservations are never for older plans. */
  ghost predicate HistoryOk(s: State) {
    && (forall i {:trigger NamesOwnPlan(s, i)} :: i in s.items ==> NamesOwnPlan(s, i))
    && (forall p :: p in s.plans && s.plans[p].itemId in s.items ==>
          s.items[s.plans[p].itemId].currentPlan.Some? && p <= s.items[s.plans[p].itemId].currentPlan.value)
    && (forall t, u ::
          t in s.attempts && u in s.attempts && t <= u
          && s.attempts[t].reservation.itemId == s.attempts[u].reservation.itemId
          ==> s.attempts[t].reservation.planId <= s.attempts[u].reservation.planId)
  }

  ghost predicate Inv(s: State) {
    && HistoryOk(s)
    && ItemsOk(s) && PlansOk(s) && StepIdsOk(s) && ExecutionsOk(s) && AttemptsOk(s) && CallsOk(s)
    && ApprovalsOk(s) && GrantsOk(s) && DraftsOk(s) && KeysOk(s) && EventsOk(s)
  }

  /** The same plans with the same steps, and the same items, whatever their states are. */
  ghost predicate SameIdentities(s: State, t: State) {
    && t.plans.Keys == s.plans.Keys && t.items.Keys == s.items.Keys && s.nextId <= t.nextId
    && (forall p :: p in s.plans ==>
          && t.plans[p].workspace == s.plans[p].workspace && t.plans[p].itemId == s.plans[p].itemId
          && t.plans[p].idempotencyKey == s.plans[p].idempotencyKey
          && |t.plans[p].steps| == |s.plans[p].steps|)
    && (forall p, k :: p in s.plans && 0 <= k < |s.plans[p].steps| ==>
          t.plans[p].steps[k].id == s.plans[p].steps[k].id)
    && (forall i :: i in s.items ==>
          t.items[i].workspace == s.items[i].workspace && t.items[i].idempotencyKey == s.items[i].idempotencyKey)
  }

  lemma {:induction false} SameIdentitiesKeep(s: State, t: State)
    requires StepIdsOk(s) && KeysOk(s) && SameIdentities(s, t)
    ensures StepIdsOk(t) && KeysOk(t)
  {
  }

  // ------------------------------------------------------------ quiet changes

  /** The same item as far as the execution protocol goes: whether an execution is pending,
      which one, and under which token; its heartbeat may have moved. */
  ghost predicate SameExecution(a: WorkItem, b: WorkItem, now: Time) {
    && a.id == b.id && a.workspace == b.workspace && a.linkedDocuments == b.linkedDocuments
    && a.currentPlan == b.currentPlan && a.idempotencyKey == b.idempotencyKey && a.fingerprint == b.fingerprint
    && (b.Get(ExecutionOutcomeKey) == a.Get(ExecutionOutcomeKey)
        || (a.ExecutionPending() && b.Get(ExecutionOutcomeKey) == Some(OutcomeText(Unknown))))
    && a.Get(ExecutionToken) == b.Get(ExecutionToken)
    && a.Get(ExecutionPlanId) == b.Get(ExecutionPlanId)
    && a.Get(ExecutionStepId) == b.Get(ExecutionStepId)
    && (a.Get(ExecutionHeartbeatAt) == b.Get(ExecutionHeartbeatAt) || HasHeartbeat(b, now))
  }

  predicate SameRequest(a: Approval, b: Approval) {
    && a.id == b.id && a.workspace == b.workspace && a.itemId == b.itemId && a.stepId == b.stepId
    && (a.status != Pending ==> b == a)
  }

  /** A transaction that starts and settles no execution and adds no item or plan. */
  ghost predicate Quiet(s: State, t: State) {
    && t.config == s.config && t.plans == s.plans && t.planOrder == s.planOrder && t.itemOrder == s.itemOrder
    && t.attempts == s.attempts && t.calls == s.calls
    && t.items.Keys == s.items.Keys
    && (forall i :: i in s.items ==> SameExecution(s.items[i], t.items[i], t.clock))
    && s.clock <= t.clock && s.nextId <= t.nextId
    && |t.approvals| == |s.approvals|
    && (forall a :: 0 <= a < |s.approvals| ==> SameRequest(s.approvals[a], t.approvals[a]))
    && (t.events == s.events || exists i :: i in s.items && QuietEvents(s, t, i))
    && s.drafts <= t.drafts && DraftsOk(t) && s.runs <= t.runs
  }

  ghost predicate QuietEvents(s: State, t: State, i: Id) {
    exists more :: t.events == s.events + more && Neutral(more, i)
  }

  lemma {:induction false} QuietKeepsRunning(s: State, t: State, i: Id, p: Id, k: nat)
    requires Quiet(s, t) && Running(s, i, p, k)
    ensures Running(t, i, p, k)
  {
    assert SameExecution(s.items[i], t.items[i], t.clock);
  }

  lemma {:induction false} QuietKeepsExecutions(s: State, t: State)
    requires Quiet(s, t) && ExecutionsOk(s)
    ensures ExecutionsOk(t)
  {
    forall p, k | p in t.plans && 0 <= k < |t.plans[p].steps| ensures Justified(t, p, k) {
      assert Justified(s, p, k);
      if t.plans[p].steps[k].status == Executing {
        QuietKeepsRunning(s, t, t.plans[p].itemId, p, k);
      }
    }
    forall i | i in t.items ensures Waiting(t, i) {
      assert Waiting(s, i);
      assert SameExecution(s.items[i], t.items[i], t.clock);
      if t.items[i].ExecutionPending() {
        var p, k :| Running(s, i, p, k);
        QuietKeepsRunning(s, t, i, p, k);
      }
    }
  }

  lemma {:induction false} QuietKeepsApprovals(s: State, t: State)
    requires Quiet(s, t) && ItemsOk(s) && ApprovalsOk(s)
    ensures ApprovalsOk(t)
  {
    forall a | 0 <= a < |t.approvals|
      ensures && t.approvals[a].id < t.nextId && t.approvals[a].stepId < t.nextId
              && t.approvals[a].itemId in t.items
              && t.approvals[a].workspace == t.items[t.approvals[a].itemId].workspace
    {
      assert SameRequest(s.approvals[a], t.approvals[a]);
    }
    forall p, k | p in t.plans && 0 <= k < |t.plans[p].steps| ensures Requested(t, p, k) {
      assert Requested(s, p, k);
      if s.plans[p].steps[k].requiresApproval {
        var a :| 0 <= a < |s.approvals| && s.approvals[a].stepId == s.plans[p].steps[k].id
                 && s.approvals[a].itemId == s.plans[p].itemId;
        assert SameRequest(s.approvals[a], t.approvals[a]);
      }
    }
  }

  lemma {:induction false} QuietKeepsGrants(s: State, t: State)
    requires Quiet(s, t) && GrantsOk(s)
    ensures GrantsOk(t)
  {
    forall u | u in t.attempts ensures HasGrant(t, u) {
      assert HasGrant(s, u);
      var a :| 0 <= a < |s.approvals| && s.approvals[a].stepId == s.attempts[u].reservation.stepId
               && s.approvals[a].status == Approved;
      assert SameRequest(s.approvals[a], t.approvals[a]);
    }
  }

  lemma {:induction false} NeutralExtension(events: seq<Event>, more: seq<Event>, about: Id, i: Id)
    requires Neutral(more, about)
    ensures Balance(events + more, i) == Balance(events, i)
  {
    BalanceAppend(events, more, i);
    NeutralBalance(more, about, i);
  }

  lemma {:induction false} QuietEventsKeepBalance(s: State, t: State, i: Id)
    requires t.events == s.events || exists e :: e in s.items && QuietEvents(s, t, e)
    ensures Balance(t.events, i) == Balance(s.events, i)
    ensures forall n :: 0 <= n < |t.events| ==> n < |s.events| || t.events[n].itemId in s.items
    ensures |s.events| <= |t.events| && forall n :: 0 <= n < |s.events| ==> t.events[n] == s.events[n]
  {
    if t.events != s.events {
      var e :| e in s.items && QuietEvents(s, t, e);
      var more :| t.events == s.events + more && Neutral(more, e);
      NeutralExtension(s.events, more, e, i);
    }
  }

  lemma {:induction false} QuietKeepsEvents(s: State, t: State)
    requires Quiet(s, t) && EventsOk(s)
    ensures EventsOk(t)
  {
    QuietEventsKeepBalance(s, t, 0);
    forall i | i in t.items && t.config.recordsEvents
      ensures Balance(t.events, i) == Outstanding(t.items[i])
    {
      assert SameExecution(s.items[i], t.items[i], t.clock);
      QuietEventsKeepBalance(s, t, i);
    }
  }

  lemma {:induction false} QuietKeepsRecords(s: State, t: State)
    requires Quiet(s, t) && ItemsOk(s) && PlansOk(s) && AttemptsOk(s)
    ensures ItemsOk(t) && PlansOk(t) && AttemptsOk(t)
  {
    forall i | i in t.items
      ensures t.items[i].id == s.items[i].id && t.items[i].currentPlan == s.items[i].currentPlan
              && t.items[i].workspace == s.items[i].workspace
    {
      assert SameExecution(s.items[i], t.items[i], t.clock);
    }
    forall p | p in t.plans ensures PlanOk(t, p) {
      assert PlanOk(s, p);
    }
    forall u | u in t.attempts ensures AttemptOk(t, u) {
      assert AttemptOk(s, u);
    }
  }

  lemma {:induction false} QuietKeepsHistory(s: State, t: State)
    requires Quiet(s, t) && HistoryOk(s)
    ensures HistoryOk(t)
  {
    forall i | i in t.items ensures NamesOwnPlan(t, i) && t.items[i].currentPlan == s.items[i].currentPlan {
      assert SameExecution(s.items[i], t.items[i], t.clock);
      assert NamesOwnPlan(s, i);
    }
  }

  lemma {:induction false} QuietKeepsIdentities(s: State, t: State)
    requires Quiet(s, t) && StepIdsOk(s) && KeysOk(s)
    ensures StepIdsOk(t) && KeysOk(t)
  {
    forall i | i in s.items
      ensures t.items[i].workspace == s.items[i].workspace && t.items[i].idempotencyKey == s.items[i].idempotencyKey
    {
      assert SameExecution(s.items[i], t.items[i], t.clock);
    }
    SameIdentitiesKeep(s, t);
  }

  lemma {:induction false} QuietKeepsLogs(s: State, t: State)
    requires Quiet(s, t) && CallsOk(s)
    ensures CallsOk(t) && DraftsOk(t)
  {
  }

  lemma {:induction false} QuietKeepsInv(s: State, t: State)
    requires Quiet(s, t) && Inv(s)
    ensures Inv(t)
  {
    hide Quiet, HistoryOk, ItemsOk, PlansOk, StepIdsOk, ExecutionsOk, AttemptsOk, CallsOk, ApprovalsOk, GrantsOk,
         DraftsOk, KeysOk, EventsOk;
    QuietKeepsRecords(s, t);
    QuietKeepsHistory(s, t);
    QuietKeepsIdentities(s, t);
    QuietKeepsExecutions(s, t);
    QuietKeepsLogs(s, t);
    QuietKeepsApprovals(s, t);
    QuietKeepsGrants(s, t);
    QuietKeepsEvents(s, t);
  }
}
