/** A step is reserved, and the tool is called for it. */
module Starting {
  import opened Basics
  import opened Models
  import opened Protocol
  import opened EventLog
  import opened Invariant
  import Planner

  /** Step `k` of the item's current plan passed every check of a reservation. */
  ghost predicate Startable(s: State, i: Id, p: Id, k: nat) {
    && i in s.items && s.items[i].currentPlan == Some(p) && p in s.plans && k < |s.plans[p].steps|
    && ExecutionCheck(s, s.items[i], s.plans[p].steps[k]) == Ok(Proceed)
  }

  /** The reservation code never asks whether another step of the item is running. It need
      not: a step that may be started is its plan's only tool step, the plan is the current
      one, and while an execution is pending the current plan's tool step is running. */
  lemma {:induction false} NothingElseRuns(s: State, i: Id, p: Id, k: nat)
    requires Inv(s) && Startable(s, i, p, k)
    ensures !s.items[i].ExecutionPending()
    ensures forall q, j :: q in s.plans && s.plans[q].itemId == i && 0 <= j < |s.plans[q].steps| ==>
              s.plans[q].steps[j].status != Executing
  {
    assert Waiting(s, i);
    assert PlanOk(s, p);
    forall q, j | q in s.plans && s.plans[q].itemId == i && 0 <= j < |s.plans[q].steps|
      ensures s.plans[q].steps[j].status != Executing
    {
      assert Justified(s, q, j);
    }
  }

  /** A step that may be started was never reserved. */
  lemma {:induction false} NeverReserved(s: State, i: Id, p: Id, k: nat)
    requires Inv(s) && Startable(s, i, p, k)
    ensures forall t :: t in s.attempts ==> s.attempts[t].reservation.stepId != s.plans[p].steps[k].id
  {
    forall t | t in s.attempts ensures s.attempts[t].reservation.stepId != s.plans[p].steps[k].id {
      assert AttemptOk(s, t);
    }
  }

  function After(s: State, i: Id, p: Id, k: nat): State
    requires i in s.items && p in s.plans && k < |s.plans[p].steps|
  {
    StartExecution(s, s.items[i], s.plans[p], k)
  }

  lemma {:induction false} KeepsPlans(s: State, i: Id, p: Id, k: nat)
    requires ItemsOk(s) && PlansOk(s) && Startable(s, i, p, k)
    ensures ItemsOk(After(s, i, p, k)) && PlansOk(After(s, i, p, k))
  {
    var t := After(s, i, p, k);
    assert PlanOk(s, p);
    forall q | q in t.plans ensures PlanOk(t, q) {
      assert PlanOk(s, q);
    }
  }

  lemma {:induction false} KeepsHistory(s: State, i: Id, p: Id, k: nat)
    requires Startable(s, i, p, k) && ItemsOk(s) && PlanOk(s, p) && HistoryOk(s) && AttemptsOk(s)
    ensures HistoryOk(After(s, i, p, k))
  {
    var t := After(s, i, p, k);
    FreshToken(s);
    forall j | j in t.items ensures NamesOwnPlan(t, j) {
      assert NamesOwnPlan(s, j);
    }
    forall u, v | u in t.attempts && v in t.attempts && u <= v
                  && t.attempts[u].reservation.itemId == t.attempts[v].reservation.itemId
      ensures t.attempts[u].reservation.planId <= t.attempts[v].reservation.planId
    {
      assert u in s.attempts ==> AttemptOk(s, u);
      assert v in s.attempts ==> AttemptOk(s, v);
    }
  }

  lemma {:induction false} KeepsIdentities(s: State, i: Id, p: Id, k: nat)
    requires Startable(s, i, p, k) && ItemsOk(s) && StepIdsOk(s) && KeysOk(s) && PlanOk(s, p)
    ensures StepIdsOk(After(s, i, p, k)) && KeysOk(After(s, i, p, k))
  {
    hide FanOut, Planner.Bounded;
    SameIdentitiesKeep(s, After(s, i, p, k));
  }

  lemma {:induction false} NowRunning(s: State, i: Id, p: Id, k: nat)
    requires Startable(s, i, p, k) && ItemsOk(s) && PlanOk(s, p)
    ensures Running(After(s, i, p, k), i, p, k)
  {
  }

  lemma {:induction false} OthersKeepRunning(s: State, i: Id, p: Id, k: nat, j: Id, q: Id, n: nat)
    requires Startable(s, i, p, k) && ItemsOk(s) && PlanOk(s, p) && AttemptsOk(s)
    requires Running(s, j, q, n) && j != i
    ensures Running(After(s, i, p, k), j, q, n)
  {
    assert AttemptOk(s, s.items[j].Get(ExecutionToken).value.token);
  }

  lemma {:induction false} KeepsExecutions(s: State, i: Id, p: Id, k: nat)
    requires Inv(s) && Startable(s, i, p, k)
    ensures ExecutionsOk(After(s, i, p, k))
  {
    var t := After(s, i, p, k);
    assert PlanOk(s, p);
    NothingElseRuns(s, i, p, k);
    NowRunning(s, i, p, k);
    forall q, j | q in t.plans && 0 <= j < |t.plans[q].steps| ensures Justified(t, q, j) {
      assert Justified(s, q, j);
      if t.plans[q].steps[j].status == Executing && !(q == p && j == k) {
        OthersKeepRunning(s, i, p, k, s.plans[q].itemId, q, j);
      }
    }
    forall j | j in t.items ensures Waiting(t, j) {
      assert Waiting(s, j);
      if j != i && t.items[j].ExecutionPending() {
        var q, n :| Running(s, j, q, n);
        OthersKeepRunning(s, i, p, k, j, q, n);
      }
    }
  }

  lemma {:induction false} KeepsAttempts(s: State, i: Id, p: Id, k: nat)
    requires Inv(s) && Startable(s, i, p, k)
    ensures AttemptsOk(After(s, i, p, k))
  {
    hide FanOut, HistoryOk, StepIdsOk, ExecutionsOk, CallsOk, ApprovalsOk, GrantsOk, DraftsOk, KeysOk, EventsOk,
         Planner.Bounded, ExecutionCheck;
    var t := After(s, i, p, k);
    assert PlanOk(s, p);
    NeverReserved(s, i, p, k);
    forall u | u in t.attempts ensures AttemptOk(t, u) {
      if u in s.attempts {
        assert AttemptOk(s, u);
        var r := s.attempts[u].reservation;
        var j :| 0 <= j < |s.plans[r.planId].steps| && s.plans[r.planId].steps[j].id == r.stepId
                 && Planner.Started(s.plans[r.planId].steps[j].status);
        assert t.plans[r.planId].steps[j].id == r.stepId && Planner.Started(t.plans[r.planId].steps[j].status);
      }
      if u == s.nextId {
        assert t.plans[p].steps[k].status == Executing;
      }
    }
    FreshToken(s);
  }

  lemma {:induction false} FreshToken(s: State)
    requires AttemptsOk(s)
    ensures s.nextId !in s.attempts
  {
    assert s.nextId in s.attempts ==> AttemptOk(s, s.nextId);
  }

  lemma {:induction false} KeepsCalls(s: State, i: Id, p: Id, k: nat)
    requires Startable(s, i, p, k) && AttemptsOk(s) && CallsOk(s)
    ensures CallsOk(After(s, i, p, k))
  {
    FreshToken(s);
  }

  lemma {:induction false} KeepsRequests(s: State, i: Id, p: Id, k: nat)
    requires ItemsOk(s) && ApprovalsOk(s) && Startable(s, i, p, k) && PlanOk(s, p)
    ensures ApprovalsOk(After(s, i, p, k))
  {
    hide ExecutionCheck, FanOut, Planner.Bounded;
    var t := After(s, i, p, k);
    forall q, j | q in t.plans && 0 <= j < |t.plans[q].steps| ensures Requested(t, q, j) {
      assert Requested(s, q, j);
    }
  }

  /** The approval that let the reservation through is the step's grant. */
  lemma {:induction false} KeepsGrants(s: State, i: Id, p: Id, k: nat)
    requires AttemptsOk(s) && GrantsOk(s) && Startable(s, i, p, k) && PlanOk(s, p)
    ensures GrantsOk(After(s, i, p, k))
  {
    hide FanOut;
    var t := After(s, i, p, k);
    FreshToken(s);
    forall u | u in t.attempts ensures HasGrant(t, u) {
      if u in s.attempts {
        assert HasGrant(s, u);
      } else {
        var stepId := s.plans[p].steps[k].id;
        assert ApprovedFor(s.approvals, s.items[i].workspace, s.items[i].id, stepId);
        var a :| 0 <= a < |s.approvals| && Grants(s.approvals[a], s.items[i].workspace, s.items[i].id, stepId);
        assert t.approvals[a].stepId == stepId && t.approvals[a].status == Approved;
      }
    }
  }

  lemma {:induction false} KeepsEvents(s: State, i: Id, p: Id, k: nat)
    requires ItemsOk(s) && EventsOk(s) && Startable(s, i, p, k) && !s.items[i].ExecutionPending()
    ensures EventsOk(After(s, i, p, k))
  {
    var t := After(s, i, p, k);
    var started := t.items[i];
    forall j | j in t.items && t.config.recordsEvents ensures Balance(t.events, j) == Outstanding(t.items[j]) {
      BalanceAppend(s.events, FanOut(s.config, started, ExecutionStarted), j);
      BalanceOfFanOut(s.config, started, ExecutionStarted, j);
    }
    BalanceOfFanOut(s.config, started, ExecutionStarted, i);
  }

  lemma {:induction false} StartKeepsInv(s: State, i: Id, p: Id, k: nat)
    requires Inv(s) && Startable(s, i, p, k)
    ensures Inv(After(s, i, p, k))
  {
    assert PlanOk(s, p);
    NothingElseRuns(s, i, p, k);
    KeepsPlans(s, i, p, k);
    KeepsHistory(s, i, p, k);
    KeepsIdentities(s, i, p, k);
    KeepsExecutions(s, i, p, k);
    KeepsAttempts(s, i, p, k);
    KeepsCalls(s, i, p, k);
    KeepsRequests(s, i, p, k);
    KeepsGrants(s, i, p, k);
    KeepsEvents(s, i, p, k);
  }

  // ------------------------------------------------------------ calling the tool

  /** A holder that has not called the tool yet calls it. */
  function CallTool(s: State, token: Id): State {
    if token in s.attempts && !s.attempts[token].called then
      s.(attempts := s.attempts[token := s.attempts[token].(called := true)],
         calls := s.calls + [s.attempts[token].reservation])
    else s
  }

  lemma {:induction false} CallKeepsRunning(s: State, token: Id, i: Id, p: Id, k: nat)
    requires Running(s, i, p, k)
    ensures Running(CallTool(s, token), i, p, k)
  {
  }

  lemma {:induction false} CallKeepsExecutions(s: State, token: Id)
    requires ExecutionsOk(s)
    ensures ExecutionsOk(CallTool(s, token))
  {
    var t := CallTool(s, token);
    forall p, k | p in t.plans && 0 <= k < |t.plans[p].steps| ensures Justified(t, p, k) {
      assert Justified(s, p, k);
      if t.plans[p].steps[k].status == Executing {
        CallKeepsRunning(s, token, t.plans[p].itemId, p, k);
      }
    }
    forall i | i in t.items ensures Waiting(t, i) {
      assert Waiting(s, i);
      if t.items[i].ExecutionPending() {
        var p, k :| Running(s, i, p, k);
        CallKeepsRunning(s, token, i, p, k);
      }
    }
  }

  lemma {:induction false} CallKeepsHistory(s: State, token: Id)
    requires HistoryOk(s)
    ensures HistoryOk(CallTool(s, token))
  {
    var t := CallTool(s, token);
    forall i | i in t.items ensures NamesOwnPlan(t, i) {
      assert NamesOwnPlan(s, i);
    }
  }

  lemma {:induction false} CallKeepsAttempts(s: State, token: Id)
    requires GrantsOk(s) && AttemptsOk(s) && ApprovalsOk(s)
    ensures GrantsOk(CallTool(s, token)) && AttemptsOk(CallTool(s, token)) && ApprovalsOk(CallTool(s, token))
  {
    var t := CallTool(s, token);
    forall p, k | p in t.plans && 0 <= k < |t.plans[p].steps| ensures Requested(t, p, k) {
      assert Requested(s, p, k);
    }
    forall u | u in t.attempts ensures HasGrant(t, u) && AttemptOk(t, u) {
      assert HasGrant(s, u) && AttemptOk(s, u);
    }
  }

  lemma {:induction false} CallKeepsRecords(s: State, token: Id)
    requires ItemsOk(s) && PlansOk(s) && StepIdsOk(s) && KeysOk(s) && DraftsOk(s) && EventsOk(s)
    ensures var t := CallTool(s, token);
            ItemsOk(t) && PlansOk(t) && StepIdsOk(t) && KeysOk(t) && DraftsOk(t) && EventsOk(t)
  {
    var t := CallTool(s, token);
    forall p | p in t.plans ensures PlanOk(t, p) {
      assert PlanOk(s, p);
    }
  }

  lemma {:induction false} CallKeepsCalls(s: State, token: Id)
    requires AttemptsOk(s) && CallsOk(s)
    ensures CallsOk(CallTool(s, token))
  {
    assert token in s.attempts ==> AttemptOk(s, token);
  }

  lemma {:induction false} CallKeepsInv(s: State, token: Id)
    requires Inv(s)
    ensures Inv(CallTool(s, token))
  {
    hide CallTool, HistoryOk, ItemsOk, PlansOk, StepIdsOk, ExecutionsOk, AttemptsOk, CallsOk, ApprovalsOk, GrantsOk,
         DraftsOk, KeysOk, EventsOk;
    CallKeepsExecutions(s, token);
    CallKeepsHistory(s, token);
    CallKeepsAttempts(s, token);
    CallKeepsRecords(s, token);
    CallKeepsCalls(s, token);
  }
}
