/** A running execution gets its verdict. */
module Settling {
  import opened Basics
  import opened Models
  import opened Protocol
  import opened EventLog
  import opened Invariant
  import Planner

  ghost predicate SettleInput(s: State, i: Id, p: Id, k: nat, kind: EventKind) {
    Inv(s) && Running(s, i, p, k) && Weight(kind) == -1
  }

  function After(s: State, i: Id, p: Id, k: nat, succeeded: bool, kind: EventKind): State
    requires i in s.items && p in s.plans && k < |s.plans[p].steps|
  {
    Settle(s, s.items[i], s.plans[p], k, succeeded, kind)
  }

  lemma {:induction false} KeepsPlans(s: State, i: Id, p: Id, k: nat, succeeded: bool, kind: EventKind)
    requires ItemsOk(s) && PlansOk(s) && Running(s, i, p, k)
    ensures ItemsOk(After(s, i, p, k, succeeded, kind))
    ensures PlansOk(After(s, i, p, k, succeeded, kind))
  {
    var t := After(s, i, p, k, succeeded, kind);
    assert PlanOk(s, p);
    forall q | q in t.plans ensures PlanOk(t, q) {
      assert PlanOk(s, q);
    }
  }

  lemma {:induction false} KeepsHistory(s: State, i: Id, p: Id, k: nat, succeeded: bool, kind: EventKind)
    requires ItemsOk(s) && HistoryOk(s) && Running(s, i, p, k) && PlanOk(s, p)
    ensures HistoryOk(After(s, i, p, k, succeeded, kind))
  {
    var t := After(s, i, p, k, succeeded, kind);
    forall j | j in t.items ensures NamesOwnPlan(t, j) {
      assert NamesOwnPlan(s, j);
    }
  }

  lemma {:induction false} KeepsIdentities(s: State, i: Id, p: Id, k: nat, succeeded: bool, kind: EventKind)
    requires ItemsOk(s) && StepIdsOk(s) && KeysOk(s) && Running(s, i, p, k) && PlanOk(s, p)
    ensures StepIdsOk(After(s, i, p, k, succeeded, kind))
    ensures KeysOk(After(s, i, p, k, succeeded, kind))
  {
    hide FanOut, Planner.Bounded;
    SameIdentitiesKeep(s, After(s, i, p, k, succeeded, kind));
  }

  lemma {:induction false} KeepsExecutions(s: State, i: Id, p: Id, k: nat, succeeded: bool, kind: EventKind)
    requires ItemsOk(s) && PlansOk(s) && ExecutionsOk(s) && Running(s, i, p, k)
    ensures ExecutionsOk(After(s, i, p, k, succeeded, kind))
  {
    var t := After(s, i, p, k, succeeded, kind);
    assert PlanOk(s, p);
    forall q, j | q in t.plans && 0 <= j < |t.plans[q].steps| ensures Justified(t, q, j) {
      assert Justified(s, q, j);
    }
    forall j | j in t.items ensures Waiting(t, j) {
      assert Waiting(s, j);
      if t.items[j].ExecutionPending() {
        var q, n :| Running(s, j, q, n);
        assert Running(t, j, q, n);
      }
    }
  }

  lemma {:induction false} KeepsAttempts(s: State, i: Id, p: Id, k: nat, succeeded: bool, kind: EventKind)
    requires ItemsOk(s) && AttemptsOk(s) && Running(s, i, p, k) && PlanOk(s, p)
    ensures AttemptsOk(After(s, i, p, k, succeeded, kind))
  {
    var t := After(s, i, p, k, succeeded, kind);
    forall u | u in t.attempts ensures AttemptOk(t, u) {
      assert AttemptOk(s, u);
      var r := s.attempts[u].reservation;
      var j :| 0 <= j < |s.plans[r.planId].steps| && s.plans[r.planId].steps[j].id == r.stepId
               && Planner.Started(s.plans[r.planId].steps[j].status);
      assert t.plans[r.planId].steps[j].id == r.stepId && Planner.Started(t.plans[r.planId].steps[j].status);
    }
  }

  lemma {:induction false} KeepsApprovals(s: State, i: Id, p: Id, k: nat, succeeded: bool, kind: EventKind)
    requires ItemsOk(s) && ApprovalsOk(s) && GrantsOk(s) && Running(s, i, p, k) && PlanOk(s, p)
    ensures ApprovalsOk(After(s, i, p, k, succeeded, kind))
    ensures GrantsOk(After(s, i, p, k, succeeded, kind))
  {
    hide FanOut, Planner.Bounded;
    var t := After(s, i, p, k, succeeded, kind);
    forall q, j | q in t.plans && 0 <= j < |t.plans[q].steps| ensures Requested(t, q, j) {
      assert Requested(s, q, j);
    }
    forall u | u in t.attempts ensures HasGrant(t, u) {
      assert HasGrant(s, u);
    }
  }

  lemma {:induction false} KeepsEvents(s: State, i: Id, p: Id, k: nat, succeeded: bool, kind: EventKind)
    requires ItemsOk(s) && EventsOk(s) && Running(s, i, p, k) && Weight(kind) == -1
    ensures EventsOk(After(s, i, p, k, succeeded, kind))
  {
    var t := After(s, i, p, k, succeeded, kind);
    var settled := SettledItem(s.items[i], succeeded, s.clock);
    forall j | j in t.items && t.config.recordsEvents ensures Balance(t.events, j) == Outstanding(t.items[j]) {
      BalanceAppend(s.events, FanOut(s.config, settled, kind), j);
      BalanceOfFanOut(s.config, settled, kind, j);
    }
    BalanceOfFanOut(s.config, settled, kind, i);
  }

  /** Giving a running execution its verdict keeps the invariant, ends the wait of its
      item and touches no other item. */
  lemma {:induction false} SettleKeepsInv(s: State, i: Id, p: Id, k: nat, succeeded: bool, kind: EventKind)
    requires SettleInput(s, i, p, k, kind)
    ensures Inv(After(s, i, p, k, succeeded, kind))
    ensures !After(s, i, p, k, succeeded, kind).items[i].ExecutionPending()
  {
    assert PlanOk(s, p);
    KeepsPlans(s, i, p, k, succeeded, kind);
    KeepsHistory(s, i, p, k, succeeded, kind);
    KeepsIdentities(s, i, p, k, succeeded, kind);
    KeepsExecutions(s, i, p, k, succeeded, kind);
    KeepsAttempts(s, i, p, k, succeeded, kind);
    KeepsApprovals(s, i, p, k, succeeded, kind);
    KeepsEvents(s, i, p, k, succeeded, kind);
  }
}
