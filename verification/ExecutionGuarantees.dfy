/** Safety of controlled execution over whole runs. */
module ExecutionGuarantees {
  import opened Basics
  import opened Models
  import opened Protocol
  import opened EventLog
  import opened Invariant
  import opened Evolution
  import opened Runs
  import Planner

  // ------------------------------------------------------------ one execution per item

  ghost predicate ExecutingAt(s: State, i: Id, p: Id, k: nat) {
    p in s.plans && s.plans[p].itemId == i && k < |s.plans[p].steps| && s.plans[p].steps[k].status == Executing
  }

  /** In every reachable state the outcome of an item is pending exactly when one step
      across all its plans is executing. There is only one, it belongs to the current plan
      and the item's context names it. */
  lemma {:induction false} PendingIffExecuting(s: State, i: Id)
    requires Reachable(s) && i in s.items
    ensures s.items[i].ExecutionPending() <==> exists p: Id, k: nat :: ExecutingAt(s, i, p, k)
    ensures forall p: Id, k: nat, q: Id, j: nat :: ExecutingAt(s, i, p, k) && ExecutingAt(s, i, q, j) ==>
              p == q && k == j
    ensures forall p: Id, k: nat :: ExecutingAt(s, i, p, k) ==>
              s.items[i].currentPlan == Some(p) && TargetMatches(s.items[i], p, s.plans[p].steps[k].id)
  {
    ReachableInv(s);
    assert Waiting(s, i);
    if s.items[i].ExecutionPending() {
      var p, k :| Running(s, i, p, k);
      assert ExecutingAt(s, i, p, k);
    }
    forall p: Id, k: nat | ExecutingAt(s, i, p, k) ensures Running(s, i, p, k) && PlanOk(s, p) {
      assert Justified(s, p, k) && PlanOk(s, p);
    }
    forall p: Id, k: nat, q: Id, j: nat | ExecutingAt(s, i, p, k) && ExecutingAt(s, i, q, j) ensures p == q && k == j {
      assert Running(s, i, p, k) && Running(s, i, q, j) && Planner.Bounded(s.plans[p].steps);
    }
  }

  // ------------------------------------------------------------ conservation of events

  function Count(events: seq<Event>, itemId: Id, kind: EventKind): nat {
    if events == [] then 0
    else
      var last := events[|events| - 1];
      Count(events[..|events| - 1], itemId, kind) + if last.itemId == itemId && last.kind == kind then 1 else 0
  }

  lemma {:induction false} BalanceCounts(events: seq<Event>, i: Id)
    ensures Balance(events, i) ==
            Count(events, i, ExecutionStarted)
            - (Count(events, i, ActionExecuted) + Count(events, i, ActionFailed)
               + Count(events, i, ReconciledSucceeded) + Count(events, i, ReconciledFailed))
  {
    if events != [] {
      BalanceCounts(events[..|events| - 1], i);
    }
  }

  /** At all times, the started events of an item exceed its verdict events by one fan-out
      if an execution is pending, and are as many if none is. */
  lemma {:induction false} EventsAreConserved(s: State, i: Id)
    requires Reachable(s) && s.config.recordsEvents && i in s.items
    ensures Count(s.events, i, ExecutionStarted)
            == Count(s.events, i, ActionExecuted) + Count(s.events, i, ActionFailed)
               + Count(s.events, i, ReconciledSucceeded) + Count(s.events, i, ReconciledFailed)
               + (if !s.items[i].ExecutionPending() then 0
                  else if s.items[i].linkedDocuments == [] then 1 else |s.items[i].linkedDocuments|)
  {
    ReachableInv(s);
    BalanceCounts(s.events, i);
    assert Balance(s.events, i) == Outstanding(s.items[i]);
  }

  // ------------------------------------------------------------ at most one call

  /** The tool was never called twice for a step, whatever holders, replays, crashes and
      reconciliations did; and every call was made under a reservation of that step. */
  lemma {:induction false} AtMostOneCallPerStep(s: State, m: nat, n: nat)
    requires Reachable(s) && m < |s.calls| && n < |s.calls| && s.calls[m].stepId == s.calls[n].stepId
    ensures m == n
    ensures s.calls[m].token in s.attempts && s.attempts[s.calls[m].token].reservation == s.calls[m]
  {
    ReachableInv(s);
  }

  function CallsFor(calls: seq<Reservation>, itemId: Id): seq<Id> {
    if calls == [] then []
    else
      var last := calls[|calls| - 1];
      CallsFor(calls[..|calls| - 1], itemId) + if last.itemId == itemId then [last.planId] else []
  }

  function PlansFor(s: State, itemId: Id): set<Id> {
    set p | p in s.plans && s.plans[p].itemId == itemId
  }

  ghost predicate DistinctIds(ids: seq<Id>) {
    forall a, b :: 0 <= a < b < |ids| ==> ids[a] != ids[b]
  }

  lemma {:induction false} CallsForFacts(calls: seq<Reservation>, itemId: Id)
    requires forall m, n :: 0 <= m < n < |calls| && calls[m].itemId == calls[n].itemId ==>
              calls[m].planId != calls[n].planId
    ensures DistinctIds(CallsFor(calls, itemId))
    ensures forall p :: p in CallsFor(calls, itemId) ==>
              exists n :: 0 <= n < |calls| && calls[n].itemId == itemId && calls[n].planId == p
  {
    if calls != [] {
      var last := |calls| - 1;
      CallsForFacts(calls[..last], itemId);
      var earlier := CallsFor(calls[..last], itemId);
      forall p | p in CallsFor(calls, itemId)
        ensures exists n :: 0 <= n < |calls| && calls[n].itemId == itemId && calls[n].planId == p
      {
        if p in earlier {
          var n :| 0 <= n < last && calls[..last][n].itemId == itemId && calls[..last][n].planId == p;
          assert calls[n].planId == p;
        } else {
          assert calls[last].planId == p;
        }
      }
      forall a | 0 <= a < |earlier| && calls[last].itemId == itemId ensures earlier[a] != calls[last].planId {
        assert earlier[a] in earlier;
        var n :| 0 <= n < last && calls[..last][n].itemId == itemId && calls[..last][n].planId == earlier[a];
        assert calls[n].itemId == itemId;
      }
    }
  }

  lemma {:induction false} DistinctIdsFit(ids: seq<Id>, bound: set<Id>)
    requires DistinctIds(ids) && forall p :: p in ids ==> p in bound
    ensures |ids| <= |bound|
  {
    if ids != [] {
      var last := ids[|ids| - 1];
      assert ids[..|ids| - 1] + [last] == ids;
      DistinctIdsFit(ids[..|ids| - 1], bound - {last});
    }
  }

  /** Two calls for the same item are for different plans: a plan has one tool step. */
  lemma {:induction false} CallsAreForDifferentPlans(s: State, m: nat, n: nat)
    requires Inv(s) && m < n < |s.calls| && s.calls[m].itemId == s.calls[n].itemId
    ensures s.calls[m].planId != s.calls[n].planId
  {
    assert AttemptOk(s, s.calls[m].token) && AttemptOk(s, s.calls[n].token);
    assert PlanOk(s, s.calls[m].planId);
  }

  /** Hence an item never sees more tool calls than it has plans. */
  lemma {:induction false} NoMoreCallsThanPlans(s: State, i: Id)
    requires Reachable(s)
    ensures |CallsFor(s.calls, i)| <= |PlansFor(s, i)|
  {
    ReachableInv(s);
    forall m, n | 0 <= m < n < |s.calls| && s.calls[m].itemId == s.calls[n].itemId
      ensures s.calls[m].planId != s.calls[n].planId
    {
      CallsAreForDifferentPlans(s, m, n);
    }
    CallsForFacts(s.calls, i);
    forall p | p in CallsFor(s.calls, i) ensures p in PlansFor(s, i) {
      var n :| 0 <= n < |s.calls| && s.calls[n].itemId == i && s.calls[n].planId == p;
      assert AttemptOk(s, s.calls[n].token);
    }
    DistinctIdsFit(CallsFor(s.calls, i), PlansFor(s, i));
  }

  // ------------------------------------------------------------ the rank of a step

  /** What is left for a step to go through: a reservation and a verdict. */
  function Rank(status: ActionStepStatus): nat {
    match status
    case Executing => 1
    case Executed => 0
    case Failed => 0
    case Blocked => 0
    case _ => 2
  }

  lemma {:induction false} RankFalls(a: ActionStepStatus, b: ActionStepStatus)
    requires StatusEvolves(a, b)
    ensures Rank(b) <= Rank(a) && (a != b ==> Rank(b) < Rank(a))
  {
  }

  /** No action ever raises the rank of a step, and an action that changes the status
      lowers it: a step is reserved at most once and settled at most once in any run. */
  lemma {:induction false} StepRankNeverRises(s: State, actions: seq<Action>, p: Id, k: nat)
    requires Reachable(s) && p in s.plans && k < |s.plans[p].steps|
    ensures var t := RunFrom(s, actions);
            && p in t.plans && |t.plans[p].steps| == |s.plans[p].steps|
                && t.plans[p].steps[k].id == s.plans[p].steps[k].id
            && Rank(t.plans[p].steps[k].status) <= Rank(s.plans[p].steps[k].status)
            && (t.plans[p].steps[k].status != s.plans[p].steps[k].status ==>
                  Rank(t.plans[p].steps[k].status) < Rank(s.plans[p].steps[k].status))
  {
    ReachableInv(s);
    RunKeepsInv(s, actions);
    var t := RunFrom(s, actions);
    assert PlanEvolves(s.plans[p], t.plans[p]);
    assert StepEvolves(s.plans[p].steps[k], t.plans[p].steps[k]);
    RankFalls(s.plans[p].steps[k].status, t.plans[p].steps[k].status);
  }

  // ------------------------------------------------------------ approvals

  ghost predicate GrantedFor(s: State, stepId: Id) {
    exists a :: 0 <= a < |s.approvals| && s.approvals[a].stepId == stepId && s.approvals[a].status == Approved
  }

  /** A reservation goes through only in a state in which the step's approval is granted:
      the planner gives no tool to a step that needs no approval. */
  lemma {:induction false} ReservationNeedsGrant(s: State, itemId: Id, stepId: Id, ctx: SecurityContext)
    requires Reachable(s) && Reserve(s, itemId, stepId, ctx).1.Ok? && Reserve(s, itemId, stepId, ctx).1.value.Granted?
    ensures GrantedFor(s, stepId)
  {
    ReachableInv(s);
    var p := s.items[itemId].currentPlan.value;
    var k := FindStep(s.plans[p].steps, stepId).value;
    assert PlanOk(s, p);
    assert ApprovedFor(s.approvals, s.items[itemId].workspace, s.items[itemId].id, stepId);
    var a :| 0 <= a < |s.approvals| && Grants(s.approvals[a], s.items[itemId].workspace, s.items[itemId].id, stepId);
    assert s.approvals[a].stepId == stepId;
  }

  lemma {:induction false} CallHasGrant(s: State, n: nat)
    requires Inv(s) && n < |s.calls|
    ensures GrantedFor(s, s.calls[n].stepId)
  {
    assert HasGrant(s, s.calls[n].token);
  }

  lemma {:induction false} GrantLasts(s: State, t: State, stepId: Id)
    requires Evolves(s, t) && GrantedFor(s, stepId)
    ensures GrantedFor(t, stepId)
  {
    var a :| 0 <= a < |s.approvals| && s.approvals[a].stepId == stepId && s.approvals[a].status == Approved;
    assert SameRequest(s.approvals[a], t.approvals[a]);
  }

  /** A grant is never withdrawn, and every step that the tool was called for has one. */
  lemma {:induction false} CallsAreApproved(s: State, actions: seq<Action>, n: nat)
    requires Reachable(s) && n < |s.calls|
    ensures GrantedFor(s, s.calls[n].stepId)
    ensures GrantedFor(RunFrom(s, actions), s.calls[n].stepId)
  {
    hide Reachable, RunFrom, Inv, Evolves, GrantedFor;
    ReachableInv(s);
    RunKeepsInv(s, actions);
    CallHasGrant(s, n);
    GrantLasts(s, RunFrom(s, actions), s.calls[n].stepId);
  }

  ghost predicate NeverStarted(s: State, stepId: Id) {
    && (forall t :: t in s.attempts ==> s.attempts[t].reservation.stepId != stepId)
    && (forall n :: 0 <= n < |s.calls| ==> s.calls[n].stepId != stepId)
  }

  lemma {:induction false} UnreservedIsUncalled(s: State, stepId: Id)
    requires Inv(s) && forall t :: t in s.attempts ==> s.attempts[t].reservation.stepId != stepId
    ensures NeverStarted(s, stepId)
  {
  }

  /** A step blocked at planning is never reserved and never executed on any continuation,
      whatever becomes of its approval. */
  lemma {:induction false} BlockedNeverExecutes(s: State, actions: seq<Action>, p: Id, k: nat)
    requires Reachable(s) && p in s.plans && k < |s.plans[p].steps| && s.plans[p].steps[k].status == Blocked
    ensures var t := RunFrom(s, actions);
            p in t.plans && k < |t.plans[p].steps| && t.plans[p].steps[k].status == Blocked
            && NeverStarted(t, s.plans[p].steps[k].id)
  {
    hide Reachable, RunFrom, NeverStarted;
    ReachableInv(s);
    RunKeepsInv(s, actions);
    var t := RunFrom(s, actions);
    assert PlanEvolves(s.plans[p], t.plans[p]);
    assert StepEvolves(s.plans[p].steps[k], t.plans[p].steps[k]);
    forall u | u in t.attempts ensures t.attempts[u].reservation.stepId != s.plans[p].steps[k].id {
      assert AttemptOk(t, u);
    }
    UnreservedIsUncalled(t, s.plans[p].steps[k].id);
  }

  /** Nor is a step whose approval was rejected: it has no other approval, and a rejection
      is final. */
  lemma {:induction false} RejectedNeverExecutes(s: State, actions: seq<Action>, a: nat)
    requires Reachable(s) && a < |s.approvals| && s.approvals[a].status == Rejected
    ensures NeverStarted(RunFrom(s, actions), s.approvals[a].stepId)
    ensures !GrantedFor(RunFrom(s, actions), s.approvals[a].stepId)
  {
    ReachableInv(s);
    RunKeepsInv(s, actions);
    var t := RunFrom(s, actions);
    assert SameRequest(s.approvals[a], t.approvals[a]);
    forall u | u in t.attempts ensures t.attempts[u].reservation.stepId != s.approvals[a].stepId {
      assert HasGrant(t, u);
    }
    UnreservedIsUncalled(t, s.approvals[a].stepId);
  }

  /** Planning made exactly one approval for every step that requires one. */
  lemma {:induction false} ExactlyOneApproval(s: State, p: Id, k: nat)
    requires Reachable(s) && p in s.plans && k < |s.plans[p].steps| && s.plans[p].steps[k].requiresApproval
    ensures exists a :: 0 <= a < |s.approvals| && s.approvals[a].stepId == s.plans[p].steps[k].id
                        && s.approvals[a].itemId == s.plans[p].itemId
    ensures forall a, b :: 0 <= a < |s.approvals| && 0 <= b < |s.approvals|
              && s.approvals[a].stepId == s.plans[p].steps[k].id && s.approvals[b].stepId == s.plans[p].steps[k].id
              ==> a == b
  {
    ReachableInv(s);
    assert Requested(s, p, k);
  }
}
