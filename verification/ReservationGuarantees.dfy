/** What a reservation needs, and what was true when each tool call was reserved. */
module ReservationGuarantees {
  import opened Basics
  import opened Documents
  import opened Models
  import opened Policy
  import opened Protocol
  import opened Invariant
  import opened Evolution
  import opened Runs
  import opened ExecutionGuarantees
  import opened Frames
  import Planner

  // ------------------------------------------------------------ what a reservation needs

  /** The first linked document exists in the item's workspace and is approved. */
  predicate ExportReady(s: State, item: WorkItem) {
    && item.linkedDocuments != [] && item.linkedDocuments[0] in s.documents
    && s.documents[item.linkedDocuments[0]].workspace == item.workspace
    && s.documents[item.linkedDocuments[0]].status == DocumentApproved
  }

  /** The guard lets a step through exactly if the step is no guarded export or the export
      is ready. */
  lemma {:induction false} GuardOpensIff(s: State, item: WorkItem, step: ActionStep)
    ensures ExportGuard(s, item, step) == Ok(None) <==>
              (step.action == ExportApprovedInvoice && s.config.guardsExports ==> ExportReady(s, item))
  {
  }

  /** Step `k` of the item's current plan has a tool, was neither started nor blocked, and is
      approved; there is an executor; and a guarded export is ready. */
  ghost predicate RunnableAt(s: State, itemId: Id, p: Id, k: nat) {
    && itemId in s.items && s.items[itemId].currentPlan == Some(p) && p in s.plans && k < |s.plans[p].steps|
    && var step := s.plans[p].steps[k];
       && IsToolAction(step.action) && !Planner.Started(step.status) && step.status != Blocked
       && GrantedFor(s, step.id) && s.config.hasExecutor
       && (step.action == ExportApprovedInvoice && s.config.guardsExports ==> ExportReady(s, s.items[itemId]))
  }

  lemma {:induction false} CheckPassesIff(s: State, itemId: Id, p: Id, k: nat)
    requires Inv(s) && itemId in s.items && s.items[itemId].currentPlan == Some(p) && p in s.plans
    requires k < |s.plans[p].steps|
    ensures ExecutionCheck(s, s.items[itemId], s.plans[p].steps[k]) == Ok(Proceed) <==> RunnableAt(s, itemId, p, k)
  {
    hide ExportGuard, ExportReady;
    var item, step := s.items[itemId], s.plans[p].steps[k];
    GuardOpensIff(s, item, step);
    assert PlanOk(s, p) && item.id == itemId;
    assert IsToolAction(step.action) ==> step.requiresApproval;
    if step.requiresApproval {
      GrantIsForItem(s, itemId, p, k);
    }
  }

  /** A step's granted approval is listed under its own item, where the coordinator looks. */
  lemma {:induction false} GrantIsForItem(s: State, itemId: Id, p: Id, k: nat)
    requires Inv(s) && itemId in s.items && p in s.plans && s.plans[p].itemId == itemId && k < |s.plans[p].steps|
    requires s.plans[p].steps[k].requiresApproval
    ensures ApprovedFor(s.approvals, s.items[itemId].workspace, itemId, s.plans[p].steps[k].id) <==>
              GrantedFor(s, s.plans[p].steps[k].id)
  {
    var stepId := s.plans[p].steps[k].id;
    assert Requested(s, p, k);
    var a :| 0 <= a < |s.approvals| && s.approvals[a].stepId == stepId && s.approvals[a].itemId == itemId;
    if GrantedFor(s, stepId) {
      assert Grants(s.approvals[a], s.items[itemId].workspace, itemId, stepId);
    }
  }

  lemma {:induction false} StepIsFound(s: State, p: Id, k: nat, stepId: Id)
    requires Inv(s) && p in s.plans && k < |s.plans[p].steps| && s.plans[p].steps[k].id == stepId
    ensures FindStep(s.plans[p].steps, stepId) == Some(k)
  {
    var found := FindStep(s.plans[p].steps, stepId);
    assert s.plans[p].steps[found.value].id == s.plans[p].steps[k].id;
  }

  /** Exactly when a request gets a reservation: the item is the caller's, and the step is
      one of its current plan that may run. */
  lemma {:induction false} ReservationGrantedIff(s: State, itemId: Id, stepId: Id, ctx: SecurityContext)
    requires Reachable(s)
    ensures var reply := Reserve(s, itemId, stepId, ctx).1;
            reply.Ok? && reply.value.Granted? <==>
              && itemId in s.items && s.items[itemId].workspace == ctx.workspace
              && exists p: Id, k: nat :: RunnableAt(s, itemId, p, k) && s.plans[p].steps[k].id == stepId
  {
    hide Reachable, Inv, ExecutionCheck, GrantedFor, ExportReady, IsToolAction, Planner.Started;
    ReachableInv(s);
    if itemId in s.items && s.items[itemId].workspace == ctx.workspace && s.items[itemId].currentPlan.Some?
       && s.items[itemId].currentPlan.value in s.plans
    {
      var p := s.items[itemId].currentPlan.value;
      var found := FindStep(s.plans[p].steps, stepId);
      if found.Some? {
        CheckPassesIff(s, itemId, p, found.value);
        StepIsFound(s, p, found.value, stepId);
      }
    }
    forall p: Id, k: nat | RunnableAt(s, itemId, p, k) && s.plans[p].steps[k].id == stepId
      ensures FindStep(s.plans[p].steps, stepId) == Some(k)
    {
      StepIsFound(s, p, k, stepId);
    }
  }

  // ------------------------------------------------------------ what was true at reservation

  /** Action `n` of the run granted the reservation. */
  ghost predicate ReservedBy(start: State, actions: seq<Action>, n: nat, r: Reservation) {
    && n < |actions| && actions[n].Reserves?
    && Reserve(RunFrom(start, actions[..n]), actions[n].itemId, actions[n].stepId, actions[n].ctx).1 == Ok(Granted(r))
  }

  lemma {:induction false} AttemptStays(s: State, t: State, token: Id)
    requires Evolves(s, t) && token in s.attempts
    ensures token in t.attempts && t.attempts[token].reservation == s.attempts[token].reservation
  {
    assert AttemptEvolves(s.attempts[token], t.attempts[token]);
  }

  /** Every reservation on record was granted by an action of the run. */
  lemma {:induction false} AttemptsWereReserved(start: State, actions: seq<Action>, token: Id) returns (n: nat)
    requires Initial(start) && token in RunFrom(start, actions).attempts
    ensures ReservedBy(start, actions, n, RunFrom(start, actions).attempts[token].reservation)
  {
    hide Inv, Evolves, Apply, Reserve;
    InitialInv(start);
    assert actions != [];
    var last := |actions| - 1;
    var before := RunFrom(start, actions[..last]);
    RunKeepsInv(start, actions[..last]);
    ActionKeepsInv(before, actions[last]);
    if token in before.attempts {
      n := AttemptsWereReserved(start, actions[..last], token);
      AttemptStays(before, RunFrom(start, actions), token);
      assert actions[..last][..n] == actions[..n];
    } else {
      n := last;
      NewAttemptIsReserved(before, actions[last], token);
    }
  }

  /** What was true in the state in which a call was reserved: the step was approved, and a
      guarded export had a first linked document that existed in the workspace and was
      approved. */
  lemma {:induction false} CallsWereReserved(start: State, actions: seq<Action>, m: nat) returns (n: nat)
    requires Initial(start) && m < |RunFrom(start, actions).calls|
    ensures var call := RunFrom(start, actions).calls[m];
            && ReservedBy(start, actions, n, call)
            && var then_ := RunFrom(start, actions[..n]);
               && GrantedFor(then_, call.stepId)
               && call.itemId in then_.items
               && (call.tool == ExportApprovedInvoice && then_.config.guardsExports ==>
                     ExportReady(then_, then_.items[call.itemId]))
  {
    hide Inv, Evolves, Apply, Reserve, Reachable, ExportReady, GrantedFor;
    var s := RunFrom(start, actions);
    var call := s.calls[m];
    assert Reachable(s) by { ReachedFrom(start, actions); }
    AtMostOneCallPerStep(s, m, m);
    n := AttemptsWereReserved(start, actions, call.token);
    var before := RunFrom(start, actions[..n]);
    assert Reachable(before) by { ReachedFrom(start, actions[..n]); }
    var a := actions[n];
    ReservationSaw(before, a.itemId, a.stepId, a.ctx, call);
  }

  lemma {:induction false} ReachedFrom(start: State, actions: seq<Action>)
    requires Initial(start)
    ensures Reachable(RunFrom(start, actions))
  {
  }

  lemma {:induction false} ReservationSaw(s: State, itemId: Id, stepId: Id, ctx: SecurityContext, r: Reservation)
    requires Reachable(s) && Reserve(s, itemId, stepId, ctx).1 == Ok(Granted(r))
    ensures GrantedFor(s, r.stepId) && r.itemId in s.items
    ensures r.tool == ExportApprovedInvoice && s.config.guardsExports ==> ExportReady(s, s.items[r.itemId])
  {
    hide Inv, Reachable, ExportReady, GrantedFor, ExportGuard;
    ReachableInv(s);
    InvParts(s);
    ReservationNeedsGrant(s, itemId, stepId, ctx);
    var p := s.items[itemId].currentPlan.value;
    var k := FindStep(s.plans[p].steps, stepId).value;
    GuardOpensIff(s, s.items[itemId], s.plans[p].steps[k]);
  }

  // ------------------------------------------------------------ reservations and their calls

  /** Action `c` of the run is the tool call of the reservation's holder. */
  ghost predicate CalledBy(start: State, actions: seq<Action>, c: nat, r: Reservation) {
    && c < |actions| && actions[c] == CallsTool(r.token)
    && r.token in RunFrom(start, actions[..c]).attempts
    && RunFrom(start, actions[..c]).attempts[r.token] == Attempt(r, false)
  }

  lemma {:induction false} AttemptIsNamed(s: State, token: Id)
    requires Inv(s) && token in s.attempts
    ensures s.attempts[token].reservation.token == token && token < s.nextId
  {
    assert AttemptOk(s, token);
  }

  /** Every entry of the log was made by a call of the run, before which it had as many
      entries as stand ahead of it. */
  lemma {:induction false} CallWasMade(start: State, actions: seq<Action>, m: nat) returns (c: nat)
    requires Initial(start) && m < |RunFrom(start, actions).calls|
    ensures CalledBy(start, actions, c, RunFrom(start, actions).calls[m])
    ensures |RunFrom(start, actions[..c]).calls| == m
  {
    hide Inv, Evolves, Apply, Reserve;
    assert actions != [];
    var last := |actions| - 1;
    var before := RunFrom(start, actions[..last]);
    InitialInv(start);
    RunKeepsInv(start, actions[..last]);
    ActionKeepsInv(before, actions[last]);
    if RunFrom(start, actions).calls != before.calls {
      NewCallIsMade(before, actions[last]);
    }
    if m < |before.calls| {
      c := CallWasMade(start, actions[..last], m);
      assert actions[..last][..c] == actions[..c];
    } else {
      c := last;
      AttemptIsNamed(before, actions[last].token);
    }
  }

  lemma {:induction false} RunSplits(start: State, actions: seq<Action>, n: nat, c: nat)
    requires n <= c <= |actions|
    ensures RunFrom(start, actions[..c]) == RunFrom(RunFrom(start, actions[..n]), actions[n..c])
  {
    hide RunFrom, Apply;
    RunsCompose(start, actions[..n], actions[n..c]);
    assert actions[..c] == actions[..n] + actions[n..c];
  }

  /** A reservation is granted before its holder calls. */
  lemma {:induction false} ReservedBeforeCalled(start: State, actions: seq<Action>, n: nat, c: nat, r: Reservation)
    requires Initial(start) && ReservedBy(start, actions, n, r) && CalledBy(start, actions, c, r)
    ensures n < c
  {
    hide Inv, Evolves, Apply, Reserve;
    var reserving, calling := RunFrom(start, actions[..n]), RunFrom(start, actions[..c]);
    ReservingNotes(reserving, actions[n].itemId, actions[n].stepId, actions[n].ctx);
    InitialInv(start);
    RunKeepsInv(start, actions[..n]);
    RunKeepsInv(start, actions[..c]);
    if c <= n {
      RunSplits(start, actions, c, n);
      RunKeepsInv(calling, actions[c..n]);
      AttemptStays(calling, reserving, r.token);
      AttemptIsNamed(reserving, r.token);
    }
  }

  // ------------------------------------------------------------ approved, reserved, called

  /** Action `n` of the run decided the approval, in the name and at the time on record, for a
      caller of the approval's workspace. */
  ghost predicate DecidedBy(start: State, actions: seq<Action>, n: nat, approval: Approval) {
    && n < |actions|
    && (if approval.status == Approved then actions[n].Approves? else actions[n].Rejects?)
    && actions[n].approvalId == approval.id && actions[n].ctx.workspace == approval.workspace
    && approval.reviewedBy == Some(actions[n].ctx.actor) && approval.reviewerNotes == actions[n].reviewNotes
    && approval.reviewedAt == Some(RunFrom(start, actions[..n]).clock)
  }

  /** Every decision on record was taken by an action of the run. */
  lemma {:induction false} DecisionWasTaken(start: State, actions: seq<Action>, a: nat) returns (n: nat)
    requires Initial(start) && a < |RunFrom(start, actions).approvals|
    requires RunFrom(start, actions).approvals[a].status != Pending
    ensures DecidedBy(start, actions, n, RunFrom(start, actions).approvals[a])
  {
    hide Inv, Evolves, Apply;
    InitialInv(start);
    assert actions != [];
    var last := |actions| - 1;
    var before := RunFrom(start, actions[..last]);
    RunKeepsInv(start, actions[..last]);
    ApprovalSteps(before, actions[last], a);
    if before.approvals[a] == RunFrom(start, actions).approvals[a] {
      n := DecisionWasTaken(start, actions[..last], a);
      assert actions[..last][..n] == actions[..n];
    } else {
      n := last;
    }
  }

  /** A decision stands as it was taken: nothing that follows changes the approval, its
      reviewer, notes and time included. */
  lemma {:induction false} DecisionStands(s: State, later: seq<Action>, a: nat)
    requires Reachable(s) && a < |s.approvals| && s.approvals[a].status != Pending
    ensures a < |RunFrom(s, later).approvals| && RunFrom(s, later).approvals[a] == s.approvals[a]
  {
    hide Inv, Reachable, RunFrom;
    ReachableInv(s);
    RunKeepsInv(s, later);
    assert SameRequest(s.approvals[a], RunFrom(s, later).approvals[a]);
  }

  /** An approval of a called step is one of the call's item, in its workspace. */
  lemma {:induction false} ApprovalIsForCall(s: State, m: nat, a: nat)
    requires Inv(s) && m < |s.calls| && a < |s.approvals| && s.approvals[a].stepId == s.calls[m].stepId
    ensures s.approvals[a].itemId == s.calls[m].itemId && s.calls[m].itemId in s.items
    ensures s.approvals[a].workspace == s.items[s.calls[m].itemId].workspace
  {
    var r := s.calls[m];
    assert AttemptOk(s, r.token) && PlanOk(s, r.planId);
    var k :| 0 <= k < |s.plans[r.planId].steps| && s.plans[r.planId].steps[k].id == r.stepId
             && Planner.Started(s.plans[r.planId].steps[k].status);
    assert Requested(s, r.planId, k);
  }

  /** For each entry of the log of tool calls there are three actions of the run in this order:
      a caller of the item's workspace approved the step, a request reserved it, and the holder
      of that reservation called the tool. The reviewer on record is the caller who approved. */
  lemma {:induction false} ApprovedThenReservedThenCalled(start: State, actions: seq<Action>, m: nat)
    returns (a: nat, approved: nat, reserved: nat, called: nat)
    requires Initial(start) && m < |RunFrom(start, actions).calls|
    ensures var s := RunFrom(start, actions);
            && approved < reserved < called
            && CalledBy(start, actions, called, s.calls[m]) && ReservedBy(start, actions, reserved, s.calls[m])
            && a < |s.approvals| && s.approvals[a].stepId == s.calls[m].stepId && s.approvals[a].status == Approved
            && s.calls[m].itemId in s.items && s.approvals[a].workspace == s.items[s.calls[m].itemId].workspace
            && DecidedBy(start, actions, approved, s.approvals[a])
  {
    hide Inv, Evolves, Apply, Reachable, RunFrom, Reserve, ExportReady;
    var s := RunFrom(start, actions);
    called := CallWasMade(start, actions, m);
    reserved := CallsWereReserved(start, actions, m);
    ReservedBeforeCalled(start, actions, reserved, called, s.calls[m]);
    var then_ := RunFrom(start, actions[..reserved]);
    a :| 0 <= a < |then_.approvals| && then_.approvals[a].stepId == s.calls[m].stepId
         && then_.approvals[a].status == Approved;
    approved := DecisionWasTaken(start, actions[..reserved], a);
    assert actions[..reserved][..approved] == actions[..approved];
    ReachedFrom(start, actions[..reserved]);
    DecisionStands(then_, actions[reserved..], a);
    RunSplits(start, actions, reserved, |actions|);
    assert actions[..|actions|] == actions && actions[reserved..|actions|] == actions[reserved..];
    ReachedFrom(start, actions);
    ReachableInv(s);
    ApprovalIsForCall(s, m, a);
  }
}
