/** What a holder leaves behind when it is done, whatever happened in between. */
module HolderOutcomes {
  import opened Basics
  import opened Models
  import opened Protocol
  import opened Invariant
  import opened QuietOperations
  import opened Evolution
  import opened Runs
  import opened Fencing

  /** Every holder of the step, of which there is at most one, has a verdict to show or left
      the outcome marked as unknown: nothing is silently in flight. */
  ghost predicate SettledOrUnknown(s: State, r: Reservation) {
    WellPlaced(s, r)
    && (HasVerdict(StepStatus(s, r))
        || s.items[r.itemId].Get(ExecutionOutcomeKey) == Some(OutcomeText(Unknown)))
  }

  /** A reservation that was granted stays granted, and stays within reach of its holder. */
  lemma {:induction false} GrantPersists(s: State, t: State, r: Reservation, ctx: SecurityContext)
    requires Inv(s) && Inv(t) && Evolves(s, t) && GrantedReservation(s, r)
    requires r.itemId in s.items && s.items[r.itemId].workspace == ctx.workspace
    ensures GrantedReservation(t, r) && WellPlaced(t, r) && Held(t, r, ctx).Ok?
  {
    assert AttemptEvolves(s.attempts[r.token], t.attempts[r.token]);
    GrantedIsPlaced(t, r, ctx);
  }

  lemma {:induction false} ReservationIsGranted(s: State, itemId: Id, stepId: Id, ctx: SecurityContext)
    requires Reserve(s, itemId, stepId, ctx).1.Ok? && Reserve(s, itemId, stepId, ctx).1.value.Granted? && ItemsOk(s)
    ensures var (t, reply) := Reserve(s, itemId, stepId, ctx);
            var r := reply.value.reservation;
            && GrantedReservation(t, r) && r.stepId == stepId && r.itemId == itemId
            && itemId in t.items && t.items[itemId].workspace == ctx.workspace
            && r.token == s.nextId
  {
  }

  lemma {:induction false} MarkingLeavesUnknown(s: State, r: Reservation, ctx: SecurityContext)
    requires Inv(s) && GrantedReservation(s, r) && Held(s, r, ctx).Ok?
    ensures SettledOrUnknown(MarkUnknown(s, r, ctx).0, r)
  {
    GrantedIsPlaced(s, r, ctx);
    ActiveIffExecuting(s, r);
    assert s.items[r.itemId].id == r.itemId;
  }

  /** A finalization that commits leaves the verdict it answers with. */
  lemma {:induction false} FinalizingLeavesVerdict(s: State, r: Reservation, success: bool, ctx: SecurityContext)
    requires Inv(s) && GrantedReservation(s, r) && Held(s, r, ctx).Ok?
    ensures var (t, reply) := Finalize(s, r, success, ctx);
            && WellPlaced(t, r) && HasVerdict(StepStatus(t, r))
            && reply.Ok?
            && (reply.value.ToolResponse? ==>
                  reply.value.success == success && StepStatus(t, r) == if success then Executed else Failed)
  {
    GrantedIsPlaced(s, r, ctx);
    ActiveIffExecuting(s, r);
    assert PlanOk(s, r.planId) && s.items[r.itemId].id == r.itemId;
    var (t, reply) := Finalize(s, r, success, ctx);
    var k := FindStep(s.plans[r.planId].steps, r.stepId).value;
    assert |t.plans[r.planId].steps| == |s.plans[r.planId].steps|;
    forall j | 0 <= j < |s.plans[r.planId].steps|
      ensures t.plans[r.planId].steps[j].id == s.plans[r.planId].steps[j].id
    {
    }
    FindStepAgrees(s.plans[r.planId].steps, t.plans[r.planId].steps, r.stepId);
  }

  // ------------------------------------------------------------ heartbeats

  /** A renewal answers False exactly when the execution is settled or marked unknown. */
  lemma {:induction false} RenewsUnlessLost(s: State, r: Reservation, ctx: SecurityContext)
    requires Inv(s) && GrantedReservation(s, r) && Held(s, r, ctx).Ok?
    ensures Renew(s, r, ctx).1 == Ok(!SettledOrUnknown(s, r))
  {
    GrantedIsPlaced(s, r, ctx);
    ActiveIffExecuting(s, r);
  }

  lemma {:induction false} SettledStaysSettled(s: State, r: Reservation, a: Action)
    requires Reachable(s) && GrantedReservation(s, r) && SettledOrUnknown(s, r)
    ensures GrantedReservation(Apply(s, a), r) && SettledOrUnknown(Apply(s, a), r)
  {
    hide Evolves, Apply;
    ReachableInv(s);
    OutcomesOnlyMoveForward(s, a);
    ActionKeepsInv(s, a);
    var t := Apply(s, a);
    EvolvedGrant(s, t, r);
    GrantedIsPlaced(t, r, SecurityContext("", false, "", Admin));
    ActiveIffExecuting(t, r);
    if HasVerdict(StepStatus(s, r)) {
      VerdictSurvives(s, t, r);
    }
  }

  lemma {:induction false} EvolvedGrant(s: State, t: State, r: Reservation)
    requires Evolves(s, t) && GrantedReservation(s, r)
    ensures GrantedReservation(t, r)
  {
    assert AttemptEvolves(s.attempts[r.token], t.attempts[r.token]);
  }

  lemma {:induction false} VerdictSurvives(s: State, t: State, r: Reservation)
    requires Evolves(s, t) && WellPlaced(s, r) && WellPlaced(t, r) && HasVerdict(StepStatus(s, r))
    ensures StepStatus(t, r) == StepStatus(s, r)
  {
    var k := FindStep(s.plans[r.planId].steps, r.stepId).value;
    assert PlanEvolves(s.plans[r.planId], t.plans[r.planId]);
    forall j | 0 <= j < |s.plans[r.planId].steps|
      ensures s.plans[r.planId].steps[j].id == t.plans[r.planId].steps[j].id
    {
      assert StepEvolves(s.plans[r.planId].steps[j], t.plans[r.planId].steps[j]);
    }
    FindStepAgrees(s.plans[r.planId].steps, t.plans[r.planId].steps, r.stepId);
    assert StepEvolves(s.plans[r.planId].steps[k], t.plans[r.planId].steps[k]);
  }

  /** The heartbeat thread is right to stop at the first False: from then on, whatever
      happens, no renewal of the reservation ever succeeds again. */
  lemma {:induction false} RenewalNeverResumes(s: State, r: Reservation, later: seq<Action>, ctx: SecurityContext)
    requires Reachable(s) && GrantedReservation(s, r) && SettledOrUnknown(s, r)
    ensures SettledOrUnknown(RunFrom(s, later), r) && GrantedReservation(RunFrom(s, later), r)
    ensures Renew(RunFrom(s, later), r, ctx).1 != Ok(true)
  {
    hide Inv, Apply;
    var t := RunFrom(s, later);
    if later != [] {
      var earlier := later[..|later| - 1];
      RenewalNeverResumes(s, r, earlier, ctx);
      ReachableRuns(s, earlier);
      SettledStaysSettled(RunFrom(s, earlier), r, later[|later| - 1]);
    }
    ReachableRuns(s, later);
    ReachableInv(t);
    if Held(t, r, ctx).Ok? {
      RenewsUnlessLost(t, r, ctx);
    }
  }
}
