/** The execution coordinator as the program runs it (execution.py): each method loads copies
    of the records, changes them and saves them in one transaction. */
module Coordinator {
  import opened Basics
  import opened Documents
  import opened Models
  import opened Policy
  import opened Protocol
  import opened Invariant
  import opened QuietOperations
  import opened Evolution
  import opened Runs
  import opened Fencing
  import opened Ledgers
  import opened Continuations
  import opened Frames
  import opened HolderOutcomes
  import opened Verdicts
  import Starting

  /** What the external tool does with a call. */
  datatype ToolBehaviour = Succeeds | Fails | Raises

  class ExecutionCoordinator {
    const ledger: Ledger

    constructor (ledger: Ledger)
      ensures this.ledger == ledger
    {
      this.ledger := ledger;
    }

    /** `_approved_action_for_step`: scan the approvals of the item for a granted one. */
    method HasApprovedAction(workspace: string, itemId: Id, stepId: Id) returns (found: bool)
      ensures found <==> ApprovedFor(ledger.approvals, workspace, itemId, stepId)
    {
      for n := 0 to |ledger.approvals|
        invariant forall j :: 0 <= j < n ==> !Grants(ledger.approvals[j], workspace, itemId, stepId)
      {
        if Grants(ledger.approvals[n], workspace, itemId, stepId) {
          return true;
        }
      }
      return false;
    }

    /** `_export_execution_guard` */
    method ExportExecutionGuard(item: WorkItem, step: ActionStep) returns (r: Result<Option<BlockReason>>)
      ensures r == ExportGuard(ledger.View(), item, step)
    {
      if step.action != ExportApprovedInvoice || !ledger.config.guardsExports {
        return Ok(None);
      }
      if item.linkedDocuments == [] {
        return Ok(Some(ExportNeedsDocument));
      }
      var documentId := item.linkedDocuments[0];
      if documentId !in ledger.documents {
        return Raised(NotFound);
      }
      var document := ledger.documents[documentId];
      if document.workspace != item.workspace {
        return Raised(NotFound);
      }
      if document.status != DocumentApproved {
        return Ok(Some(ExportNeedsApproval));
      }
      return Ok(None);
    }

    /** `_execution_tool_or_error` */
    method ExecutionToolOrError(item: WorkItem, step: ActionStep) returns (r: Result<Check>)
      ensures r == ExecutionCheck(ledger.View(), item, step)
    {
      if step.status == Executed {
        return Ok(Answer(AlreadyExecuted));
      }
      if step.status == Executing {
        return Ok(Answer(BlockedReply(OutcomeUnreconciled)));
      }
      if step.status == Blocked || step.status == Failed {
        return Ok(Answer(BlockedReply(StepNotRunnable)));
      }
      var approved := HasApprovedAction(item.workspace, item.id, step.id);
      if step.requiresApproval && !approved {
        return Ok(Answer(BlockedReply(ApprovalMissing)));
      }
      if !IsToolAction(step.action) {
        return Ok(Answer(BlockedReply(NoToolForAction)));
      }
      if !ledger.config.hasExecutor {
        return Ok(Answer(BlockedReply(NoExecutor)));
      }
      var guard := ExportExecutionGuard(item, step);
      if guard.Raised? {
        return Raised(guard.error);
      }
      if guard.value.Some? {
        return Ok(Answer(BlockedReply(guard.value.value)));
      }
      return Ok(Proceed);
    }

    method ReserveApprovedExecution(itemId: Id, stepId: Id, ctx: SecurityContext) returns (r: Result<ReserveReply>)
      requires ledger.Valid()
      modifies ledger
      ensures ledger.Valid()
      ensures (ledger.View(), r) == Reserve(old(ledger.View()), itemId, stepId, ctx)
      ensures Leads(old(ledger.View()), ledger.View())
    {
      hide ExecutionCheck, FindStep, StartExecution, Leads;
      ReservingLeads(ledger.View(), itemId, stepId, ctx);
      var loaded := ledger.WorkItemFor(itemId, ctx);
      if loaded.Raised? {
        return Raised(loaded.error);
      }
      var item := loaded.value;
      if item.currentPlan.None? {
        return Raised(WorkflowError(NoCurrentPlan));
      }
      if item.currentPlan.value !in ledger.plans {
        return Raised(NotFound);
      }
      var plan := ledger.plans[item.currentPlan.value];
      var found := ledger.StepIndex(plan.steps, stepId);
      if found.None? {
        return Raised(NotFound);
      }
      var step := plan.steps[found.value];
      var check := ExecutionToolOrError(item, step);
      if check.Raised? {
        return Raised(check.error);
      }
      if check.value.Answer? {
        return Ok(Answered(check.value.reply));
      }
      var token := StartStep(item, plan, found.value);
      return Ok(Granted(Reservation(item.id, plan.id, step.id, step.action, token)));
    }

    /** The writes of a reservation: a fresh token, the step and the item. */
    method StartStep(loaded: WorkItem, loadedPlan: TaskPlan, k: nat) returns (token: Id)
      requires ledger.Valid() && k < |loadedPlan.steps|
      requires loaded.id in ledger.items && loadedPlan.id in ledger.plans
      modifies ledger
      ensures ledger.Valid()
      ensures token == old(ledger.nextId) && ledger.View() == StartExecution(old(ledger.View()), loaded, loadedPlan, k)
    {
      hide FanOut, Keyed;
      var item, plan := loaded, loadedPlan;
      var step := plan.steps[k];
      token := ledger.NewId();
      var now := ledger.clock;
      step := step.(status := Executing, updatedAt := now);
      plan := plan.(steps := plan.steps[k := step]);
      item := item.(status := ItemExecuting);
      item := item.AttachContext(ExecutionToken, TokenText(token), now);
      item := item.AttachContext(ExecutionOutcomeKey, OutcomeText(InFlight), now);
      item := item.AttachContext(ExecutionHeartbeatAt, InstantText(now), now);
      item := item.AttachContext(ExecutionPlanId, UuidText(plan.id), now);
      item := item.AttachContext(ExecutionStepId, UuidText(step.id), now);
      item := item.(updatedAt := now);
      ledger.SaveBoth(plan, item);
      ledger.RecordEvent(item, ExecutionStarted);
      var reservation := Reservation(item.id, plan.id, step.id, step.action, token);
      ledger.NoteAttempt(token, Attempt(reservation, false));
    }

    /** What every holder call loads first. */
    method LoadHeld(reservation: Reservation, ctx: SecurityContext) returns (r: Result<(WorkItem, nat)>)
      ensures r == Held(ledger.View(), reservation, ctx)
    {
      var loaded := ledger.WorkItemFor(reservation.itemId, ctx);
      if loaded.Raised? {
        return Raised(loaded.error);
      }
      if reservation.planId !in ledger.plans {
        return Raised(NotFound);
      }
      var found := ledger.StepIndex(ledger.plans[reservation.planId].steps, reservation.stepId);
      if found.None? {
        return Raised(NotFound);
      }
      return Ok((loaded.value, found.value));
    }

    method RenewExecutionReservation(reservation: Reservation, ctx: SecurityContext) returns (r: Result<bool>)
      requires ledger.Valid()
      modifies ledger
      ensures ledger.Valid()
      ensures (ledger.View(), r) == Renew(old(ledger.View()), reservation, ctx)
      ensures GrantedReservation(old(ledger.View()), reservation) ==> Leads(old(ledger.View()), ledger.View())
    {
      hide Leads;
      HoldingLeads(ledger.View(), reservation, true, ctx);
      var loaded := LoadHeld(reservation, ctx);
      if loaded.Raised? {
        return Raised(loaded.error);
      }
      var item := loaded.value.0;
      var step := ledger.plans[reservation.planId].steps[loaded.value.1];
      if step.status != Executing
         || item.Get(ExecutionOutcomeKey) != Some(OutcomeText(InFlight))
         || !ReservationMatches(item, reservation)
      {
        return Ok(false);
      }
      item := item.AttachContext(ExecutionHeartbeatAt, InstantText(ledger.clock), ledger.clock);
      ledger.SaveWorkItem(item);
      return Ok(true);
    }

    method MarkExecutionOutcomeUnknown(reservation: Reservation, ctx: SecurityContext) returns (r: Result<ToolReply>)
      requires ledger.Valid()
      modifies ledger
      ensures ledger.Valid()
      ensures (ledger.View(), r) == MarkUnknown(old(ledger.View()), reservation, ctx)
      ensures GrantedReservation(old(ledger.View()), reservation) ==> Leads(old(ledger.View()), ledger.View())
    {
      hide Leads;
      HoldingLeads(ledger.View(), reservation, true, ctx);
      var loaded := LoadHeld(reservation, ctx);
      if loaded.Raised? {
        return Raised(loaded.error);
      }
      var item := loaded.value.0;
      var step := ledger.plans[reservation.planId].steps[loaded.value.1];
      if step.status == Executing && ReservationMatches(item, reservation) {
        item := item.(status := ItemAwaitingHuman);
        item := item.AttachContext(ExecutionOutcomeKey, OutcomeText(Unknown), ledger.clock);
        ledger.SaveWorkItem(item);
        ledger.RecordEvent(item, ExecutionOutcomeUnknown);
      }
      return Ok(BlockedReply(OutcomeIsUnknown));
    }

    method FinalizeReservedExecution(reservation: Reservation, success: bool, ctx: SecurityContext)
      returns (r: Result<ToolReply>)
      requires ledger.Valid()
      modifies ledger
      ensures ledger.Valid()
      ensures (ledger.View(), r) == Finalize(old(ledger.View()), reservation, success, ctx)
      ensures GrantedReservation(old(ledger.View()), reservation) ==> Leads(old(ledger.View()), ledger.View())
    {
      hide Held, FindStep, FanOut, Leads;
      HoldingLeads(ledger.View(), reservation, success, ctx);
      var loaded := LoadHeld(reservation, ctx);
      if loaded.Raised? {
        return Raised(loaded.error);
      }
      var item := loaded.value.0;
      var plan := ledger.plans[reservation.planId];
      var step := plan.steps[loaded.value.1];
      if step.status != Executing || !ReservationMatches(item, reservation) {
        return Ok(BlockedReply(ReservationInactive));
      }
      if ledger.config.recordsRuns {
        ledger.AddRun(ExecutionRun(item.id, plan.id, success));
      }
      if success {
        step := step.(status := Executed);
        item := item.(status := ItemResolved);
        item := item.AttachContext(ExecutionOutcomeKey, OutcomeText(ConfirmedSuccess), ledger.clock);
      } else {
        step := step.(status := Failed);
        item := item.(status := ItemFailed);
        item := item.AttachContext(ExecutionOutcomeKey, OutcomeText(ConfirmedFailure), ledger.clock);
      }
      step := step.(updatedAt := ledger.clock);
      item := item.(updatedAt := step.updatedAt);
      plan := plan.(steps := plan.steps[loaded.value.1 := step]);
      ledger.SaveBoth(plan, item);
      ledger.RecordEvent(item, if success then ActionExecuted else ActionFailed);
      return Ok(ToolResponse(success));
    }

    /** The holder calls the tool; the call is only logged. A holder that has called may not
        call again. */
    ghost method LogCall(reservation: Reservation)
      requires ledger.Valid() && GrantedReservation(ledger.View(), reservation)
      requires !ledger.attempts[reservation.token].called
      modifies ledger`attempts, ledger`calls
      ensures ledger.Valid()
      ensures ledger.View() == old(ledger.View()).(
                attempts := old(ledger.attempts)[reservation.token := Attempt(reservation, true)],
                calls := old(ledger.calls) + [reservation])
    {
      ledger.attempts := ledger.attempts[reservation.token := Attempt(reservation, true)];
      ledger.calls := ledger.calls + [reservation];
    }

    /** `ExecutionHeartbeat._run`: renew at every wake-up until told to stop or until a renewal
        is refused; a renewal whose store fails is tried again at the next wake-up. The loop is
        awake `|storeFails|` times before it is told to stop. It renews once at each wake-up,
        in vain only where the store fails, and no more once a renewal is refused. */
    method RunHeartbeat(reservation: Reservation, ctx: SecurityContext, storeFails: seq<bool>)
      returns (refused: bool, woke: nat, renewals: nat, ghost actions: seq<Action>)
      requires ledger.Valid() && Reachable(ledger.View()) && GrantedReservation(ledger.View(), reservation)
      modifies ledger
      ensures ledger.Valid() && ledger.View() == RunFrom(old(ledger.View()), actions)
      ensures woke <= |storeFails| && (refused || woke == |storeFails|)
      ensures multiset(actions)[Renews(reservation.token, ctx)] == Working(storeFails[..woke])
      ensures HolderOf(old(ledger.View()), reservation, ctx) ==>
                renewals == Working(storeFails[..woke]) - if refused then 1 else 0
      ensures refused ==> woke > 0 && !storeFails[woke - 1] && SettledOrUnknown(ledger.View(), reservation)
    {
      hide Inv, Evolves, Apply, Renew, Leads, SettledOrUnknown, RunFrom, HolderOf, Held, Reachable;
      ghost var start := ledger.View();
      ghost var mine := Renews(reservation.token, ctx);
      refused, woke, renewals, actions := false, 0, 0, [];
      RunsNowhere(start);
      while woke < |storeFails|
        invariant ledger.Valid() && ledger.View() == RunFrom(start, actions) && 0 <= woke <= |storeFails|
        invariant multiset(actions)[mine] == Working(storeFails[..woke])
        invariant HolderOf(start, reservation, ctx) ==> renewals == Working(storeFails[..woke])
      {
        ghost var others := ledger.Interfere(mine);
        RunsCompose(start, actions, others);
        actions := actions + others;
        woke := woke + 1;
        assert storeFails[..woke][..woke - 1] == storeFails[..woke - 1];
        if !storeFails[woke - 1] {
          ghost var before := ledger.View();
          GrantAlongRun(start, actions, reservation, ctx);
          var renewed := RenewExecutionReservation(reservation, ctx);
          HolderActions(before, reservation, ctx, true);
          OneMore(start, actions, mine);
          actions := actions + [mine];
          if renewed.Ok? {
            if !renewed.value {
              RefusedIsLost(before, reservation, ctx);
              refused := true;
              return;
            }
            renewals := renewals + 1;
          }
        }
      }
    }

    /** The tool is called outside any transaction: others commit before and after the call. */
    method CallToolAmongOthers(reservation: Reservation, ctx: SecurityContext) returns (ghost actions: seq<Action>)
      requires ledger.Valid() && Reachable(ledger.View()) && GrantedReservation(ledger.View(), reservation)
      requires HolderOf(ledger.View(), reservation, ctx) && !ledger.attempts[reservation.token].called
      modifies ledger
      ensures ledger.Valid() && ledger.View() == RunFrom(old(ledger.View()), actions)
      ensures multiset(actions)[CallsTool(reservation.token)] == 1 && CalledOnce(ledger.calls, reservation)
      ensures Inv(ledger.View()) && GrantedReservation(ledger.View(), reservation)
      ensures Held(ledger.View(), reservation, ctx).Ok?
    {
      hide Inv, Evolves, Apply, Leads, Reachable, RunFrom, Held, CalledOnce, HolderOf;
      ghost var granted := ledger.View();
      ghost var mine := CallsTool(reservation.token);
      ghost var first := ledger.Interfere(mine);
      ghost var asked := ledger.View();
      StillUncalled(granted, first, reservation, ctx);
      LogCall(reservation);
      CallingApplies(asked, reservation.token);
      OneMore(granted, first, mine);
      ghost var called := ledger.View();
      ghost var second := ledger.Interfere(mine);
      RunsCompose(granted, first + [mine], second);
      actions := first + [mine] + second;
      CallerKeepsGrant(granted, asked, first, called, second, reservation, ctx);
    }

    /** What the holder stores of its call: a tool that raises leaves the outcome unknown, and so
        does a verdict that cannot be stored. */
    method StoreOutcome(reservation: Reservation, ctx: SecurityContext, tool: ToolBehaviour, finalizeFails: bool,
                        markFails: bool)
      returns (r: Result<ToolReply>, ghost actions: seq<Action>)
      requires ledger.Valid() && Inv(ledger.View()) && GrantedReservation(ledger.View(), reservation)
      requires Held(ledger.View(), reservation, ctx).Ok?
      modifies ledger
      ensures ledger.Valid() && ledger.View() == RunFrom(old(ledger.View()), actions)
      ensures forall a :: a in actions ==> !a.CallsTool?
      ensures GrantedReservation(ledger.View(), reservation) && ledger.calls == old(ledger.calls)
      ensures !(markFails && (tool == Raises || finalizeFails)) ==> SettledOrUnknown(ledger.View(), reservation)
      ensures AnswersFor(r, tool, finalizeFails, markFails)
      ensures r.Ok? && r.value.ToolResponse? ==>
                && WellPlaced(ledger.View(), reservation)
                && StepStatus(ledger.View(), reservation) == (if r.value.success then Executed else Failed)
                && GotVerdict(old(ledger.View()), ledger.View(), reservation.itemId, r.value.success)
    {
      hide Inv, Apply, MarkUnknown, Finalize, Leads, WellPlaced, StepStatus, HasVerdict, RunFrom, Held, GotVerdict;
      ghost var late := ledger.View();
      actions := [];
      RunsNowhere(late);
      HolderActions(late, reservation, ctx, tool == Succeeds);
      if tool == Raises || finalizeFails {
        if markFails {
          return Raised(StoreFailure), [];
        }
        var marked := MarkExecutionOutcomeUnknown(reservation, ctx);
        actions := [MarksUnknown(reservation.token, ctx)];
        OneMore(late, [], actions[0]);
        assert [] + actions == actions;
        MarkingLeavesUnknown(late, reservation, ctx);
        MarkingAnswers(late, reservation, ctx);
        r := if tool == Raises then marked else Raised(StoreFailure);
      } else {
        r := FinalizeReservedExecution(reservation, tool == Succeeds, ctx);
        actions := [Finalizes(reservation.token, tool == Succeeds, ctx)];
        OneMore(late, [], actions[0]);
        assert [] + actions == actions;
        FinalizingLeavesVerdict(late, reservation, tool == Succeeds, ctx);
        FinalizingGivesTheVerdict(late, reservation, tool == Succeeds, ctx);
        FinalizingAnswers(late, reservation, tool == Succeeds, ctx);
      }
    }

    /** `execute_approved_step`: reserve, call the tool outside any transaction, then store
        the outcome. Other callers, heartbeats included, run between any two transactions;
        storing the outcome or marking it unknown may fail. The method makes only steps of the
        protocol. If it reserved the step, the tool is called exactly once under the
        reservation, by this method; if not, nothing happened. Unless even marking failed, a
        holder leaves a verdict or an outcome marked unknown; and a tool response is the
        verdict on record. */
    method ExecuteApprovedStep(itemId: Id, stepId: Id, ctx: SecurityContext, tool: ToolBehaviour,
                               finalizeFails: bool, markFails: bool)
      returns (r: Result<ToolReply>, ghost reserved: Option<Reservation>, ghost actions: seq<Action>)
      requires ledger.Valid() && Reachable(ledger.View())
      modifies ledger
      ensures ledger.Valid() && ledger.View() == RunFrom(old(ledger.View()), actions)
      ensures Reserve(old(ledger.View()), itemId, stepId, ctx).1
                == (if reserved.Some? then Ok(Granted(reserved.value))
                    else if r.Ok? then Ok(Answered(r.value)) else Raised(r.error))
      ensures reserved.None? ==> actions == [Reserves(itemId, stepId, ctx)] && ledger.View() == old(ledger.View())
      ensures reserved.Some? ==> AnswersFor(r, tool, finalizeFails, markFails)
      ensures reserved.Some? ==>
                && GrantedReservation(ledger.View(), reserved.value) && reserved.value.stepId == stepId
                && reserved.value.token !in old(ledger.attempts)
                && multiset(actions)[CallsTool(reserved.value.token)] == 1
                && CalledOnce(ledger.calls, reserved.value)
      ensures reserved.Some? && !(markFails && (tool == Raises || finalizeFails)) ==>
                SettledOrUnknown(ledger.View(), reserved.value)
      ensures r.Ok? && r.value.ToolResponse? ==>
                && reserved.Some? && WellPlaced(ledger.View(), reserved.value)
                && StepStatus(ledger.View(), reserved.value) == (if r.value.success then Executed else Failed)
                && itemId in ledger.items
                && ledger.items[itemId].status == (if r.value.success then ItemResolved else ItemFailed)
                && ledger.items[itemId].Get(ExecutionOutcomeKey)
                   == Some(OutcomeText(if r.value.success then ConfirmedSuccess else ConfirmedFailure))
    {
      hide Inv, Evolves, Apply, Reserve, Leads, Reachable, WellPlaced, StepStatus, RunFrom, Held, CalledOnce,
           SettledOrUnknown;
      ghost var start := ledger.View();
      reserved := None;
      actions := [Reserves(itemId, stepId, ctx)];
      var reply := ReserveApprovedExecution(itemId, stepId, ctx);
      ReservingRuns(start, itemId, stepId, ctx);
      UngrantedChangesNothing(start, itemId, stepId, ctx);
      if reply.Raised? {
        r := Raised(reply.error);
        return;
      }
      if reply.value.Answered? {
        r := Ok(reply.value.reply);
        return;
      }
      var reservation := reply.value.reservation;
      GrantFacts(start, ledger.View(), itemId, stepId, ctx);
      ghost var calling := CallToolAmongOthers(reservation, ctx);
      RunsCompose(start, actions, calling);
      ghost var storing;
      r, storing := StoreOutcome(reservation, ctx, tool, finalizeFails, markFails);
      RunsCompose(start, actions + calling, storing);
      assert CallsTool(reservation.token) !in actions && CallsTool(reservation.token) !in storing;
      actions := actions + calling + storing;
      reserved := Some(reservation);
    }
  }

  /** What a caller whose request was granted is told: that the outcome is unknown if the tool
      raised, the store's own failure if that kept the outcome from being stored, and otherwise
      the tool's response, unless the execution was settled in the meantime. */
  predicate AnswersFor(r: Result<ToolReply>, tool: ToolBehaviour, finalizeFails: bool, markFails: bool) {
    if tool == Raises then r == if markFails then Raised(StoreFailure) else Ok(BlockedReply(OutcomeIsUnknown))
    else if finalizeFails then r == Raised(StoreFailure)
    else r == Ok(ToolResponse(tool == Succeeds)) || r == Ok(BlockedReply(ReservationInactive))
  }

  lemma {:induction false} FinalizingAnswers(s: State, r: Reservation, success: bool, ctx: SecurityContext)
    requires Held(s, r, ctx).Ok?
    ensures var reply := Finalize(s, r, success, ctx).1;
            reply == Ok(ToolResponse(success)) || reply == Ok(BlockedReply(ReservationInactive))
  {
  }

  lemma {:induction false} MarkingAnswers(s: State, r: Reservation, ctx: SecurityContext)
    requires Held(s, r, ctx).Ok?
    ensures MarkUnknown(s, r, ctx).1 == Ok(BlockedReply(OutcomeIsUnknown))
  {
  }

  /** How many of the renewals meet a store that works. */
  function Working(storeFails: seq<bool>): nat {
    if storeFails == [] then 0
    else Working(storeFails[..|storeFails| - 1]) + if storeFails[|storeFails| - 1] then 0 else 1
  }

  /** Exactly one entry of the log was made under the reservation. */
  ghost predicate CalledOnce(calls: seq<Reservation>, r: Reservation) {
    exists n :: 0 <= n < |calls| && calls[n] == r
                && forall m :: 0 <= m < |calls| && calls[m].token == r.token ==> m == n
  }

  /** The reservation's item belongs to the workspace of the caller. */
  predicate HolderOf(s: State, r: Reservation, ctx: SecurityContext) {
    r.itemId in s.items && s.items[r.itemId].workspace == ctx.workspace
  }

  /** Along any run a granted reservation stays granted; its holder can be refused a renewal
      but not meet an error. */
  lemma {:induction false} GrantAlongRun(start: State, actions: seq<Action>, r: Reservation, ctx: SecurityContext)
    requires Reachable(start) && GrantedReservation(start, r)
    ensures var s := RunFrom(start, actions);
            && Inv(s) && GrantedReservation(s, r)
            && (HolderOf(start, r, ctx) ==> Renew(s, r, ctx).1.Ok?)
  {
    hide Inv, Evolves, Apply, RunFrom, SettledOrUnknown;
    var s := RunFrom(start, actions);
    ReachableInv(start);
    RunKeepsInv(start, actions);
    EvolvedGrant(start, s, r);
    if HolderOf(start, r, ctx) {
      GrantPersists(start, s, r, ctx);
      RenewsUnlessLost(s, r, ctx);
    }
  }

  lemma {:induction false} ReservingRuns(s: State, itemId: Id, stepId: Id, ctx: SecurityContext)
    ensures RunFrom(s, [Reserves(itemId, stepId, ctx)]) == Reserve(s, itemId, stepId, ctx).0
  {
    hide Reserve, Apply;
    ReservingApplies(s, itemId, stepId, ctx);
    OneMore(s, [], Reserves(itemId, stepId, ctx));
    assert [] + [Reserves(itemId, stepId, ctx)] == [Reserves(itemId, stepId, ctx)];
  }

  /** A holder that has not called the tool yet finds itself in that position, whatever the
      others did. */
  lemma {:induction false} StillUncalled(granted: State, others: seq<Action>, r: Reservation, ctx: SecurityContext)
    requires Reachable(granted) && GrantedReservation(granted, r) && !granted.attempts[r.token].called
    requires CallsTool(r.token) !in others
    ensures var asked := RunFrom(granted, others);
            GrantedReservation(asked, r) && asked.attempts[r.token] == Attempt(r, false)
  {
    hide Inv, Reachable, RunFrom;
    ReachableInv(granted);
    OthersLeaveUncalled(granted, others, r.token);
  }

  lemma {:induction false} GrantFacts(s: State, t: State, itemId: Id, stepId: Id, ctx: SecurityContext)
    requires Reachable(s) && Reserve(s, itemId, stepId, ctx).1.Ok? && Reserve(s, itemId, stepId, ctx).1.value.Granted?
    requires t == Reserve(s, itemId, stepId, ctx).0
    ensures var r := Reserve(s, itemId, stepId, ctx).1.value.reservation;
            && GrantedReservation(t, r) && r.stepId == stepId && r.itemId == itemId && r.token !in s.attempts
            && itemId in t.items && t.items[itemId].workspace == ctx.workspace
            && !t.attempts[r.token].called
    ensures Reachable(t)
  {
    hide Evolves, Reserve, Leads, Reachable, Inv;
    LeadsToItself(s);
    ReservingLeads(s, itemId, stepId, ctx);
    LeadsReachably(s, t);
    FreshReservation(s, itemId, stepId, ctx);
    ReservingNotes(s, itemId, stepId, ctx);
  }

  lemma {:induction false} FreshReservation(s: State, itemId: Id, stepId: Id, ctx: SecurityContext)
    requires Inv(s) && Reserve(s, itemId, stepId, ctx).1.Ok? && Reserve(s, itemId, stepId, ctx).1.value.Granted?
    ensures var (t, reply) := Reserve(s, itemId, stepId, ctx);
            var r := reply.value.reservation;
            && GrantedReservation(t, r) && r.stepId == stepId && r.itemId == itemId && r.token !in s.attempts
            && itemId in t.items && t.items[itemId].workspace == ctx.workspace
  {
    hide Reserve;
    Starting.FreshToken(s);
    ReservationIsGranted(s, itemId, stepId, ctx);
  }

  /** After the call and whatever the others did then, the holder still holds its
      reservation, and the log has the one call. */
  lemma {:induction false} CallerKeepsGrant(granted: State, asked: State, first: seq<Action>, called: State,
                                            second: seq<Action>, r: Reservation, ctx: SecurityContext)
    requires Reachable(granted) && GrantedReservation(granted, r) && HolderOf(granted, r, ctx)
    requires asked == RunFrom(granted, first) && GrantedReservation(asked, r) && !asked.attempts[r.token].called
    requires called == Starting.CallTool(asked, r.token)
    ensures var late := RunFrom(called, second);
            Inv(late) && GrantedReservation(late, r) && Held(late, r, ctx).Ok? && CalledOnce(late.calls, r)
  {
    hide Inv, Evolves, Reachable, RunFrom, Apply, CalledOnce;
    var late := RunFrom(called, second);
    CallingApplies(asked, r.token);
    OneMore(granted, first, CallsTool(r.token));
    RunsCompose(granted, first + [CallsTool(r.token)], second);
    ReachableRuns(granted, first + [CallsTool(r.token)] + second);
    ReachableInv(granted);
    ReachableInv(late);
    RunKeepsInv(granted, first + [CallsTool(r.token)] + second);
    GrantPersists(granted, late, r, ctx);
    RunKeepsInv(granted, first + [CallsTool(r.token)]);
    RunKeepsInv(called, second);
    OneCallRemains(asked, late, r);
  }

  lemma {:induction false} OneCallRemains(asked: State, late: State, r: Reservation)
    requires GrantedReservation(asked, r) && !asked.attempts[r.token].called
    requires Evolves(Starting.CallTool(asked, r.token), late) && Inv(late)
    ensures CalledOnce(late.calls, r)
  {
    assert late.calls[|asked.calls|] == r;
  }

  /** A request that is not granted a reservation leaves the state as it was. */
  lemma {:induction false} UngrantedChangesNothing(s: State, itemId: Id, stepId: Id, ctx: SecurityContext)
    ensures var (t, reply) := Reserve(s, itemId, stepId, ctx);
            && (reply.Raised? || reply.value.Answered? ==> t == s)
            && (reply.Ok? && reply.value.Answered? ==> !reply.value.reply.ToolResponse?)
  {
  }

  /** What a holder does leaves its reservation granted; marking always answers alike. */
  lemma {:induction false} HolderActions(s: State, r: Reservation, ctx: SecurityContext, success: bool)
    requires GrantedReservation(s, r)
    ensures Apply(s, Renews(r.token, ctx)) == Renew(s, r, ctx).0
    ensures Apply(s, MarksUnknown(r.token, ctx)) == MarkUnknown(s, r, ctx).0
    ensures Apply(s, Finalizes(r.token, success, ctx)) == Finalize(s, r, success, ctx).0
    ensures MarkUnknown(s, r, ctx).1.Ok? ==> MarkUnknown(s, r, ctx).1.value == BlockedReply(OutcomeIsUnknown)
    ensures MarkUnknown(s, r, ctx).0.attempts == s.attempts && Finalize(s, r, success, ctx).0.attempts == s.attempts
    ensures MarkUnknown(s, r, ctx).0.calls == s.calls && Finalize(s, r, success, ctx).0.calls == s.calls
    ensures GrantedReservation(MarkUnknown(s, r, ctx).0, r) && GrantedReservation(Finalize(s, r, success, ctx).0, r)
  {
    hide FanOut, Held, FindStep, Apply, Renew;
    HolderApplies(s, r, success, ctx);
  }

  lemma {:induction false} RefusedIsLost(s: State, r: Reservation, ctx: SecurityContext)
    requires Inv(s) && GrantedReservation(s, r) && Renew(s, r, ctx).1 == Ok(false)
    ensures SettledOrUnknown(Renew(s, r, ctx).0, r)
  {
    RenewsUnlessLost(s, r, ctx);
  }
}
