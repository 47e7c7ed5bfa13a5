/** What holds of the invoice when a guarded export is called. The guard is asked when the step
    is reserved and not again, and another route may export the document in between. */
module ExportGuarantees {
  import opened Basics
  import opened Documents
  import opened Models
  import opened Protocol
  import opened Invariant
  import opened Evolution
  import opened Runs
  import opened ExecutionGuarantees
  import opened Frames
  import opened ReservationGuarantees
  import Planner
  import Starting

  // ------------------------------------------------------------ the exact condition

  lemma {:induction false} ItemStays(s: State, t: State, i: Id)
    requires Evolves(s, t) && i in s.items
    ensures i in t.items && ItemEvolves(s.items[i], t.items[i]) && t.config == s.config
  {
  }

  /** When a guarded export is called, the first linked document is the one that was approved
      when the step was reserved. It is still approved if and only if no action between the two
      exported it; otherwise it is exported already. */
  lemma {:induction false} ExportIsCalledWhileApprovedIff(start: State, actions: seq<Action>, n: nat, c: nat,
                                                          r: Reservation)
    requires Initial(start) && ReservedBy(start, actions, n, r) && CalledBy(start, actions, c, r)
    requires r.tool == ExportApprovedInvoice && start.config.guardsExports
    ensures n < c
    ensures var reserving, calling := RunFrom(start, actions[..n]), RunFrom(start, actions[..c]);
            && r.itemId in reserving.items && ExportReady(reserving, reserving.items[r.itemId])
            && r.itemId in calling.items
            && var item := calling.items[r.itemId];
               && item.linkedDocuments == reserving.items[r.itemId].linkedDocuments
               && item.workspace == reserving.items[r.itemId].workspace
               && var d := item.linkedDocuments[0];
                  && d in calling.documents && calling.documents[d].workspace == item.workspace
                  && (ExportReady(calling, item) <==> DocumentMoves(d, DocumentExported) !in actions[n..c])
                  && (!ExportReady(calling, item) <==> calling.documents[d].status == DocumentExported)
  {
    hide Inv, Evolves, Apply, Reserve, Reachable, GrantedFor;
    ReservedBeforeCalled(start, actions, n, c, r);
    var reserving, calling := RunFrom(start, actions[..n]), RunFrom(start, actions[..c]);
    ReachedFrom(start, actions[..n]);
    InitialInv(start);
    RunKeepsInv(start, actions[..n]);
    ConfigStays(start, reserving);
    ReservationSaw(reserving, actions[n].itemId, actions[n].stepId, actions[n].ctx, r);
    RunSplits(start, actions, n, c);
    RunKeepsInv(reserving, actions[n..c]);
    ItemStays(reserving, calling, r.itemId);
    ApprovedUntilExported(reserving, actions[n..c], reserving.items[r.itemId].linkedDocuments[0]);
  }

  lemma {:induction false} ConfigStays(s: State, t: State)
    requires Evolves(s, t)
    ensures t.config == s.config
  {
  }

  // ------------------------------------------------------------ the condition can fail

  /** Whenever a guarded export may be reserved, this can happen to it: the step is reserved,
      the document is exported elsewhere, and the holder calls the tool all the same. */
  lemma {:induction false} ReadyExportMayComeLate(s: State, itemId: Id, p: Id, k: nat, ctx: SecurityContext)
    requires Reachable(s) && RunnableAt(s, itemId, p, k) && s.plans[p].steps[k].action == ExportApprovedInvoice
    requires s.config.guardsExports && s.items[itemId].workspace == ctx.workspace
    ensures var stepId, d := s.plans[p].steps[k].id, s.items[itemId].linkedDocuments[0];
            var late := RunFrom(s, [Reserves(itemId, stepId, ctx), DocumentMoves(d, DocumentExported),
                                    CallsTool(s.nextId)]);
            && |late.calls| == |s.calls| + 1
            && late.calls[|s.calls|].itemId == itemId && late.calls[|s.calls|].stepId == stepId
            && late.calls[|s.calls|].tool == ExportApprovedInvoice
            && d in late.documents && late.documents[d].status == DocumentExported
  {
    hide Reachable, Inv, Reserve, GrantedFor, Apply, Planner.Started;
    var stepId, d := s.plans[p].steps[k].id, s.items[itemId].linkedDocuments[0];
    var reserve, move, call := Reserves(itemId, stepId, ctx), DocumentMoves(d, DocumentExported), CallsTool(s.nextId);
    ThreeActions(s, reserve, move, call);
    ReservationGrantedIff(s, itemId, stepId, ctx);
    GrantedIsFor(s, itemId, p, k, ctx);
    ReservingApplies(s, itemId, stepId, ctx);
    ReservingNotes(s, itemId, stepId, ctx);
    var reserved := Apply(s, reserve);
    MovingApplies(reserved, move);
    CallingApplies(Apply(reserved, move), s.nextId);
  }

  lemma {:induction false} ThreeActions(s: State, a: Action, b: Action, c: Action)
    ensures RunFrom(s, [a, b, c]) == Apply(Apply(Apply(s, a), b), c)
  {
    hide Apply;
    OneMore(s, [], a);
    OneMore(s, [a], b);
    OneMore(s, [a, b], c);
    assert [] + [a] == [a] && [a] + [b] == [a, b] && [a, b] + [c] == [a, b, c];
  }

  lemma {:induction false} GrantedIsFor(s: State, itemId: Id, p: Id, k: nat, ctx: SecurityContext)
    requires Reachable(s) && RunnableAt(s, itemId, p, k)
    ensures var reply := Reserve(s, itemId, s.plans[p].steps[k].id, ctx).1;
            reply.Ok? && reply.value.Granted? ==>
              && reply.value.reservation.itemId == itemId
              && reply.value.reservation.stepId == s.plans[p].steps[k].id
              && reply.value.reservation.tool == s.plans[p].steps[k].action
  {
    hide Reachable, Inv, ExecutionCheck, GrantedFor, FindStep;
    ReachableInv(s);
    InvParts(s);
    StepIsFound(s, p, k, s.plans[p].steps[k].id);
  }

  // ------------------------------------------------------------ one such run from an empty store

  const CLERK := SecurityContext("clerk", true, "acme", Admin)

  function EmptyStore(): State {
    State(Config(false, true, true, false), map[], [], map[], [], [], [], map[], [], [], 0, 0, map[], [])
  }

  /** An invoice is uploaded, processed and approved. */
  const INTAKE: seq<Action> :=
    [DocumentArrives(7, "acme"), DocumentMoves(7, DocumentQueued), DocumentMoves(7, DocumentProcessing),
     DocumentMoves(7, DocumentExtracted), DocumentMoves(7, DocumentApproved)]

  /** An item asks for its export; the export is planned and approved. */
  const CREATION := CreatesItem(CLERK, "Export", Some(InvoiceExport), [7], "export", None)
  const PLANNING := PlansItem(0, CLERK, PlanningInput(None, true, true, [], Some(7)), InvoiceExport, None)
  const APPROVAL := Approves(7, CLERK, None)

  lemma {:induction false} IntakeApproves()
    ensures RunFrom(EmptyStore(), INTAKE) == EmptyStore().(documents := map[7 := Document("acme", DocumentApproved)])
  {
    hide Apply;
    var s := EmptyStore();
    ThreeActions(s, INTAKE[0], INTAKE[1], INTAKE[2]);
    OneMore(s, INTAKE[..3], INTAKE[3]);
    OneMore(s, INTAKE[..4], INTAKE[4]);
    assert INTAKE[..3] == [INTAKE[0], INTAKE[1], INTAKE[2]];
    assert INTAKE[..3] + [INTAKE[3]] == INTAKE[..4] && INTAKE[..4] + [INTAKE[4]] == INTAKE;
    MovingApplies(s, INTAKE[0]);
    var arrived := Apply(s, INTAKE[0]);
    MovingApplies(arrived, INTAKE[1]);
    var queued := Apply(arrived, INTAKE[1]);
    MovingApplies(queued, INTAKE[2]);
    var processing := Apply(queued, INTAKE[2]);
    MovingApplies(processing, INTAKE[3]);
    MovingApplies(Apply(processing, INTAKE[3]), INTAKE[4]);
  }

  function Request(): WorkItem {
    WorkItem(0, "acme", "Export", Some(InvoiceExport), Normal, ItemClassified, [7], RouteContext("export"), None, None,
             None, 0)
  }

  lemma {:induction false} CreationStores(s: State)
    requires !s.config.recordsEvents && s.items == map[] && s.itemOrder == [] && s.nextId == 0 && s.clock == 0
    ensures Apply(s, CREATION) == s.(items := map[0 := Request()], itemOrder := [0], nextId := 1)
  {
    hide PlanItem, Reserve, Renew, MarkUnknown, Finalize, Reconcile, UpdateItem, RequestCorrection, SubmitCorrection,
         Escalate, RegenerateDraft, Approve, Reject, Starting.CallTool;
    assert s.events + [] == s.events;
  }

  /** The plan has two steps; the export is the second and waits for the approval with
      identifier 7. */
  ghost predicate ExportPlanned(s: State, t: State, status: ApprovalStatus) {
    && t.config == s.config && t.documents == s.documents && t.items.Keys == {0} && 1 in t.plans
    && t.items[0].workspace == "acme" && t.items[0].linkedDocuments == [7] && t.items[0].currentPlan == Some(1)
    && t.items[0].id == 0
    && |t.plans[1].steps| == 2 && t.plans[1].steps[1].id == 3 && t.plans[1].steps[1].action == ExportApprovedInvoice
    && t.plans[1].steps[1].status == WaitingForApproval
    && |t.approvals| == 1 && t.approvals[0].id == 7 && t.approvals[0].workspace == "acme" && t.approvals[0].itemId == 0
    && t.approvals[0].stepId == 3 && t.approvals[0].status == status
  }

  function ExportSteps(): seq<ActionStep> {
    Planner.Steps(Request(), CLERK, PLANNING.inputs, InvoiceExport, 2, 0)
  }

  lemma {:induction false} ExportStepsWait()
    ensures |ExportSteps()| == 2 && ExportSteps()[1].id == 3 && ExportSteps()[1].action == ExportApprovedInvoice
    ensures ExportSteps()[1].status == WaitingForApproval
    ensures ApprovalRows(Request(), ExportSteps(), 4) == [Approval(7, "acme", 0, 3, Pending, None, None, None)]
  {
    hide Planner.PolicyStep;
    var steps := ExportSteps();
    Planner.PolicyStepFacts(Request(), 2, InspectQueue, CLERK, true, 0);
    Planner.PolicyStepFacts(Request(), 3, ExportApprovedInvoice, CLERK, true, 0);
    assert steps[..1] == [steps[0]] && steps[..1][..0] == [];
    assert ApprovalRows(Request(), steps[..1], 4) == [];
  }

  lemma {:induction false} PlanningAdds(s: State)
    requires s.items == map[0 := Request()] && s.nextId == 1 && s.clock == 0
    ensures Apply(s, PLANNING) == StorePlan(s, Request(), InvoiceExport, ExportSteps(), false, None, None)
  {
    hide CreateItem, Reserve, Renew, MarkUnknown, Finalize, Reconcile, UpdateItem, RequestCorrection, SubmitCorrection,
         Escalate, RegenerateDraft, Approve, Reject, Starting.CallTool, StorePlan, StoredReply, Planner.Steps,
         FindPlanByKey;
  }

  lemma {:induction false} PlanningStores(s: State)
    requires s.items == map[0 := Request()] && s.nextId == 1 && s.approvals == [] && s.clock == 0
    ensures ExportPlanned(s, Apply(s, PLANNING), Pending)
  {
    hide Apply, ExportSteps, FanOut, StepEvents, DraftRows, ApprovalRows;
    ExportStepsWait();
    PlanningAdds(s);
  }

  lemma {:induction false} ApprovalGrants(s: State, t: State)
    requires ExportPlanned(s, t, Pending) && !t.config.recordsEvents
    ensures ExportPlanned(s, Apply(t, APPROVAL), Approved)
  {
    hide CreateItem, PlanItem, Reserve, Renew, MarkUnknown, Finalize, Reconcile, UpdateItem, RequestCorrection,
         SubmitCorrection, Escalate, RegenerateDraft, Reject, Starting.CallTool;
    assert FindApproval(t.approvals[..0], 7) == None;
  }

  function SetUp(): seq<Action> {
    INTAKE + [CREATION] + [PLANNING] + [APPROVAL]
  }

  /** After these actions the export may be reserved. */
  lemma {:induction false} SetUpIsRunnable()
    ensures var s := RunFrom(EmptyStore(), SetUp());
            && 0 in s.items && RunnableAt(s, 0, 1, 1) && s.plans[1].steps[1].id == 3 && s.config == EmptyStore().config
            && s.plans[1].steps[1].action == ExportApprovedInvoice
            && s.items[0].workspace == "acme" && s.items[0].linkedDocuments == [7]
  {
    hide Apply;
    IntakeApproves();
    var taken := RunFrom(EmptyStore(), INTAKE);
    CreationStores(taken);
    var created := Apply(taken, CREATION);
    OneMore(EmptyStore(), INTAKE, CREATION);
    PlanningStores(created);
    var planned := Apply(created, PLANNING);
    OneMore(EmptyStore(), INTAKE + [CREATION], PLANNING);
    ApprovalGrants(created, planned);
    var granted := Apply(planned, APPROVAL);
    OneMore(EmptyStore(), INTAKE + [CREATION] + [PLANNING], APPROVAL);
    assert granted.approvals[0].stepId == 3 && granted.approvals[0].status == Approved;
  }

  /** The clerk's request reserves the export, another route exports the invoice, and the
      holder calls the tool for an invoice that is exported already. */
  lemma {:induction false} CalledForAnExportedInvoice() returns (actions: seq<Action>)
    ensures Initial(EmptyStore()) && EmptyStore().config.guardsExports
    ensures var s := RunFrom(EmptyStore(), actions);
            && s.calls != [] && s.calls[|s.calls| - 1].tool == ExportApprovedInvoice
            && s.calls[|s.calls| - 1].itemId in s.items
            && s.items[s.calls[|s.calls| - 1].itemId].linkedDocuments == [7]
            && 7 in s.documents && s.documents[7].status == DocumentExported
  {
    hide Apply, SetUp, RunnableAt, Reachable, Inv, Evolves;
    var s := RunFrom(EmptyStore(), SetUp());
    SetUpIsRunnable();
    ReachedFrom(EmptyStore(), SetUp());
    var late := [Reserves(0, 3, CLERK), DocumentMoves(7, DocumentExported), CallsTool(s.nextId)];
    ReadyExportMayComeLate(s, 0, 1, 1, CLERK);
    actions := SetUp() + late;
    RunsCompose(EmptyStore(), SetUp(), late);
    ReachableInv(s);
    RunKeepsInv(s, late);
    ItemStays(s, RunFrom(s, late), 0);
  }
}
