/** Which states can follow which: every transaction of the services is a step of a run. */
module Continuations {
  import opened Basics
  import opened Models
  import opened Protocol
  import opened Invariant
  import opened QuietOperations
  import opened Evolution
  import opened Runs

  /** Some run leads from one state to the other. */
  ghost predicate Leads(s: State, t: State) {
    exists actions :: t == RunFrom(s, actions)
  }

  lemma {:induction false} LeadsToItself(s: State)
    ensures Leads(s, s)
  {
    assert s == RunFrom(s, []);
  }

  lemma {:induction false} LeadsOn(s: State, t: State, u: State)
    requires Leads(s, t) && Leads(t, u)
    ensures Leads(s, u)
  {
    var first :| t == RunFrom(s, first);
    var second :| u == RunFrom(t, second);
    RunsCompose(s, first, second);
  }

  lemma {:induction false} LeadsByAction(s: State, t: State, a: Action)
    requires Leads(s, t)
    ensures Leads(s, Apply(t, a))
  {
    assert [a][..0] == [];
    assert Apply(t, a) == RunFrom(t, [a]);
    LeadsOn(s, t, Apply(t, a));
  }

  lemma {:induction false} LeadsReachably(s: State, t: State)
    requires Reachable(s) && Leads(s, t)
    ensures Reachable(t) && Inv(s) && Inv(t) && Evolves(s, t)
  {
    var actions :| t == RunFrom(s, actions);
    ReachableRuns(s, actions);
    ReachableInv(s);
    RunKeepsInv(s, actions);
  }

  // ------------------------------------------------------------ each transaction is a step

  lemma {:induction false} ReservingLeads(s: State, itemId: Id, stepId: Id, ctx: SecurityContext)
    ensures Leads(s, Reserve(s, itemId, stepId, ctx).0)
  {
    hide Reserve;
    LeadsToItself(s);
    LeadsByAction(s, s, Reserves(itemId, stepId, ctx));
  }

  lemma {:induction false} ReconcilingLeads(s: State, itemId: Id, stepId: Id, ctx: SecurityContext, succeeded: bool,
                                            summary: string)
    ensures Leads(s, Reconcile(s, itemId, stepId, ctx, succeeded, summary).0)
  {
    hide Reconcile;
    LeadsToItself(s);
    LeadsByAction(s, s, Reconciles(itemId, stepId, ctx, succeeded, summary));
  }

  lemma {:induction false} PlanningLeads(s: State, itemId: Id, ctx: SecurityContext, inputs: PlanningInput,
                                         classified: WorkType, key: Option<string>)
    ensures Leads(s, PlanItem(s, itemId, ctx, inputs, classified, key).0)
  {
    hide PlanItem;
    LeadsToItself(s);
    LeadsByAction(s, s, PlansItem(itemId, ctx, inputs, classified, key));
  }

  lemma {:induction false} RegeneratingLeads(s: State, itemId: Id, draftId: Id, ctx: SecurityContext)
    ensures Leads(s, RegenerateDraft(s, itemId, draftId, ctx).0)
  {
    hide RegenerateDraft;
    LeadsToItself(s);
    LeadsByAction(s, s, RegeneratesDraft(itemId, draftId, ctx));
  }

  lemma {:induction false} ApprovingLeads(s: State, approvalId: Id, ctx: SecurityContext, notes: Option<string>)
    ensures Leads(s, Approve(s, approvalId, ctx, notes).0)
  {
    hide Approve;
    LeadsToItself(s);
    LeadsByAction(s, s, Approves(approvalId, ctx, notes));
  }

  lemma {:induction false} RejectingLeads(s: State, approvalId: Id, ctx: SecurityContext, notes: Option<string>)
    ensures Leads(s, Reject(s, approvalId, ctx, notes).0)
  {
    hide Reject;
    LeadsToItself(s);
    LeadsByAction(s, s, Rejects(approvalId, ctx, notes));
  }

  lemma {:induction false} CreatingLeads(s: State, ctx: SecurityContext, title: string, workType: Option<WorkType>,
                                         documents: seq<Id>, outcome: string, key: Option<string>)
    ensures Leads(s, CreateItem(s, ctx, title, workType, documents, RouteContext(outcome), key).0)
  {
    hide CreateItem;
    LeadsToItself(s);
    LeadsByAction(s, s, CreatesItem(ctx, title, workType, documents, outcome, key));
  }

  /** The context is one that the routes create items with. */
  predicate FromRoute(context: map<ContextKey, ContextValue>) {
    RequestedOutcome in context && context[RequestedOutcome].Text?
    && context == RouteContext(context[RequestedOutcome].text)
  }

  lemma {:induction false} CreatingByRouteLeads(s: State, ctx: SecurityContext, title: string,
                                                workType: Option<WorkType>, documents: seq<Id>,
                                                context: map<ContextKey, ContextValue>, key: Option<string>)
    ensures FromRoute(context) ==> Leads(s, CreateItem(s, ctx, title, workType, documents, context, key).0)
  {
    hide CreateItem;
    if FromRoute(context) {
      CreatingLeads(s, ctx, title, workType, documents, context[RequestedOutcome].text, key);
    }
  }

  lemma {:induction false} UpdatingLeads(s: State, itemId: Id, ctx: SecurityContext, title: Option<string>,
                                         priority: Option<WorkItemPriority>, assignee: Option<string>,
                                         requestedOutcome: Option<string>, tags: Option<seq<string>>)
    ensures Leads(s, UpdateItem(s, itemId, ctx, title, priority, assignee, requestedOutcome, tags).0)
  {
    hide UpdateItem;
    LeadsToItself(s);
    LeadsByAction(s, s, EditsItem(itemId, ctx, title, priority, assignee, requestedOutcome, tags));
  }

  lemma {:induction false} AskingLeads(s: State, itemId: Id, ctx: SecurityContext, notes: string)
    ensures Leads(s, RequestCorrection(s, itemId, ctx, notes).0)
  {
    hide RequestCorrection;
    LeadsToItself(s);
    LeadsByAction(s, s, AsksCorrection(itemId, ctx, notes));
  }

  lemma {:induction false} SubmittingLeads(s: State, itemId: Id, ctx: SecurityContext, changes: string)
    ensures Leads(s, SubmitCorrection(s, itemId, ctx, changes).0)
  {
    hide SubmitCorrection;
    LeadsToItself(s);
    LeadsByAction(s, s, SubmitsCorrection(itemId, ctx, changes));
  }

  lemma {:induction false} EscalatingLeads(s: State, itemId: Id, ctx: SecurityContext)
    ensures Leads(s, Escalate(s, itemId, ctx).0)
  {
    hide Escalate;
    LeadsToItself(s);
    LeadsByAction(s, s, EscalatesItem(itemId, ctx));
  }

  /** A holder's calls are steps, at whatever time they come. */
  lemma {:induction false} HoldingLeads(s: State, r: Reservation, success: bool, ctx: SecurityContext)
    ensures GrantedReservation(s, r) ==>
              && Leads(s, Renew(s, r, ctx).0)
              && Leads(s, MarkUnknown(s, r, ctx).0)
              && Leads(s, Finalize(s, r, success, ctx).0)
  {
    hide Renew, MarkUnknown, Finalize, Apply, Leads;
    if GrantedReservation(s, r) {
      HolderApplies(s, r, success, ctx);
      LeadsToItself(s);
      LeadsByAction(s, s, Renews(r.token, ctx));
      LeadsByAction(s, s, MarksUnknown(r.token, ctx));
      LeadsByAction(s, s, Finalizes(r.token, success, ctx));
    }
  }
}
