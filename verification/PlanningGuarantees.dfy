/** Idempotent planning over whole runs. */
module PlanningGuarantees {
  import opened Basics
  import opened Models
  import opened Protocol
  import opened RequestIdentity
  import opened Invariant
  import opened Evolution
  import opened Runs
  import Planner
  import Creation

  // ------------------------------------------------------------ listings

  lemma {:induction false} ApprovalIdsAppend(a: seq<Approval>, b: seq<Approval>)
    ensures ApprovalIds(a + b) == ApprovalIds(a) + ApprovalIds(b)
  {
    if b == [] {
      assert a + b == a;
    } else {
      ApprovalIdsAppend(a, b[..|b| - 1]);
      assert (a + b)[..|a + b| - 1] == a + b[..|b| - 1];
    }
  }

  lemma {:induction false} ApprovalsOfAppend(a: seq<Approval>, b: seq<Approval>, workspace: string, i: Id,
                                             steps: seq<ActionStep>)
    ensures ApprovalsOf(a + b, workspace, i, steps) == ApprovalsOf(a, workspace, i, steps)
              + ApprovalsOf(b, workspace, i, steps)
  {
    if b == [] {
      assert a + b == a;
    } else {
      ApprovalsOfAppend(a, b[..|b| - 1], workspace, i, steps);
      assert (a + b)[..|a + b| - 1] == a + b[..|b| - 1];
    }
  }

  lemma {:induction false} ApprovalsOfNone(a: seq<Approval>, workspace: string, i: Id, steps: seq<ActionStep>)
    requires forall n :: 0 <= n < |a| ==> FindStep(steps, a[n].stepId).None?
    ensures ApprovalsOf(a, workspace, i, steps) == []
  {
    if a != [] {
      ApprovalsOfNone(a[..|a| - 1], workspace, i, steps);
    }
  }

  lemma {:induction false} ApprovalsOfAll(a: seq<Approval>, workspace: string, i: Id, steps: seq<ActionStep>)
    requires forall approval :: approval in a ==>
               approval.workspace == workspace && approval.itemId == i && FindStep(steps, approval.stepId).Some?
    ensures ApprovalsOf(a, workspace, i, steps) == a
  {
    if a != [] {
      ApprovalsOfAll(a[..|a| - 1], workspace, i, steps);
      assert a[|a| - 1] in a;
    }
  }

  /** Decisions on approvals change no listing. */
  lemma {:induction false} SameListing(a: seq<Approval>, b: seq<Approval>, workspace: string, i: Id,
                                       steps: seq<ActionStep>, later: seq<ActionStep>)
    requires |a| == |b| && forall n :: 0 <= n < |a| ==> SameRequest(a[n], b[n])
    requires forall id :: FindStep(steps, id) == FindStep(later, id)
    ensures ApprovalIds(ApprovalsOf(a, workspace, i, steps)) == ApprovalIds(ApprovalsOf(b, workspace, i, later))
  {
    if a != [] {
      var n := |a| - 1;
      SameListing(a[..n], b[..n], workspace, i, steps, later);
      assert SameRequest(a[n], b[n]);
      var x, y := ApprovalsOf(a[..n], workspace, i, steps), ApprovalsOf(b[..n], workspace, i, later);
      assert FindStep(steps, a[n].stepId) == FindStep(later, b[n].stepId);
      if a[n].workspace == workspace && a[n].itemId == i && FindStep(steps, a[n].stepId).Some? {
        ApprovalIdsAppend(x, [a[n]]);
        ApprovalIdsAppend(y, [b[n]]);
        assert ApprovalIds([a[n]]) == [a[n].id] && ApprovalIds([b[n]]) == [b[n].id];
      } else {
        assert x + [] == x && y + [] == y;
      }
    }
  }

  lemma {:induction false} DraftIdsAppend(a: seq<ActionDraft>, b: seq<ActionDraft>)
    ensures DraftIds(a + b) == DraftIds(a) + DraftIds(b)
  {
    if b == [] {
      assert a + b == a;
    } else {
      DraftIdsAppend(a, b[..|b| - 1]);
      assert (a + b)[..|a + b| - 1] == a + b[..|b| - 1];
    }
  }

  lemma {:induction false} DraftsOfAppend(a: seq<ActionDraft>, b: seq<ActionDraft>, workspace: string, i: Id,
                                          steps: seq<ActionStep>)
    ensures DraftsOf(a + b, workspace, i, steps) == DraftsOf(a, workspace, i, steps) + DraftsOf(b, workspace, i, steps)
  {
    if b == [] {
      assert a + b == a;
    } else {
      DraftsOfAppend(a, b[..|b| - 1], workspace, i, steps);
      assert (a + b)[..|a + b| - 1] == a + b[..|b| - 1];
    }
  }

  lemma {:induction false} DraftsOfNone(a: seq<ActionDraft>, workspace: string, i: Id, steps: seq<ActionStep>)
    requires forall n :: 0 <= n < |a| ==> FindStep(steps, a[n].stepId).None?
    ensures DraftsOf(a, workspace, i, steps) == []
  {
    if a != [] {
      DraftsOfNone(a[..|a| - 1], workspace, i, steps);
    }
  }

  lemma {:induction false} DraftsOfAll(a: seq<ActionDraft>, workspace: string, i: Id, steps: seq<ActionStep>)
    requires forall draft :: draft in a ==>
               draft.workspace == workspace && draft.itemId == i && FindStep(steps, draft.stepId).Some?
    ensures DraftsOf(a, workspace, i, steps) == a
  {
    if a != [] {
      DraftsOfAll(a[..|a| - 1], workspace, i, steps);
      assert a[|a| - 1] in a;
    }
  }

  // ------------------------------------------------------------ the reply of a new plan

  lemma {:induction false} StepsAreRecent(steps: seq<ActionStep>, first: Id, id: Id)
    requires forall k :: 0 <= k < |steps| ==> steps[k].id == first + k
    ensures FindStep(steps, id).Some? <==> first <= id < first + |steps|
  {
    if first <= id < first + |steps| {
      assert steps[id - first].id == id;
    }
  }

  /** Listing the approvals of a new plan gives the ones it was created with, in order. */
  lemma {:induction false} NewPlanListsApprovals(s: State, t: State, item: WorkItem, key: Option<string>)
    requires Creation.PlanAdded(s, t, item, key) && ApprovalsOk(s)
    ensures var steps := t.plans[s.nextId].steps;
            ApprovalsOf(t.approvals, item.workspace, item.id, steps)
            == ApprovalRows(item, steps, s.nextId + 1 + |steps|)
  {
    hide FindStep, FindStepFrom, ApprovalRows, ApprovalsOf;
    var steps := t.plans[s.nextId].steps;
    var rows := ApprovalRows(item, steps, s.nextId + 1 + |steps|);
    forall n | 0 <= n < |s.approvals| ensures FindStep(steps, s.approvals[n].stepId).None? {
      StepsAreRecent(steps, s.nextId + 1, s.approvals[n].stepId);
    }
    Creation.ApprovalRowsFacts(item, steps, s.nextId + 1 + |steps|);
    forall approval | approval in rows ensures FindStep(steps, approval.stepId).Some? {
      assert Creation.ApprovalRowOk(approval, item, steps, s.nextId + 1 + |steps|);
    }
    ApprovalsOfAppend(s.approvals, rows, item.workspace, item.id, steps);
    ApprovalsOfNone(s.approvals, item.workspace, item.id, steps);
    ApprovalsOfAll(rows, item.workspace, item.id, steps);
  }

  lemma {:induction false} NewPlanListsDrafts(s: State, t: State, item: WorkItem, key: Option<string>)
    requires Creation.PlanAdded(s, t, item, key) && DraftsOk(s)
    ensures var steps := t.plans[s.nextId].steps;
            DraftsOf(t.drafts, item.workspace, item.id, steps) == DraftRows(item, steps, s.nextId + 1 + |steps|)
  {
    hide FindStep, FindStepFrom, DraftRows, DraftsOf;
    var steps := t.plans[s.nextId].steps;
    var rows := DraftRows(item, steps, s.nextId + 1 + |steps|);
    forall n | 0 <= n < |s.drafts| ensures FindStep(steps, s.drafts[n].stepId).None? {
      StepsAreRecent(steps, s.nextId + 1, s.drafts[n].stepId);
    }
    Creation.DraftRowsFacts(item, steps, s.nextId + 1 + |steps|);
    forall draft | draft in rows ensures FindStep(steps, draft.stepId).Some? {
      assert Creation.DraftRowOk(draft, item, steps, s.nextId + 1 + |steps|);
    }
    DraftsOfAppend(s.drafts, rows, item.workspace, item.id, steps);
    DraftsOfNone(s.drafts, item.workspace, item.id, steps);
    DraftsOfAll(rows, item.workspace, item.id, steps);
  }

  lemma {:induction false} DraftsOfAgrees(a: seq<ActionDraft>, workspace: string, i: Id, steps: seq<ActionStep>,
                                          later: seq<ActionStep>)
    requires forall id :: FindStep(steps, id) == FindStep(later, id)
    ensures DraftsOf(a, workspace, i, steps) == DraftsOf(a, workspace, i, later)
  {
    if a != [] {
      DraftsOfAgrees(a[..|a| - 1], workspace, i, steps, later);
    }
  }

  lemma {:induction false} StepsStayFindable(t: State, u: State, p: Id)
    requires Evolves(t, u) && p in t.plans
    ensures p in u.plans && forall id :: FindStep(t.plans[p].steps, id) == FindStep(u.plans[p].steps, id)
  {
    assert PlanEvolves(t.plans[p], u.plans[p]);
    forall k | 0 <= k < |t.plans[p].steps| ensures t.plans[p].steps[k].id == u.plans[p].steps[k].id {
      assert StepEvolves(t.plans[p].steps[k], u.plans[p].steps[k]);
    }
    forall id ensures FindStep(t.plans[p].steps, id) == FindStep(u.plans[p].steps, id) {
      FindStepAgrees(t.plans[p].steps, u.plans[p].steps, id);
    }
  }

  /** Whatever happens after a plan was made, listing its approvals gives the same identifiers
      in the same order, ... */
  lemma {:induction false} ApprovalListingPersists(t: State, u: State, p: Id, workspace: string, i: Id)
    requires Evolves(t, u) && p in t.plans && p in u.plans
    requires forall k :: 0 <= k < |t.plans[p].steps| ==> t.plans[p].steps[k].id < t.nextId
    requires forall id :: FindStep(t.plans[p].steps, id) == FindStep(u.plans[p].steps, id)
    ensures ApprovalIds(ApprovalsOf(u.approvals, workspace, i, u.plans[p].steps))
            == ApprovalIds(ApprovalsOf(t.approvals, workspace, i, t.plans[p].steps))
  {
    var steps, later := t.plans[p].steps, u.plans[p].steps;
    var kept, added := u.approvals[..|t.approvals|], u.approvals[|t.approvals|..];
    assert u.approvals == kept + added;
    forall n | 0 <= n < |added| ensures FindStep(later, added[n].stepId).None? {
      assert added[n] == u.approvals[|t.approvals| + n];
      assert FindStep(steps, added[n].stepId).None?;
    }
    ApprovalsOfAppend(kept, added, workspace, i, later);
    ApprovalsOfNone(added, workspace, i, later);
    assert ApprovalsOf(kept, workspace, i, later) + [] == ApprovalsOf(kept, workspace, i, later);
    SameListing(t.approvals, kept, workspace, i, steps, later);
  }

  /** ... and listing its drafts gives the original ones first. */
  lemma {:induction false} DraftListingGrows(a: seq<ActionDraft>, b: seq<ActionDraft>, workspace: string, i: Id,
                          steps: seq<ActionStep>, later: seq<ActionStep>)
    requires a <= b && forall id :: FindStep(steps, id) == FindStep(later, id)
    ensures DraftIds(DraftsOf(a, workspace, i, steps)) <= DraftIds(DraftsOf(b, workspace, i, later))
  {
    var extra := b[|a|..];
    assert b == a + extra;
    DraftsOfAppend(a, extra, workspace, i, later);
    DraftsOfAgrees(a, workspace, i, steps, later);
    DraftIdsAppend(DraftsOf(a, workspace, i, later), DraftsOf(extra, workspace, i, later));
  }

  /** An idempotency key names at most one plan of an item in every reachable state. */
  lemma {:induction false} OnePlanPerKey(s: State, p: Id, q: Id, workspace: string, i: Id, key: string)
    requires Reachable(s) && p in s.plans && q in s.plans
    requires KeyedPlan(s.plans[p], workspace, i, key) && KeyedPlan(s.plans[q], workspace, i, key)
    ensures p == q
  {
    ReachableInv(s);
  }

  lemma {:induction false} KeyFindsItsPlan(u: State, p: Id, workspace: string, i: Id, key: string)
    requires Inv(u) && p in u.plans && KeyedPlan(u.plans[p], workspace, i, key)
    ensures FindPlanByKey(u.plans, u.planOrder, workspace, i, key) == Some(p)
  {
    assert PlanOk(u, p);
    assert FindPlanByKey(u.plans, u.planOrder, workspace, i, key).Some?;
  }

  /** What a call that made a plan left behind. */
  lemma {:induction false} NewPlanIsKeyed(s: State, i: Id, ctx: SecurityContext, inputs: PlanningInput,
                                          classified: WorkType, rawKey: Option<string>)
    requires Inv(s)
    requires PlanItem(s, i, ctx, inputs, classified, rawKey).1.Ok?
              && PlanItem(s, i, ctx, inputs, classified, rawKey).0 != s
    ensures var (t, reply) := PlanItem(s, i, ctx, inputs, classified, rawKey);
            var p := reply.value.planId;
            && NormalizedKey(rawKey).Ok? && p == s.nextId && i in s.items && i in t.items
                && t.items[i].workspace == s.items[i].workspace == ctx.workspace
            && Creation.PlanAdded(s, t, s.items[i], NormalizedKey(rawKey).value)
            && t.plans[p].fingerprint == (if NormalizedKey(rawKey).value.Some?
                                          then Some(PlanningFingerprint(inputs, ctx.role, ctx.isAdmin)) else None)
            && reply.value == StoredReply(s, s.items[i], t.plans[p].steps)
  {
    hide Creation.PlanAdded, Planner.Steps, Inv;
    KnownItems(s);
    Creation.PlanningAdds(s, i, ctx, inputs, classified, rawKey);
  }

  lemma {:induction false} KnownItems(s: State)
    requires Inv(s)
    ensures ItemsOk(s) && ApprovalsOk(s) && DraftsOk(s)
    ensures forall i :: i in s.items ==> s.items[i].id == i
  {
  }

  /** Idempotent planning. Let a request with a key have made a plan. However the workflow
      goes on, repeating the request changes nothing and gives back the same plan, the same
      approvals in the same order, and the original drafts ahead of regenerated ones; and
      using the key for another request is refused. */
  lemma {:induction false} ReplayReturnsTheSamePlan(s: State, i: Id, ctx: SecurityContext, inputs: PlanningInput,
                                                    classified: WorkType, rawKey: Option<string>, later: seq<Action>,
                                                    again: SecurityContext, inputs2: PlanningInput,
                                                    classified2: WorkType)
    requires Reachable(s)
    requires PlanItem(s, i, ctx, inputs, classified, rawKey).1.Ok?
              && PlanItem(s, i, ctx, inputs, classified, rawKey).0 != s
    requires NormalizedKey(rawKey).value.Some? && again.workspace == ctx.workspace
    ensures var (t, reply) := PlanItem(s, i, ctx, inputs, classified, rawKey);
            var u := RunFrom(t, later);
            var (v, replay) := PlanItem(u, i, again, inputs2, classified2, rawKey);
            && v == u
            && (if inputs2 == inputs && again.role == ctx.role && again.isAdmin == ctx.isAdmin then
                  && replay.Ok?
                  && replay.value.planId == reply.value.planId
                  && replay.value.approvalIds == reply.value.approvalIds
                  && reply.value.draftIds <= replay.value.draftIds
                else replay == Raised(WorkflowError(KeyBoundToOtherRequest)))
  {
    hide Inv, Creation.PlanAdded, PlanItem, Evolves, Apply, KeyedPlan, StoredReply, PlanResultFor;
    ReachableInv(s);
    KnownItems(s);
    NewPlanIsKeyed(s, i, ctx, inputs, classified, rawKey);
    var (t, reply) := PlanItem(s, i, ctx, inputs, classified, rawKey);
    var key := NormalizedKey(rawKey).value;
    var u := RunFrom(t, later);
    PlanningStep(s, i, ctx, inputs, classified, rawKey);
    RunKeepsInv(t, later);
    AddedPlanFacts(s, t, s.items[i], key);
    PlanRemains(t, u, s.nextId, i, ctx.workspace, key.value);
    KeyFindsItsPlan(u, s.nextId, ctx.workspace, i, key.value);
    KeyAnswers(u, s.nextId, i, again, inputs2, classified2, rawKey);
    RepliesAgree(s, t, u, i, key);
  }

  /** A key that names a plan is answered from that plan alone. */
  lemma {:induction false} KeyAnswers(u: State, p: Id, i: Id, again: SecurityContext, inputs2: PlanningInput,
                                      classified2: WorkType, rawKey: Option<string>)
    requires NormalizedKey(rawKey).Ok? && NormalizedKey(rawKey).value.Some?
    requires i in u.items && u.items[i].id == i && u.items[i].workspace == again.workspace
    requires FindPlanByKey(u.plans, u.planOrder, again.workspace, i, NormalizedKey(rawKey).value.value) == Some(p)
    ensures PlanItem(u, i, again, inputs2, classified2, rawKey)
            == (u, if u.plans[p].fingerprint == Some(PlanningFingerprint(inputs2, again.role, again.isAdmin))
                   then Ok(PlanResultFor(u, u.items[i], u.plans[p], again.workspace))
                   else Raised(WorkflowError(KeyBoundToOtherRequest)))
  {
  }

  lemma {:induction false} ApprovalRepliesAgree(s: State, t: State, u: State, item: WorkItem, key: Option<string>)
    requires ApprovalsOk(s) && Creation.PlanAdded(s, t, item, key) && Evolves(t, u)
    requires s.nextId in t.plans && s.nextId in u.plans
    ensures ApprovalIds(ApprovalsOf(u.approvals, item.workspace, item.id, u.plans[s.nextId].steps))
            == ApprovalIds(ApprovalRows(item, t.plans[s.nextId].steps, s.nextId + 1 + |t.plans[s.nextId].steps|))
  {
    hide Evolves, Creation.PlanAdded, ApprovalsOk, ApprovalRows, ApprovalsOf;
    NewPlanShape(s, t, item, key);
    StepsStayFindable(t, u, s.nextId);
    NewPlanListsApprovals(s, t, item, key);
    ApprovalListingPersists(t, u, s.nextId, item.workspace, item.id);
  }

  lemma {:induction false} DraftRepliesAgree(s: State, t: State, u: State, item: WorkItem, key: Option<string>)
    requires DraftsOk(s) && Creation.PlanAdded(s, t, item, key) && Evolves(t, u)
    requires s.nextId in t.plans && s.nextId in u.plans
    ensures DraftIds(DraftRows(item, t.plans[s.nextId].steps, s.nextId + 1 + |t.plans[s.nextId].steps|))
            <= DraftIds(DraftsOf(u.drafts, item.workspace, item.id, u.plans[s.nextId].steps))
  {
    hide Evolves, Creation.PlanAdded, DraftsOk, DraftRows, DraftsOf;
    StepsStayFindable(t, u, s.nextId);
    NewPlanListsDrafts(s, t, item, key);
    DraftsOnlyGrow(t, u);
    DraftListingGrows(t.drafts, u.drafts, item.workspace, item.id, t.plans[s.nextId].steps, u.plans[s.nextId].steps);
  }

  /** The reply stored with a new plan and the one read back later. */
  lemma {:induction false} RepliesAgree(s: State, t: State, u: State, i: Id, key: Option<string>)
    requires ApprovalsOk(s) && DraftsOk(s) && i in s.items && s.items[i].id == i
    requires Creation.PlanAdded(s, t, s.items[i], key) && Evolves(t, u) && s.nextId in u.plans && i in u.items
    requires u.items[i].id == i && u.plans[s.nextId].id == s.nextId
    ensures s.nextId in t.plans
    ensures var first := StoredReply(s, s.items[i], t.plans[s.nextId].steps);
            var replay := PlanResultFor(u, u.items[i], u.plans[s.nextId], s.items[i].workspace);
            replay.planId == first.planId && replay.approvalIds == first.approvalIds
                && first.draftIds <= replay.draftIds
  {
    hide Evolves, Creation.PlanAdded, ApprovalsOk, DraftsOk, FindStep, ApprovalRows, DraftRows, ApprovalsOf, DraftsOf;
    NewPlanShape(s, t, s.items[i], key);
    ApprovalRepliesAgree(s, t, u, s.items[i], key);
    DraftRepliesAgree(s, t, u, s.items[i], key);
  }

  lemma {:induction false} DraftsOnlyGrow(t: State, u: State)
    requires Evolves(t, u)
    ensures t.drafts <= u.drafts
  {
  }

  lemma {:induction false} NewPlanShape(s: State, t: State, item: WorkItem, key: Option<string>)
    requires Creation.PlanAdded(s, t, item, key)
    ensures s.nextId in t.plans
    ensures forall k :: 0 <= k < |t.plans[s.nextId].steps| ==> t.plans[s.nextId].steps[k].id < t.nextId
  {
  }

  lemma {:induction false} AddedPlanFacts(s: State, t: State, item: WorkItem, key: Option<string>)
    requires Creation.PlanAdded(s, t, item, key) && key.Some?
    ensures s.nextId in t.plans && KeyedPlan(t.plans[s.nextId], item.workspace, item.id, key.value)
    ensures t.plans[s.nextId].id == s.nextId && item.id in t.items && t.items[item.id].id == item.id
  {
  }

  lemma {:induction false} PlanRemains(t: State, u: State, p: Id, i: Id, workspace: string, key: string)
    requires Evolves(t, u) && p in t.plans && i in t.items && KeyedPlan(t.plans[p], workspace, i, key)
    ensures p in u.plans && KeyedPlan(u.plans[p], workspace, i, key)
    ensures u.plans[p].id == t.plans[p].id && u.plans[p].fingerprint == t.plans[p].fingerprint
    ensures i in u.items && u.items[i].workspace == t.items[i].workspace && u.items[i].id == t.items[i].id
  {
    assert PlanEvolves(t.plans[p], u.plans[p]);
  }

  // ------------------------------------------------------------ idempotent creation

  lemma {:induction false} NewItemIsKeyed(s: State, ctx: SecurityContext, title: string, workType: Option<WorkType>,
                                          documents: seq<Id>, context: map<ContextKey, ContextValue>,
                                          rawKey: Option<string>)
    requires CreateItem(s, ctx, title, workType, documents, context, rawKey).0 != s
    ensures NormalizedKey(rawKey).Ok?
    ensures var (t, reply) := CreateItem(s, ctx, title, workType, documents, context, rawKey);
            && reply == Ok(s.nextId) && s.nextId in t.items
            && t.items[s.nextId].workspace == ctx.workspace
            && t.items[s.nextId].idempotencyKey == NormalizedKey(rawKey).value
            && (NormalizedKey(rawKey).value.Some? ==>
                  t.items[s.nextId].fingerprint == Some(WorkItemFingerprint(title, workType, documents, context)))
  {
    hide FanOut, FindItemByKey, NormalizedKey;
  }

  lemma {:induction false} KeyFindsItsItem(u: State, i: Id, workspace: string, key: string)
    requires Inv(u) && i in u.items && KeyedItem(u.items[i], workspace, key)
    ensures FindItemByKey(u.items, u.itemOrder, workspace, key) == Some(i)
  {
    assert FindItemByKey(u.items, u.itemOrder, workspace, key).Some?;
  }

  lemma {:induction false} ItemRemains(t: State, u: State, i: Id)
    requires Evolves(t, u) && i in t.items
    ensures i in u.items && u.items[i].workspace == t.items[i].workspace
    ensures u.items[i].idempotencyKey == t.items[i].idempotencyKey && u.items[i].fingerprint == t.items[i].fingerprint
  {
    assert ItemEvolves(t.items[i], u.items[i]);
  }

  /** Idempotent creation. Let a request with a key have created an item. However the workflow
      goes on, and whatever becomes of the item, any request of the workspace that normalises
      to the same key changes nothing: a request with the same content gets the same item, any
      other is refused. */
  lemma {:induction false} ReplayReturnsTheSameItem(s: State, ctx: SecurityContext, title: string,
                                                    workType: Option<WorkType>, documents: seq<Id>, outcome: string,
                                                    rawKey: Option<string>, later: seq<Action>,
                                                    again: SecurityContext, title2: string,
                                                    workType2: Option<WorkType>, documents2: seq<Id>,
                                                    context2: map<ContextKey, ContextValue>, rawKey2: Option<string>)
    requires Reachable(s)
    requires CreateItem(s, ctx, title, workType, documents, RouteContext(outcome), rawKey).0 != s
    requires NormalizedKey(rawKey).value.Some? && NormalizedKey(rawKey2) == NormalizedKey(rawKey)
    requires again.workspace == ctx.workspace
    ensures var (t, reply) := CreateItem(s, ctx, title, workType, documents, RouteContext(outcome), rawKey);
            var u := RunFrom(t, later);
            && reply.Ok? && reply.value !in s.items && reply.value in u.items
            && CreateItem(u, again, title2, workType2, documents2, context2, rawKey2)
               == (u, if title2 == title && workType2 == workType && documents2 == documents
                         && context2 == RouteContext(outcome)
                      then reply else Raised(WorkflowError(KeyBoundToOtherRequest)))
  {
    hide Inv, Evolves, Apply, Reachable, NormalizedKey, StoreItem, RunFrom, RouteContext, KeyedItem;
    var t := CreateItem(s, ctx, title, workType, documents, RouteContext(outcome), rawKey).0;
    var u := RunFrom(t, later);
    ReachableInv(s);
    KnownItems(s);
    NewItemIsKeyed(s, ctx, title, workType, documents, RouteContext(outcome), rawKey);
    CreationStep(s, ctx, title, workType, documents, outcome, rawKey);
    RunKeepsInv(t, later);
    ItemRemains(t, u, s.nextId);
    KeyAnswersItem(u, s.nextId, again, title2, workType2, documents2, context2, rawKey2);
  }

  /** A key that names an item is answered from that item alone. */
  lemma {:induction false} KeyAnswersItem(u: State, i: Id, again: SecurityContext, title2: string,
                                          workType2: Option<WorkType>, documents2: seq<Id>,
                                          context2: map<ContextKey, ContextValue>, rawKey2: Option<string>)
    requires Inv(u) && i in u.items && u.items[i].workspace == again.workspace
    requires NormalizedKey(rawKey2).Ok? && NormalizedKey(rawKey2).value.Some?
    requires u.items[i].idempotencyKey == NormalizedKey(rawKey2).value
    ensures CreateItem(u, again, title2, workType2, documents2, context2, rawKey2)
            == (u, if u.items[i].fingerprint == Some(WorkItemFingerprint(title2, workType2, documents2, context2))
                   then Ok(i) else Raised(WorkflowError(KeyBoundToOtherRequest)))
  {
    hide Inv, NormalizedKey, StoreItem;
    KeyFindsItsItem(u, i, again.workspace, NormalizedKey(rawKey2).value.value);
  }
}
