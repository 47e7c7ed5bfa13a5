/** The transactions that neither start nor settle an execution: metadata edits, decisions
    on approvals, renewals and marking an outcome unknown. */
module QuietOperations {
  import opened Basics
  import opened Models
  import opened Protocol
  import opened EventLog
  import opened Invariant
  import RequestIdentity

  lemma {:induction false} QuietItemChange(s: State, item: WorkItem, kind: EventKind)
    requires DraftsOk(s)
    requires item.id in s.items && SameExecution(s.items[item.id], item, s.clock) && Weight(kind) == 0
    requires forall i :: i in s.items ==> s.items[i].id == i
    ensures Quiet(s, Recorded(SaveItem(s, item), item, kind))
  {
    var t := Recorded(SaveItem(s, item), item, kind);
    QuietFanOut(s, t, item, kind);
    forall i | i in s.items ensures SameExecution(s.items[i], t.items[i], t.clock) {
    }
  }

  lemma {:induction false} QuietFanOut(s: State, t: State, item: WorkItem, kind: EventKind)
    requires t.events == s.events + FanOut(s.config, item, kind) && Weight(kind) == 0
    ensures QuietEvents(s, t, item.id)
  {
    BalanceOfFanOut(s.config, item, kind, item.id);
    assert Neutral(FanOut(s.config, item, kind), item.id);
  }

  /** Storing a value under a key of its own leaves the execution keys alone. */
  lemma {:induction false} AttachKeepsExecution(original: WorkItem, item: WorkItem, key: ContextKey,
                                                value: ContextValue, now: Time)
    requires SameExecution(original, item, now) && !IsExecutionKey(key)
    ensures SameExecution(original, item.AttachContext(key, value, now), now)
  {
  }

  lemma {:induction false} AttachedKeepsExecution(original: WorkItem, item: WorkItem, key: ContextKey,
                                                  text: Option<string>, now: Time)
    requires SameExecution(original, item, now) && !IsExecutionKey(key)
    ensures SameExecution(original, Attached(item, key, text, now), now)
  {
    hide SameExecution, RequestIdentity.Strip;
    if text.Some? {
      AttachKeepsExecution(original, item, key, Text(RequestIdentity.Strip(text.value)), now);
    }
  }

  lemma {:induction false} TaggedKeepsExecution(original: WorkItem, item: WorkItem, tags: Option<seq<string>>,
                                                now: Time)
    requires SameExecution(original, item, now)
    ensures SameExecution(original, Tagged(item, tags, now), now)
  {
    hide SameExecution, Joined, TagList;
    if tags.Some? {
      AttachKeepsExecution(original, item, Tags, Text(Joined(TagList(tags.value))), now);
    }
  }

  lemma {:induction false} RelabelledKeepsExecution(original: WorkItem, item: WorkItem, title: string,
                                                    priority: WorkItemPriority, updatedAt: Time, now: Time)
    requires SameExecution(original, item, now)
    ensures SameExecution(original, item.(title := title), now)
              && SameExecution(original, item.(priority := priority), now)
    ensures SameExecution(original, item.(updatedAt := updatedAt), now)
  {
  }

  lemma {:induction false} StatusKeepsExecution(original: WorkItem, item: WorkItem, status: WorkItemStatus, now: Time)
    requires SameExecution(original, item, now)
    ensures SameExecution(original, item.(status := status), now)
  {
  }

  lemma {:induction false} ItselfKeepsExecution(item: WorkItem, now: Time)
    ensures SameExecution(item, item, now)
  {
  }

  lemma {:induction false} EditedKeepsExecution(item: WorkItem, title: Option<string>,
                                                priority: Option<WorkItemPriority>, assignee: Option<string>,
                                                requestedOutcome: Option<string>, tags: Option<seq<string>>, now: Time)
    ensures SameExecution(item, EditedItem(item, title, priority, assignee, requestedOutcome, tags, now), now)
  {
    hide RequestIdentity.Strip, Attached, Tagged, SameExecution;
    ItselfKeepsExecution(item, now);
    var renamed := if title.Some? && RequestIdentity.Strip(title.value) != []
                   then item.(title := RequestIdentity.Strip(title.value)) else item;
    RelabelledKeepsExecution(item, item, renamed.title, item.priority, now, now);
    var ranked := if priority.Some? then renamed.(priority := priority.value) else renamed;
    RelabelledKeepsExecution(item, renamed, renamed.title, ranked.priority, now, now);
    var owned := Attached(ranked, Assignee, assignee, now);
    AttachedKeepsExecution(item, ranked, Assignee, assignee, now);
    var asked := Attached(owned, RequestedOutcome, requestedOutcome, now);
    AttachedKeepsExecution(item, owned, RequestedOutcome, requestedOutcome, now);
    TaggedKeepsExecution(item, asked, tags, now);
    var tagged := Tagged(asked, tags, now);
    RelabelledKeepsExecution(item, tagged, tagged.title, tagged.priority, now, now);
  }

  /** Editing an item's metadata, asking for a correction, submitting one and escalating
      leave every execution as it is, whatever they do to the item's status. */
  lemma {:induction false} EditsAreQuiet(s: State, itemId: Id, ctx: SecurityContext, title: Option<string>,
                      priority: Option<WorkItemPriority>, assignee: Option<string>, requestedOutcome: Option<string>,
                      tags: Option<seq<string>>)
    requires ItemsOk(s) && DraftsOk(s)
    ensures Quiet(s, UpdateItem(s, itemId, ctx, title, priority, assignee, requestedOutcome, tags).0)
  {
    if ItemFor(s, itemId, ctx).Ok? {
      EditedKeepsExecution(s.items[itemId], title, priority, assignee, requestedOutcome, tags, s.clock);
      QuietItemChange(s, EditedItem(s.items[itemId], title, priority, assignee, requestedOutcome, tags, s.clock),
                      WorkItemUpdated);
    }
  }

  lemma {:induction false} QuietIsReflexive(s: State)
    requires DraftsOk(s)
    ensures Quiet(s, s)
  {
  }

  lemma {:induction false} RequestCorrectionIsQuiet(s: State, itemId: Id, ctx: SecurityContext, notes: string)
    requires ItemsOk(s) && DraftsOk(s)
    ensures Quiet(s, RequestCorrection(s, itemId, ctx, notes).0)
  {
    hide SameExecution, Quiet, RequestIdentity.Strip, Recorded;
    QuietIsReflexive(s);
    if ItemFor(s, itemId, ctx).Ok? {
      var item := s.items[itemId];
      ItselfKeepsExecution(item, s.clock);
      var a := item.AttachContext(CorrectionState, Text("requested"), s.clock);
      AttachKeepsExecution(item, item, CorrectionState, Text("requested"), s.clock);
      var b := a.AttachContext(CorrectionReason, Text(RequestIdentity.Strip(notes)), s.clock);
      AttachKeepsExecution(item, a, CorrectionReason, Text(RequestIdentity.Strip(notes)), s.clock);
      var c := b.AttachContext(CorrectionRequestedBy, Text(ctx.actor), s.clock);
      AttachKeepsExecution(item, b, CorrectionRequestedBy, Text(ctx.actor), s.clock);
      var d := c.AttachContext(CorrectionRequestedAt, InstantText(s.clock), s.clock);
      AttachKeepsExecution(item, c, CorrectionRequestedAt, InstantText(s.clock), s.clock);
      StatusKeepsExecution(item, d, ItemAwaitingHuman, s.clock);
      QuietItemChange(s, d.(status := ItemAwaitingHuman), CorrectionRequested);
    }
  }

  lemma {:induction false} SubmitCorrectionIsQuiet(s: State, itemId: Id, ctx: SecurityContext, changes: string)
    requires ItemsOk(s) && DraftsOk(s)
    ensures Quiet(s, SubmitCorrection(s, itemId, ctx, changes).0)
  {
    hide SameExecution, Quiet, Recorded;
    QuietIsReflexive(s);
    if ItemFor(s, itemId, ctx).Ok? && s.items[itemId].Get(CorrectionState) == Some(Text("requested")) {
      var item := s.items[itemId];
      ItselfKeepsExecution(item, s.clock);
      var a := item.AttachContext(CorrectionState, Text("submitted"), s.clock);
      AttachKeepsExecution(item, item, CorrectionState, Text("submitted"), s.clock);
      var b := a.AttachContext(CorrectionSubmittedBy, Text(ctx.actor), s.clock);
      AttachKeepsExecution(item, a, CorrectionSubmittedBy, Text(ctx.actor), s.clock);
      var c := b.AttachContext(CorrectionChangeCount, Text(changes), s.clock);
      AttachKeepsExecution(item, b, CorrectionChangeCount, Text(changes), s.clock);
      StatusKeepsExecution(item, c, ItemAwaitingHuman, s.clock);
      QuietItemChange(s, c.(status := ItemAwaitingHuman), CorrectionSubmitted);
    }
  }

  lemma {:induction false} EscalationIsQuiet(s: State, itemId: Id, ctx: SecurityContext)
    requires ItemsOk(s) && DraftsOk(s)
    ensures Quiet(s, Escalate(s, itemId, ctx).0)
  {
    if ItemFor(s, itemId, ctx).Ok? {
      var item := s.items[itemId];
      AttachKeepsExecution(item, item, CorrectionState, Text("escalated"), s.clock);
      QuietItemChange(s, Escalate(s, itemId, ctx).0.items[itemId], WorkflowEscalated);
    }
  }

  lemma {:induction false} RecordingTouches(s: State, item: WorkItem, kind: EventKind)
    ensures Recorded(s, item, kind) == s.(events := Recorded(s, item, kind).events)
  {
    hide FanOut;
  }

  /** A decision touches one approval and the events. */
  lemma {:induction false} DecisionTouches(s: State, n: nat, decided: Result<Approval>, before: ApprovalStatus,
                                           kind: EventKind, ctx: SecurityContext)
    requires n < |s.approvals|
    ensures var t := Decided(s, n, decided, before, kind, ctx).0;
            && t == s.(approvals := t.approvals, events := t.events)
            && (t.approvals == s.approvals || (decided.Ok? && t.approvals == s.approvals[n := decided.value]))
  {
    hide ItemFor, Recorded;
    if decided.Ok? && ItemFor(s, decided.value.itemId, ctx).Ok? {
      RecordingTouches(s.(approvals := s.approvals[n := decided.value]),
                       ItemFor(s, decided.value.itemId, ctx).value, kind);
    }
  }

  lemma {:induction false} DecisionIsQuiet(s: State, n: nat, decided: Result<Approval>, before: ApprovalStatus,
                                           kind: EventKind, ctx: SecurityContext)
    requires ItemsOk(s) && DraftsOk(s) && n < |s.approvals| && Weight(kind) == 0
    requires decided.Ok? ==> SameRequest(s.approvals[n], decided.value)
    ensures Quiet(s, Decided(s, n, decided, before, kind, ctx).0)
  {
    var t := Decided(s, n, decided, before, kind, ctx).0;
    if decided.Ok? && decided.value.status != before && ItemFor(s, decided.value.itemId, ctx).Ok? {
      QuietFanOut(s, t, s.items[decided.value.itemId], kind);
    }
  }

  lemma {:induction false} DecisionsAreQuiet(s: State, approvalId: Id, ctx: SecurityContext, notes: Option<string>)
    requires ItemsOk(s) && DraftsOk(s)
    ensures Quiet(s, Approve(s, approvalId, ctx, notes).0)
    ensures Quiet(s, Reject(s, approvalId, ctx, notes).0)
  {
    if FindApproval(s.approvals, approvalId).Some? {
      var n := FindApproval(s.approvals, approvalId).value;
      var approval := s.approvals[n];
      DecisionIsQuiet(s, n, approval.Approve(ctx.actor, notes, s.clock), approval.status, ApprovalApproved, ctx);
      DecisionIsQuiet(s, n, approval.Reject(ctx.actor, notes, s.clock), approval.status, ApprovalRejected, ctx);
    }
  }

  lemma {:induction false} RegeneratingIsQuiet(s: State, itemId: Id, draftId: Id, ctx: SecurityContext)
    requires ItemsOk(s) && DraftsOk(s)
    ensures Quiet(s, RegenerateDraft(s, itemId, draftId, ctx).0)
  {
    var (t, reply) := RegenerateDraft(s, itemId, draftId, ctx);
    if reply.Ok? {
      QuietFanOut(s, t, s.items[itemId], DraftRegenerated);
    }
  }

  /** The reservation is one that the coordinator granted. */
  ghost predicate GrantedReservation(s: State, r: Reservation) {
    r.token in s.attempts && s.attempts[r.token].reservation == r
  }

  /** A granted reservation's step is found where the holder looks for it. */
  lemma {:induction false} HolderFindsStep(s: State, r: Reservation, ctx: SecurityContext)
    requires AttemptsOk(s) && GrantedReservation(s, r)
    ensures r.itemId in s.items && r.planId in s.plans && s.plans[r.planId].itemId == r.itemId
    ensures FindStep(s.plans[r.planId].steps, r.stepId).Some?
    ensures Held(s, r, ctx).Ok? <==> s.items[r.itemId].workspace == ctx.workspace
  {
    assert AttemptOk(s, r.token);
  }

  lemma {:induction false} RenewIsQuiet(s: State, r: Reservation, ctx: SecurityContext)
    requires ItemsOk(s) && DraftsOk(s)
    ensures Quiet(s, Renew(s, r, ctx).0)
  {
    var (t, reply) := Renew(s, r, ctx);
    if reply == Ok(true) {
      var item := s.items[r.itemId];
      HeartbeatKeepsExecution(item, s.clock);
      assert t == SaveItem(s, item.AttachContext(ExecutionHeartbeatAt, InstantText(s.clock), s.clock));
    }
  }

  lemma {:induction false} HeartbeatKeepsExecution(item: WorkItem, now: Time)
    ensures SameExecution(item, item.AttachContext(ExecutionHeartbeatAt, InstantText(now), now), now)
  {
  }

  lemma {:induction false} OutcomeKeepsExecution(item: WorkItem, now: Time)
    requires item.ExecutionPending()
    ensures SameExecution(item, item.AttachContext(ExecutionOutcomeKey, OutcomeText(Unknown), now)
                                    .(status := ItemAwaitingHuman), now)
  {
  }

  lemma {:induction false} MarkUnknownIsQuiet(s: State, r: Reservation, ctx: SecurityContext)
    requires ItemsOk(s) && DraftsOk(s) && AttemptsOk(s) && ExecutionsOk(s) && GrantedReservation(s, r)
    ensures Quiet(s, MarkUnknown(s, r, ctx).0)
  {
    HolderFindsStep(s, r, ctx);
    if Held(s, r, ctx).Ok? {
      var k := Held(s, r, ctx).value.1;
      var item := s.items[r.itemId];
      if s.plans[r.planId].steps[k].status == Executing && ReservationMatches(item, r) {
        assert Justified(s, r.planId, k);
        OutcomeKeepsExecution(item, s.clock);
        QuietItemChange(s, item.AttachContext(ExecutionOutcomeKey, OutcomeText(Unknown), s.clock)
                               .(status := ItemAwaitingHuman), ExecutionOutcomeUnknown);
      }
    }
  }
}
