/** What a work item shows is what the requests made of it: its visible fields are the outcome
    of the run's actions, taken one by one. */
module ItemStories {
  import opened Basics
  import opened Models
  import opened Protocol
  import opened Invariant
  import opened QuietOperations
  import opened Evolution
  import opened Runs
  import opened Fencing
  import opened Verdicts
  import opened PlannedWork
  import opened AuditTrail
  import Planner
  import RequestIdentity
  import RecoveryGuarantees
  import Starting
  import Creation

  /** The fields of a work item that people see and edit. */
  datatype Story = Story(
    workspace: string,
    documents: seq<Id>,
    title: string,
    workType: Option<WorkType>,
    priority: WorkItemPriority,
    status: WorkItemStatus,
    assignee: Option<ContextValue>,
    requestedOutcome: Option<ContextValue>,
    tags: Option<ContextValue>,
    correction: Option<ContextValue>,
    reason: Option<ContextValue>,
    requestedBy: Option<ContextValue>,
    requestedAt: Option<ContextValue>,
    submittedBy: Option<ContextValue>,
    changes: Option<ContextValue>,
    updatedAt: Time)

  function StoryOf(item: WorkItem): Story {
    Story(item.workspace, item.linkedDocuments, item.title, item.workType, item.priority, item.status,
          item.Get(Assignee), item.Get(RequestedOutcome), item.Get(Tags), item.Get(CorrectionState),
          item.Get(CorrectionReason), item.Get(CorrectionRequestedBy), item.Get(CorrectionRequestedAt),
          item.Get(CorrectionSubmittedBy), item.Get(CorrectionChangeCount), item.updatedAt)
  }

  /** A new item shows what it was created with, and waits to be planned. */
  function Born(s: State, a: Action): Story
    requires a.CreatesItem?
  {
    Story(a.ctx.workspace, a.documents, a.title, a.workType, Normal,
          if a.workType.Some? then ItemClassified else ItemNew, None, Some(Text(a.outcome)), None, None, None, None,
          None, None, None, s.clock)
  }

  /** An optional text replaces what was there, stripped. */
  function Replaced(old_: Option<ContextValue>, text: Option<string>): Option<ContextValue> {
    if text.Some? then Some(Text(RequestIdentity.Strip(text.value))) else old_
  }

  /** What becomes of an item's story by an action that leads from one state to the next. */
  ghost function Next(b: Story, s: State, t: State, a: Action, i: Id): Story {
    match a
    case EditsItem(j, ctx, title, priority, assignee, outcome, tags) =>
      if j == i && ctx.workspace == b.workspace then
        b.(title := if title.Some? && RequestIdentity.Strip(title.value) != "" then RequestIdentity.Strip(title.value)
                    else b.title,
           priority := if priority.Some? then priority.value else b.priority,
           assignee := Replaced(b.assignee, assignee),
           requestedOutcome := Replaced(b.requestedOutcome, outcome),
           tags := if tags.Some? then Some(Text(Joined(TagList(tags.value)))) else b.tags,
           updatedAt := s.clock)
      else b
    case AsksCorrection(j, ctx, notes) =>
      if j == i && ctx.workspace == b.workspace then
        b.(correction := Some(Text("requested")), reason := Some(Text(RequestIdentity.Strip(notes))),
           requestedBy := Some(Text(ctx.actor)), requestedAt := Some(InstantText(s.clock)),
           status := ItemAwaitingHuman, updatedAt := s.clock)
      else b
    case SubmitsCorrection(j, ctx, changes) =>
      if j == i && ctx.workspace == b.workspace && b.correction == Some(Text("requested")) then
        b.(correction := Some(Text("submitted")), submittedBy := Some(Text(ctx.actor)), changes := Some(Text(changes)),
           status := ItemAwaitingHuman, updatedAt := s.clock)
      else b
    case EscalatesItem(j, ctx) =>
      if j == i && ctx.workspace == b.workspace then
        if b.correction == Some(Text("requested"))
        then b.(correction := Some(Text("escalated")), status := ItemAwaitingHuman, updatedAt := s.clock)
        else b.(status := ItemAwaitingHuman)
      else b
    case PlansItem(j, ctx, inputs, classified, _) =>
      if j == i && s.nextId !in s.plans && s.nextId in t.plans && i in s.items then
        b.(workType := Some(if b.workType.Some? then b.workType.value else classified),
           status := if LeftToHuman(s.items[i], inputs, classified) then ItemAwaitingHuman else ItemPlanning,
           updatedAt := s.clock)
      else b
    case Reserves(j, _, _) =>
      if j == i && t.attempts != s.attempts then b.(status := ItemExecuting, updatedAt := s.clock) else b
    case Renews(token, ctx) =>
      if ItemOfToken(s, token) == Some(i) && Active(s, token, ctx) && i in s.items
         && s.items[i].Get(ExecutionOutcomeKey) == Some(OutcomeText(InFlight))
      then b.(updatedAt := s.clock) else b
    case MarksUnknown(token, ctx) =>
      if ItemOfToken(s, token) == Some(i) && Active(s, token, ctx)
      then b.(status := ItemAwaitingHuman, updatedAt := s.clock) else b
    case Finalizes(token, success, ctx) =>
      if ItemOfToken(s, token) == Some(i) && Active(s, token, ctx)
      then b.(status := if success then ItemResolved else ItemFailed, updatedAt := s.clock) else b
    case Reconciles(j, _, _, succeeded, _) =>
      if j == i && t != s then b.(status := if succeeded then ItemResolved else ItemFailed, updatedAt := s.clock) else b
    case _ => b
  }

  ghost predicate Continues(s: State, t: State, a: Action, i: Id)
    requires i in s.items
  {
    i in t.items && StoryOf(t.items[i]) == Next(StoryOf(s.items[i]), s, t, a, i)
  }

  // ------------------------------------------------------------ each action

  lemma {:induction false} EditingContinues(s: State, a: Action, i: Id)
    requires ItemsOk(s) && a.EditsItem? && i in s.items
    ensures Continues(s, Apply(s, a), a, i)
  {
    hide FanOut, RequestIdentity.Strip, CreateItem, PlanItem, Reserve, Renew, MarkUnknown, Finalize, Reconcile,
         RegenerateDraft, Approve, Reject, Starting.CallTool, UploadDocument, MoveDocument, RequestCorrection,
         SubmitCorrection, Escalate, TagList, Joined, EditedItem;
    if a.itemId == i && ItemFor(s, i, a.ctx).Ok? {
      EditedStory(s.items[i], a.newTitle, a.priority, a.assignee, a.requestedOutcome, a.tags, s.clock);
    }
    if a.itemId in s.items {
      EditedKeepsExecution(s.items[a.itemId], a.newTitle, a.priority, a.assignee, a.requestedOutcome, a.tags, s.clock);
    }
  }

  lemma {:induction false} EditedStory(item: WorkItem, title: Option<string>, priority: Option<WorkItemPriority>,
                                       assignee: Option<string>, outcome: Option<string>, tags: Option<seq<string>>,
                                       now: Time)
    ensures var b := StoryOf(item);
            StoryOf(EditedItem(item, title, priority, assignee, outcome, tags, now))
            == b.(title := if title.Some? && RequestIdentity.Strip(title.value) != ""
                           then RequestIdentity.Strip(title.value) else b.title,
                  priority := if priority.Some? then priority.value else b.priority,
                  assignee := Replaced(b.assignee, assignee),
                  requestedOutcome := Replaced(b.requestedOutcome, outcome),
                  tags := if tags.Some? then Some(Text(Joined(TagList(tags.value)))) else b.tags,
                  updatedAt := now)
  {
    hide RequestIdentity.Strip, TagList, Joined;
  }

  lemma {:induction false} StoryKeepsWorkspace(item: WorkItem)
    ensures StoryOf(item).workspace == item.workspace && StoryOf(item).correction == item.Get(CorrectionState)
  {
  }

  /** The item that a correction was asked for. */
  function Asked(item: WorkItem, notes: string, actor: string, now: Time): WorkItem {
    item.(context := item.context[CorrectionState := Text("requested")]
                                 [CorrectionReason := Text(RequestIdentity.Strip(notes))]
                                 [CorrectionRequestedBy := Text(actor)]
                                 [CorrectionRequestedAt := InstantText(now)],
          status := ItemAwaitingHuman, updatedAt := now)
  }

  lemma {:induction false} AskedStory(item: WorkItem, notes: string, actor: string, now: Time)
    ensures StoryOf(Asked(item, notes, actor, now))
            == StoryOf(item).(correction := Some(Text("requested")), reason := Some(Text(RequestIdentity.Strip(notes))),
                              requestedBy := Some(Text(actor)), requestedAt := Some(InstantText(now)),
                              status := ItemAwaitingHuman, updatedAt := now)
  {
    hide RequestIdentity.Strip;
  }

  lemma {:induction false} AskingChanges(s: State, itemId: Id, ctx: SecurityContext, notes: string)
    requires ItemsOk(s)
    ensures var t := RequestCorrection(s, itemId, ctx, notes).0;
            t.items == if Own(s, itemId, ctx)
                       then s.items[itemId := Asked(s.items[itemId], notes, ctx.actor, s.clock)] else s.items
  {
    hide FanOut, RequestIdentity.Strip;
  }

  lemma {:induction false} AskingContinues(s: State, a: Action, i: Id)
    requires ItemsOk(s) && a.AsksCorrection? && i in s.items
    ensures Continues(s, Apply(s, a), a, i)
  {
    hide RequestIdentity.Strip, CreateItem, PlanItem, Reserve, Renew, MarkUnknown, Finalize, Reconcile,
         RegenerateDraft, Approve, Reject, Starting.CallTool, UploadDocument, MoveDocument, UpdateItem,
         RequestCorrection, SubmitCorrection, Escalate, StoryOf, Asked;
    AskingChanges(s, a.itemId, a.ctx, a.notes);
    AskedStory(s.items[i], a.notes, a.ctx.actor, s.clock);
    StoryKeepsWorkspace(s.items[i]);
  }

  lemma {:induction false} SubmittingContinues(s: State, a: Action, i: Id)
    requires ItemsOk(s) && a.SubmitsCorrection? && i in s.items
    ensures Continues(s, Apply(s, a), a, i)
  {
    hide FanOut, CreateItem, PlanItem, Reserve, Renew, MarkUnknown, Finalize, Reconcile, RegenerateDraft, Approve,
         Reject, Starting.CallTool, UploadDocument, MoveDocument, UpdateItem, RequestCorrection, Escalate;
  }

  lemma {:induction false} EscalatingChanges(s: State, itemId: Id, ctx: SecurityContext)
    requires ItemsOk(s)
    ensures var t := Escalate(s, itemId, ctx).0;
            if Own(s, itemId, ctx) then
              && itemId in t.items && t.items == s.items[itemId := t.items[itemId]]
              && var b := StoryOf(s.items[itemId]);
                 StoryOf(t.items[itemId])
                 == if b.correction == Some(Text("requested"))
                    then b.(correction := Some(Text("escalated")), status := ItemAwaitingHuman, updatedAt := s.clock)
                    else b.(status := ItemAwaitingHuman)
            else t == s
  {
    hide FanOut;
  }

  lemma {:induction false} EscalatingContinues(s: State, a: Action, i: Id)
    requires ItemsOk(s) && a.EscalatesItem? && i in s.items
    ensures Continues(s, Apply(s, a), a, i)
  {
    hide CreateItem, PlanItem, Reserve, Renew, MarkUnknown, Finalize, Reconcile, RegenerateDraft, Approve, Reject,
         Starting.CallTool, UploadDocument, MoveDocument, UpdateItem, RequestCorrection, SubmitCorrection, Escalate,
         StoryOf;
    EscalatingChanges(s, a.itemId, a.ctx);
    StoryKeepsWorkspace(s.items[i]);
  }

  lemma {:induction false} StoringChanges(s: State, a: Action, key: Option<string>, fingerprint: Fingerprint)
    requires a.CreatesItem?
    ensures var t := StoreItem(s, a.ctx, a.title, a.workType, a.documents, RouteContext(a.outcome), key, fingerprint);
            && s.nextId in t.items && t.items == s.items[s.nextId := t.items[s.nextId]]
            && StoryOf(t.items[s.nextId]) == Born(s, a)
  {
    hide FanOut;
  }

  lemma {:induction false} CreatingChanges(s: State, a: Action)
    requires ItemsOk(s) && a.CreatesItem?
    ensures var t := CreateItem(s, a.ctx, a.title, a.workType, a.documents, RouteContext(a.outcome), a.key).0;
            && s.nextId !in s.items
            && (t != s ==>
                  && s.nextId in t.items && t.items == s.items[s.nextId := t.items[s.nextId]]
                  && StoryOf(t.items[s.nextId]) == Born(s, a))
  {
    hide StoreItem, FindItemByKey, RequestIdentity.NormalizedKey, RouteContext, Born, StoryOf;
    var key := RequestIdentity.NormalizedKey(a.key);
    if key.Ok? {
      StoringChanges(s, a, key.value, WorkItemFingerprint(a.title, a.workType, a.documents, RouteContext(a.outcome)));
    }
  }

  lemma {:induction false} CreatingContinues(s: State, a: Action, i: Id)
    requires ItemsOk(s) && a.CreatesItem?
    ensures i in s.items ==> Continues(s, Apply(s, a), a, i)
    ensures i !in s.items && i in Apply(s, a).items ==> StoryOf(Apply(s, a).items[i]) == Born(s, a)
  {
    hide CreateItem, PlanItem, Reserve, Renew, MarkUnknown, Finalize, Reconcile, RegenerateDraft, Approve, Reject,
         Starting.CallTool, UploadDocument, MoveDocument, UpdateItem, RequestCorrection, SubmitCorrection, Escalate,
         StoryOf, Born;
    CreatingChanges(s, a);
  }

  lemma {:induction false} PlanningContinues(s: State, a: Action, i: Id)
    requires Inv(s) && a.PlansItem? && i in s.items
    ensures Continues(s, Apply(s, a), a, i)
  {
    hide Inv, PlanItem, CreateItem, Reserve, Renew, MarkUnknown, Finalize, Reconcile, RegenerateDraft, Approve, Reject,
         Starting.CallTool, UploadDocument, MoveDocument, UpdateItem, RequestCorrection, SubmitCorrection, Escalate,
         LeftToHuman, DraftsByWorkType, HumanOnly, Planner.Steps, Creation.PlanAdded;
    InvParts(s);
    NoPlanYet(s);
    var t := PlanItem(s, a.itemId, a.ctx, a.inputs, a.classified, a.key).0;
    if t != s {
      PlanningBrings(s, a.itemId, a.ctx, a.inputs, a.classified, a.key);
      Creation.PlanningAdds(s, a.itemId, a.ctx, a.inputs, a.classified, a.key);
      OnlyThatItem(s, t, s.items[a.itemId], RequestIdentity.NormalizedKey(a.key).value, i);
    }
  }

  lemma {:induction false} OnlyThatItem(s: State, t: State, item: WorkItem, key: Option<string>, i: Id)
    requires Creation.PlanAdded(s, t, item, key) && i in s.items
    ensures i in t.items && (i != item.id ==> t.items[i] == s.items[i])
  {
  }

  lemma {:induction false} ReservingContinues(s: State, a: Action, i: Id)
    requires Inv(s) && a.Reserves? && i in s.items
    ensures Continues(s, Apply(s, a), a, i)
  {
    hide Inv, ExecutionCheck, Reserve, Apply, PlanOk, Starting.After;
    ReservingApplies(s, a.itemId, a.stepId, a.ctx);
    InvParts(s);
    ReserveSteps(s, a.itemId, a.stepId, a.ctx);
    var t := Reserve(s, a.itemId, a.stepId, a.ctx).0;
    if t != s {
      var p: Id, k: nat :| Starting.Startable(s, a.itemId, p, k) && t == Starting.After(s, a.itemId, p, k);
      StartingParts(s, p);
      Starting.FreshToken(s);
      StartedStory(s, a.itemId, p, k, i);
    }
  }

  lemma {:induction false} StartedStory(s: State, j: Id, p: Id, k: nat, i: Id)
    requires ItemsOk(s) && s.nextId !in s.attempts && Starting.Startable(s, j, p, k) && i in s.items
    ensures var t := Starting.After(s, j, p, k);
            && i in t.items && t.attempts != s.attempts
            && StoryOf(t.items[i]) == if i == j then StoryOf(s.items[i]).(status := ItemExecuting, updatedAt := s.clock)
                                      else StoryOf(s.items[i])
  {
    hide FanOut, ExecutionCheck;
    var t := Starting.After(s, j, p, k);
    assert s.nextId in t.attempts;
  }

  lemma {:induction false} BeatStory(item: WorkItem, now: Time)
    ensures StoryOf(item.AttachContext(ExecutionHeartbeatAt, InstantText(now), now))
            == StoryOf(item).(updatedAt := now)
  {
  }

  lemma {:induction false} MarkedStory(s: State, item: WorkItem)
    requires item.id in s.items
    ensures var t := MarkedUnknown(s, item);
            && t.items == s.items[item.id := t.items[item.id]]
            && StoryOf(t.items[item.id]) == StoryOf(item).(status := ItemAwaitingHuman, updatedAt := s.clock)
  {
    hide FanOut;
  }

  lemma {:induction false} RenewingContinues(s: State, a: Action, i: Id)
    requires Inv(s) && a.Renews? && i in s.items
    ensures Continues(s, Apply(s, a), a, i)
  {
    hide Inv, Renew, MarkUnknown, Finalize, Apply, Active, StoryOf, MarkedUnknown, WorkItem.AttachContext,
         WorkItem.Get;
    if a.token in s.attempts {
      var r := s.attempts[a.token].reservation;
      GrantedToken(s, a.token);
      TokenIsOwn(s, a.token);
      HolderApplies(s, r, true, a.ctx);
      HolderActs(s, r, true, a.ctx);
      BeatStory(s.items[r.itemId], s.clock);
      BeatKeepsId(s.items[r.itemId], s.clock);
    } else {
      UnknownTokenDoesNothing(s, a);
    }
  }

  lemma {:induction false} BeatKeepsId(item: WorkItem, now: Time)
    ensures item.AttachContext(ExecutionHeartbeatAt, InstantText(now), now).id == item.id
  {
  }

  lemma {:induction false} MarkingContinues(s: State, a: Action, i: Id)
    requires Inv(s) && a.MarksUnknown? && i in s.items
    ensures Continues(s, Apply(s, a), a, i)
  {
    hide Inv, Renew, MarkUnknown, Finalize, Apply, Active, StoryOf, MarkedUnknown;
    if a.token in s.attempts {
      var r := s.attempts[a.token].reservation;
      GrantedToken(s, a.token);
      TokenIsOwn(s, a.token);
      HolderApplies(s, r, true, a.ctx);
      HolderActs(s, r, true, a.ctx);
      MarkedStory(s, s.items[r.itemId]);
    } else {
      UnknownTokenDoesNothing(s, a);
    }
  }

  lemma {:induction false} VerdictStory(s: State, t: State, j: Id, succeeded: bool, i: Id)
    requires GotVerdict(s, t, j, succeeded) && i in s.items
    ensures i in t.items
    ensures StoryOf(t.items[i])
            == if i == j then StoryOf(s.items[i]).(status := if succeeded then ItemResolved else ItemFailed,
                                                   updatedAt := s.clock)
               else StoryOf(s.items[i])
  {
  }

  lemma {:induction false} FinalizingContinues(s: State, a: Action, i: Id)
    requires Inv(s) && a.Finalizes? && i in s.items
    ensures Continues(s, Apply(s, a), a, i)
  {
    hide Inv, Renew, MarkUnknown, Finalize, Apply, Active, StoryOf, MarkedUnknown, GotVerdict;
    if a.token in s.attempts {
      var r := s.attempts[a.token].reservation;
      GrantedToken(s, a.token);
      TokenIsOwn(s, a.token);
      HolderApplies(s, r, a.success, a.ctx);
      HolderActs(s, r, a.success, a.ctx);
      FinalizingGivesTheVerdict(s, r, a.success, a.ctx);
      if Active(s, a.token, a.ctx) {
        VerdictStory(s, Apply(s, a), r.itemId, a.success, i);
      }
    } else {
      UnknownTokenDoesNothing(s, a);
      UnknownTokenIsIdle(s, a.token, a.ctx);
    }
  }

  lemma {:induction false} ReconcilingContinues(s: State, a: Action, i: Id)
    requires Inv(s) && a.Reconciles? && i in s.items
    ensures Continues(s, Apply(s, a), a, i)
  {
    hide Inv, Reconcile, Apply, StoryOf, GotVerdict;
    ReconcilingApplies(s, a);
    ReconcilingGivesTheVerdict(s, a.itemId, a.stepId, a.ctx, a.succeeded, a.summary);
    if Apply(s, a) != s {
      VerdictStory(s, Apply(s, a), a.itemId, a.succeeded, i);
    }
  }

  lemma {:induction false} OthersContinue(s: State, a: Action, i: Id)
    requires i in s.items && (a.RegeneratesDraft? || a.TimePasses? || a.DocumentArrives? || a.DocumentMoves?
                              || a.CallsTool?)
    ensures Continues(s, Apply(s, a), a, i)
  {
    hide CreateItem, PlanItem, Reserve, Renew, MarkUnknown, Finalize, Reconcile, UpdateItem, RequestCorrection,
         SubmitCorrection, Escalate, Approve, Reject, FanOut, FindDraft;
  }

  lemma {:induction false} DecisionsContinue(s: State, a: Action, i: Id)
    requires i in s.items && (a.Approves? || a.Rejects?)
    ensures Continues(s, Apply(s, a), a, i)
  {
    hide Apply;
    RecoveryGuarantees.DecisionKeepsItems(s, a);
  }

  lemma {:induction false} ActionContinues(s: State, a: Action, i: Id)
    requires Inv(s) && i in s.items
    ensures Continues(s, Apply(s, a), a, i)
  {
    hide Inv, Continues, Apply, ItemsOk;
    InvParts(s);
    match a {
      case EditsItem(_, _, _, _, _, _, _) => EditingContinues(s, a, i);
      case AsksCorrection(_, _, _) => AskingContinues(s, a, i);
      case SubmitsCorrection(_, _, _) => SubmittingContinues(s, a, i);
      case EscalatesItem(_, _) => EscalatingContinues(s, a, i);
      case CreatesItem(_, _, _, _, _, _) => CreatingContinues(s, a, i);
      case PlansItem(_, _, _, _, _) => PlanningContinues(s, a, i);
      case Reserves(_, _, _) => ReservingContinues(s, a, i);
      case Renews(_, _) => RenewingContinues(s, a, i);
      case MarksUnknown(_, _) => MarkingContinues(s, a, i);
      case Finalizes(_, _, _) => FinalizingContinues(s, a, i);
      case Reconciles(_, _, _, _, _) => ReconcilingContinues(s, a, i);
      case Approves(_, _, _) => DecisionsContinue(s, a, i);
      case Rejects(_, _, _) => DecisionsContinue(s, a, i);
      case _ => OthersContinue(s, a, i);
    }
  }

  // ------------------------------------------------------------ whole runs

  /** The story of an item as the run's actions tell it, from the action that created it on. */
  ghost function StorySoFar(start: State, actions: seq<Action>, i: Id): Option<Story> {
    if actions == [] then None
    else
      var last := |actions| - 1;
      var s, t, a := RunFrom(start, actions[..last]), RunFrom(start, actions), actions[last];
      var earlier := StorySoFar(start, actions[..last], i);
      if earlier.Some? then Some(Next(earlier.value, s, t, a, i))
      else if a.CreatesItem? && i !in s.items && i in t.items then Some(Born(s, a))
      else None
  }

  lemma {:induction false} OnlyCreationAdds(s: State, a: Action, i: Id)
    requires Inv(s) && i !in s.items && i in Apply(s, a).items
    ensures a.CreatesItem?
  {
    hide Inv, Quiet, Apply, ItemsOk, PlansOk, DraftsOk;
    InvParts(s);
    if IsQuietAction(a) {
      QuietAction(s, a);
      RecoveryGuarantees.QuietKeys(s, Apply(s, a));
    } else if a.PlansItem? {
      PlansApply(s, a);
      RecoveryGuarantees.PlanningKeepsKeys(s, a.itemId, a.ctx, a.inputs, a.classified, a.key);
    } else if !a.CreatesItem? {
      RecoveryGuarantees.ExecutionKeepsKeys(s, a);
    }
  }

  lemma {:induction false} PlansApply(s: State, a: Action)
    requires a.PlansItem?
    ensures Apply(s, a) == PlanItem(s, a.itemId, a.ctx, a.inputs, a.classified, a.key).0
  {
    hide PlanItem;
  }

  /** In every run, an item shows exactly what the run's actions made of it: the edits, the
      corrections, the plans, the executions and their verdicts, each in its turn. */
  lemma {:induction false} ItemTellsItsStory(start: State, actions: seq<Action>, i: Id)
    requires Initial(start)
    ensures i in RunFrom(start, actions).items <==> StorySoFar(start, actions, i).Some?
    ensures i in RunFrom(start, actions).items ==>
              StorySoFar(start, actions, i) == Some(StoryOf(RunFrom(start, actions).items[i]))
  {
    hide Inv, Evolves, Apply, Next, Born, StoryOf;
    InitialInv(start);
    if actions != [] {
      var last := |actions| - 1;
      var before, a := RunFrom(start, actions[..last]), actions[last];
      RunKeepsInv(start, actions[..last]);
      ItemTellsItsStory(start, actions[..last], i);
      if i in before.items {
        ActionContinues(before, a, i);
      } else if i in RunFrom(start, actions).items {
        OnlyCreationAdds(before, a, i);
        InvParts(before);
        CreatingContinues(before, a, i);
      }
    }
  }
}
