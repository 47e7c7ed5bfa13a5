/** Which actions of a run touch the documents, the reservations and the log of tool calls. */
module Frames {
  import opened Basics
  import opened Documents
  import opened Models
  import opened Protocol
  import opened Invariant
  import opened QuietOperations
  import opened Evolution
  import opened Runs
  import Creation
  import Planner
  import RequestIdentity
  import Starting

  predicate SameWorld(s: State, t: State) {
    t.attempts == s.attempts && t.calls == s.calls && t.documents == s.documents
  }

  lemma {:induction false} EditingKeepsWorld(s: State, a: Action)
    requires a.EditsItem? || a.AsksCorrection? || a.SubmitsCorrection? || a.EscalatesItem?
    ensures SameWorld(s, Apply(s, a)) && Apply(s, a).approvals == s.approvals
  {
    hide FanOut, EditedItem, RequestIdentity.Strip, CreateItem, PlanItem, Reserve, Renew, MarkUnknown, Finalize,
         Reconcile, RegenerateDraft, Approve, Reject, Starting.CallTool;
  }

  lemma {:induction false} CreatingKeepsWorld(s: State, a: Action)
    requires a.CreatesItem? || a.PlansItem?
    ensures SameWorld(s, Apply(s, a)) && (a.CreatesItem? ==> Apply(s, a).approvals == s.approvals)
  {
    hide FanOut, FindItemByKey, FindPlanByKey, RequestIdentity.NormalizedKey, PlanResultFor, StoredReply, Planner.Steps,
         Planner.Escalates, Planner.WorkTypeFor, DraftRows, ApprovalRows, StepEvents, Reserve, Renew, MarkUnknown,
         Finalize, Reconcile, RegenerateDraft, Approve, Reject, UpdateItem, RequestCorrection, SubmitCorrection,
         Escalate, Starting.CallTool;
  }

  lemma {:induction false} DecidingKeepsWorld(s: State, a: Action)
    requires a.RegeneratesDraft? || a.Approves? || a.Rejects?
    ensures SameWorld(s, Apply(s, a)) && (a.RegeneratesDraft? ==> Apply(s, a).approvals == s.approvals)
  {
    hide FanOut, FindApproval, FindDraft, CreateItem, PlanItem, Reserve, Renew, MarkUnknown, Finalize, Reconcile,
         UpdateItem, RequestCorrection, SubmitCorrection, Escalate, Starting.CallTool, Decided;
    if (a.Approves? || a.Rejects?) && FindApproval(s.approvals, a.approvalId).Some? {
      var n := FindApproval(s.approvals, a.approvalId).value;
      var approval := s.approvals[n];
      DecisionTouches(s, n, approval.Approve(a.ctx.actor, a.reviewNotes, s.clock), approval.status, ApprovalApproved,
                        a.ctx);
      DecisionTouches(s, n, approval.Reject(a.ctx.actor, a.reviewNotes, s.clock), approval.status, ApprovalRejected,
                        a.ctx);
    }
  }

  lemma {:induction false} HoldingKeepsWorld(s: State, a: Action)
    requires a.Renews? || a.MarksUnknown?
    ensures SameWorld(s, Apply(s, a)) && Apply(s, a).approvals == s.approvals
  {
    hide FanOut, Held, ReservationMatches, CreateItem, PlanItem, Reserve, Finalize, Reconcile, RegenerateDraft, Approve,
         Reject, UpdateItem, RequestCorrection, SubmitCorrection, Escalate, Starting.CallTool;
  }

  lemma {:induction false} SettlingKeepsWorld(s: State, a: Action)
    requires a.Finalizes? || a.Reconciles?
    ensures SameWorld(s, Apply(s, a)) && Apply(s, a).approvals == s.approvals
  {
    hide FanOut, Held, FindStep, PlanContainingStep, Reconcilable, TargetMatches, ReservationMatches, HasWords,
         CreateItem, PlanItem, Reserve, Renew, MarkUnknown, RegenerateDraft, Approve, Reject, UpdateItem,
         RequestCorrection, SubmitCorrection, Escalate, Starting.CallTool;
  }

  /** A reservation that goes through is noted under the token it draws. */
  lemma {:induction false} ReservingNotes(s: State, itemId: Id, stepId: Id, ctx: SecurityContext)
    ensures var (t, reply) := Reserve(s, itemId, stepId, ctx);
            && t.calls == s.calls && t.documents == s.documents && t.approvals == s.approvals
            && (if reply.Ok? && reply.value.Granted? then
                  && reply.value.reservation.token == s.nextId && t.nextId == s.nextId + 1
                  && t.attempts == s.attempts[s.nextId := Attempt(reply.value.reservation, false)]
                else t == s)
  {
    hide FanOut, FindStep, ExecutionCheck;
  }

  /** Only reservations, tool calls and the documents' own moves touch any of it. */
  lemma {:induction false} OthersKeepWorld(s: State, a: Action)
    requires !(a.Reserves? || a.CallsTool? || a.DocumentArrives? || a.DocumentMoves?)
    ensures SameWorld(s, Apply(s, a))
    ensures !(a.PlansItem? || a.Approves? || a.Rejects?) ==> Apply(s, a).approvals == s.approvals
  {
    hide Apply, SameWorld;
    match a {
      case EditsItem(_, _, _, _, _, _, _) => EditingKeepsWorld(s, a);
      case AsksCorrection(_, _, _) => EditingKeepsWorld(s, a);
      case SubmitsCorrection(_, _, _) => EditingKeepsWorld(s, a);
      case EscalatesItem(_, _) => EditingKeepsWorld(s, a);
      case CreatesItem(_, _, _, _, _, _) => CreatingKeepsWorld(s, a);
      case PlansItem(_, _, _, _, _) => CreatingKeepsWorld(s, a);
      case RegeneratesDraft(_, _, _) => DecidingKeepsWorld(s, a);
      case Approves(_, _, _) => DecidingKeepsWorld(s, a);
      case Rejects(_, _, _) => DecidingKeepsWorld(s, a);
      case Renews(_, _) => HoldingKeepsWorld(s, a);
      case MarksUnknown(_, _) => HoldingKeepsWorld(s, a);
      case Finalizes(_, _, _) => SettlingKeepsWorld(s, a);
      case Reconciles(_, _, _, _, _) => SettlingKeepsWorld(s, a);
      case TimePasses(elapsed) => TimeKeepsWorld(s, elapsed);
    }
  }

  lemma {:induction false} TimeKeepsWorld(s: State, elapsed: nat)
    ensures SameWorld(s, Apply(s, TimePasses(elapsed))) && Apply(s, TimePasses(elapsed)).approvals == s.approvals
  {
    hide CreateItem, PlanItem, Reserve, Renew, MarkUnknown, Finalize, Reconcile, UpdateItem, RequestCorrection,
         SubmitCorrection, Escalate, RegenerateDraft, Approve, Reject, Starting.CallTool;
  }

  // ------------------------------------------------------------ reservations and calls

  /** Only a reservation that goes through adds an attempt. */
  lemma {:induction false} NewAttemptIsReserved(s: State, a: Action, token: Id)
    requires token !in s.attempts && token in Apply(s, a).attempts
    ensures a.Reserves? && token == s.nextId
    ensures Reserve(s, a.itemId, a.stepId, a.ctx).1 == Ok(Granted(Apply(s, a).attempts[token].reservation))
  {
    hide Apply, Reserve;
    match a {
      case Reserves(itemId, stepId, ctx) =>
        ReservingApplies(s, itemId, stepId, ctx);
        ReservingNotes(s, itemId, stepId, ctx);
      case CallsTool(called) => CallingApplies(s, called);
      case DocumentArrives(_, _) => DocumentsMoveAlone(s, a);
      case DocumentMoves(_, _) => DocumentsMoveAlone(s, a);
      case _ => OthersKeepWorld(s, a);
    }
  }

  /** Only a call by a holder that has not called yet is logged. */
  lemma {:induction false} NewCallIsMade(s: State, a: Action)
    requires Apply(s, a).calls != s.calls
    ensures a.CallsTool? && a.token in s.attempts && !s.attempts[a.token].called
    ensures Apply(s, a).calls == s.calls + [s.attempts[a.token].reservation]
  {
    hide Apply, Reserve;
    match a {
      case Reserves(itemId, stepId, ctx) =>
        ReservingApplies(s, itemId, stepId, ctx);
        ReservingNotes(s, itemId, stepId, ctx);
      case CallsTool(called) => CallingApplies(s, called);
      case DocumentArrives(_, _) => DocumentsMoveAlone(s, a);
      case DocumentMoves(_, _) => DocumentsMoveAlone(s, a);
      case _ => OthersKeepWorld(s, a);
    }
  }

  /** An attempt is touched by its holder's call alone. */
  lemma {:induction false} OthersKeepAttempt(s: State, a: Action, token: Id)
    requires AttemptsOk(s) && token in s.attempts && a != CallsTool(token)
    ensures token in Apply(s, a).attempts && Apply(s, a).attempts[token] == s.attempts[token]
  {
    hide Apply, Reserve, AttemptsOk;
    Starting.FreshToken(s);
    match a {
      case Reserves(itemId, stepId, ctx) =>
        ReservingApplies(s, itemId, stepId, ctx);
        ReservingNotes(s, itemId, stepId, ctx);
      case CallsTool(called) => CallingApplies(s, called);
      case DocumentArrives(_, _) => DocumentsMoveAlone(s, a);
      case DocumentMoves(_, _) => DocumentsMoveAlone(s, a);
      case _ => OthersKeepWorld(s, a);
    }
  }

  /** Whatever others do, a holder that has not called the tool has not called it. */
  lemma {:induction false} OthersLeaveUncalled(s: State, others: seq<Action>, token: Id)
    requires Inv(s) && token in s.attempts && CallsTool(token) !in others
    ensures token in RunFrom(s, others).attempts && RunFrom(s, others).attempts[token] == s.attempts[token]
  {
    hide Inv, Apply, Evolves;
    if others != [] {
      var last := |others| - 1;
      var before := RunFrom(s, others[..last]);
      assert forall a :: a in others[..last] ==> a in others;
      OthersLeaveUncalled(s, others[..last], token);
      RunKeepsInv(s, others[..last]);
      AttemptsPart(before);
      OthersKeepAttempt(before, others[last], token);
    }
  }

  lemma {:induction false} AttemptsPart(s: State)
    requires Inv(s)
    ensures AttemptsOk(s)
  {
  }

  // ------------------------------------------------------------ documents

  /** One action moves the status of a document as the transition table allows, and only an
      action that names the document does. */
  lemma {:induction false} DocumentSteps(s: State, a: Action, d: Id)
    requires d in s.documents
    ensures var t := Apply(s, a);
            d in t.documents
            && t.documents[d] == (if a.DocumentMoves? && a.documentId == d && Transition(s.documents[d], a.target).Ok?
                                  then Transition(s.documents[d], a.target).value else s.documents[d])
  {
    hide Apply, Reserve;
    match a {
      case Reserves(itemId, stepId, ctx) =>
        ReservingApplies(s, itemId, stepId, ctx);
        ReservingNotes(s, itemId, stepId, ctx);
      case CallsTool(called) => CallingApplies(s, called);
      case DocumentArrives(_, _) => MovingApplies(s, a);
      case DocumentMoves(_, _) => MovingApplies(s, a);
      case _ => OthersKeepWorld(s, a);
    }
  }

  /** An exported document stays exported. */
  lemma {:induction false} ExportedStays(s: State, actions: seq<Action>, d: Id)
    requires d in s.documents && s.documents[d].status == DocumentExported
    ensures var t := RunFrom(s, actions); d in t.documents && t.documents[d] == s.documents[d]
  {
    hide Apply;
    if actions != [] {
      var last := |actions| - 1;
      ExportedStays(s, actions[..last], d);
      DocumentSteps(RunFrom(s, actions[..last]), actions[last], d);
    }
  }

  /** An approved document is exported by the first action that says so, and by nothing else;
      until then it stays approved. */
  lemma {:induction false} ApprovedUntilExported(s: State, actions: seq<Action>, d: Id)
    requires d in s.documents && s.documents[d].status == DocumentApproved
    ensures var t := RunFrom(s, actions);
            d in t.documents
            && t.documents[d] == s.documents[d].(status := if DocumentMoves(d, DocumentExported) in actions
                                                           then DocumentExported else DocumentApproved)
  {
    hide Apply;
    if actions != [] {
      var last := |actions| - 1;
      ApprovedUntilExported(s, actions[..last], d);
      assert actions == actions[..last] + [actions[last]];
      DocumentSteps(RunFrom(s, actions[..last]), actions[last], d);
    }
  }

  // ------------------------------------------------------------ decisions on approvals

  /** The action decides the approval in the name of its caller. */
  predicate Decides(s: State, a: Action, before: Approval, after: Approval) {
    && before.status == Pending && (a.Approves? || a.Rejects?)
    && a.approvalId == before.id && a.ctx.workspace == before.workspace
    && after == before.Reviewed(if a.Approves? then Approved else Rejected, a.ctx.actor, a.reviewNotes, s.clock)
  }

  lemma {:induction false} DecidingDecides(s: State, a: Action, n: nat)
    requires (a.Approves? || a.Rejects?) && n < |s.approvals|
    ensures var t := Apply(s, a);
            |t.approvals| == |s.approvals|
            && (t.approvals[n] == s.approvals[n] || Decides(s, a, s.approvals[n], t.approvals[n]))
  {
    hide FanOut, FindDraft, CreateItem, PlanItem, Reserve, Renew, MarkUnknown, Finalize, Reconcile, UpdateItem,
         RequestCorrection, SubmitCorrection, Escalate, RegenerateDraft, Starting.CallTool, Decided;
    var found := FindApproval(s.approvals, a.approvalId);
    if found.Some? {
      var approval := s.approvals[found.value];
      DecisionTouches(s, found.value, approval.Approve(a.ctx.actor, a.reviewNotes, s.clock), approval.status,
                        ApprovalApproved, a.ctx);
      DecisionTouches(s, found.value, approval.Reject(a.ctx.actor, a.reviewNotes, s.clock), approval.status,
                        ApprovalRejected, a.ctx);
    }
  }

  lemma {:induction false} PlanningRequests(s: State, a: Action)
    requires Inv(s) && a.PlansItem?
    ensures var t := Apply(s, a);
            && |s.approvals| <= |t.approvals|
            && (forall n :: 0 <= n < |s.approvals| ==> t.approvals[n] == s.approvals[n])
            && forall n :: |s.approvals| <= n < |t.approvals| ==> t.approvals[n].status == Pending
  {
    hide Inv, Creation.PlanAdded, PlanItem, CreateItem, Reserve, Renew, MarkUnknown, Finalize, Reconcile, UpdateItem,
         RequestCorrection, SubmitCorrection, Escalate, RegenerateDraft, Approve, Reject, Starting.CallTool,
         RequestIdentity.NormalizedKey;
    InvParts(s);
    Creation.PlanningAdds(s, a.itemId, a.ctx, a.inputs, a.classified, a.key);
    var t := Apply(s, a);
    if t != s {
      Creation.NewApprovals(s, t, s.items[a.itemId], RequestIdentity.NormalizedKey(a.key).value);
    }
  }

  /** An action changes an approval only by deciding it, and requests new ones as pending. */
  lemma {:induction false} ApprovalSteps(s: State, a: Action, n: nat)
    requires Inv(s) && n < |Apply(s, a).approvals|
    ensures var t := Apply(s, a);
            if n < |s.approvals|
            then t.approvals[n] == s.approvals[n] || Decides(s, a, s.approvals[n], t.approvals[n])
            else t.approvals[n].status == Pending
  {
    hide Inv, Apply, Reserve, Decides;
    match a {
      case Reserves(itemId, stepId, ctx) =>
        ReservingApplies(s, itemId, stepId, ctx);
        ReservingNotes(s, itemId, stepId, ctx);
      case CallsTool(called) => CallingApplies(s, called);
      case DocumentArrives(_, _) => DocumentsMoveAlone(s, a);
      case DocumentMoves(_, _) => DocumentsMoveAlone(s, a);
      case PlansItem(_, _, _, _, _) => PlanningRequests(s, a);
      case Approves(_, _, _) => ApprovalsKeepTheirPlaces(s, a, n);
      case Rejects(_, _, _) => ApprovalsKeepTheirPlaces(s, a, n);
      case _ => OthersKeepWorld(s, a);
    }
  }

  lemma {:induction false} ApprovalsStayAsMany(s: State, a: Action)
    requires a.Approves? || a.Rejects?
    ensures |Apply(s, a).approvals| == |s.approvals|
  {
    hide Apply, Decides;
    if s.approvals != [] {
      DecidingDecides(s, a, 0);
    } else {
      NothingToDecide(s, a);
    }
  }

  lemma {:induction false} NothingToDecide(s: State, a: Action)
    requires (a.Approves? || a.Rejects?) && s.approvals == []
    ensures Apply(s, a) == s
  {
    hide FanOut, FindDraft, CreateItem, PlanItem, Reserve, Renew, MarkUnknown, Finalize, Reconcile, UpdateItem,
         RequestCorrection, SubmitCorrection, Escalate, RegenerateDraft, Starting.CallTool, Decided;
  }

  lemma {:induction false} ApprovalsKeepTheirPlaces(s: State, a: Action, n: nat)
    requires (a.Approves? || a.Rejects?) && n < |Apply(s, a).approvals|
    ensures n < |s.approvals|
    ensures Apply(s, a).approvals[n] == s.approvals[n] || Decides(s, a, s.approvals[n], Apply(s, a).approvals[n])
  {
    hide Apply, Decides;
    ApprovalsStayAsMany(s, a);
    DecidingDecides(s, a, n);
  }
}
