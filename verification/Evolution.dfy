/** What no transaction ever takes back: records stay, a step only moves forward, and the
    logs only grow. */
module Evolution {
  import opened Basics
  import opened Models
  import opened Protocol
  import opened Invariant
  import Planner
  import Settling
  import Starting
  import Creation

  /** A step may be started, and a started one gets one of two verdicts. A blocked step
      and a verdict are final. */
  predicate StatusEvolves(a: ActionStepStatus, b: ActionStepStatus) {
    || b == a
    || (a == Executing && (b == Executed || b == Failed))
    || (!Planner.Started(a) && a != Blocked && Planner.Started(b))
  }

  ghost predicate StepEvolves(a: ActionStep, b: ActionStep) {
    && b.id == a.id && b.action == a.action && b.requiresApproval == a.requiresApproval
    && StatusEvolves(a.status, b.status)
  }

  ghost predicate PlanEvolves(a: TaskPlan, b: TaskPlan) {
    && b == a.(steps := b.steps)
    && |b.steps| == |a.steps|
    && forall k :: 0 <= k < |a.steps| ==> StepEvolves(a.steps[k], b.steps[k])
  }

  ghost predicate ItemEvolves(a: WorkItem, b: WorkItem) {
    && b.id == a.id && b.workspace == a.workspace && b.linkedDocuments == a.linkedDocuments
    && b.idempotencyKey == a.idempotencyKey && b.fingerprint == a.fingerprint
  }

  predicate AttemptEvolves(a: Attempt, b: Attempt) {
    b.reservation == a.reservation && (a.called ==> b.called)
  }

  ghost predicate Evolves(s: State, t: State) {
    && t.config == s.config && s.clock <= t.clock && s.nextId <= t.nextId
    && (forall i :: i in s.items ==> i in t.items && ItemEvolves(s.items[i], t.items[i]))
    && (forall p :: p in s.plans ==> p in t.plans && PlanEvolves(s.plans[p], t.plans[p]))
    && |s.approvals| <= |t.approvals|
    && (forall a :: 0 <= a < |s.approvals| ==> SameRequest(s.approvals[a], t.approvals[a]))
    && (forall a :: |s.approvals| <= a < |t.approvals| ==> t.approvals[a].stepId >= s.nextId)
    && (forall u :: u in s.attempts ==> u in t.attempts && AttemptEvolves(s.attempts[u], t.attempts[u]))
    && s.drafts <= t.drafts && s.events <= t.events && s.runs <= t.runs && s.calls <= t.calls
  }

  /** A step is found where it was as long as the identifiers stay. */
  lemma {:induction false} FindStepAgrees(a: seq<ActionStep>, b: seq<ActionStep>, stepId: Id)
    requires |a| == |b| && forall k :: 0 <= k < |a| ==> a[k].id == b[k].id
    ensures FindStep(a, stepId) == FindStep(b, stepId)
  {
    var x, y := FindStep(a, stepId), FindStep(b, stepId);
    if x.Some? && y.Some? {
      assert a[y.value].id == b[y.value].id && a[x.value].id == b[x.value].id;
    }
  }

  lemma {:induction false} EvolvesIsReflexive(s: State)
    ensures Evolves(s, s)
  {
  }

  lemma {:induction false} EvolvesIsTransitive(s: State, t: State, u: State)
    requires Evolves(s, t) && Evolves(t, u)
    ensures Evolves(s, u)
  {
    forall p | p in s.plans ensures p in u.plans && PlanEvolves(s.plans[p], u.plans[p]) {
      assert PlanEvolves(s.plans[p], t.plans[p]) && PlanEvolves(t.plans[p], u.plans[p]);
      forall k | 0 <= k < |s.plans[p].steps| ensures StepEvolves(s.plans[p].steps[k], u.plans[p].steps[k]) {
        assert StepEvolves(s.plans[p].steps[k], t.plans[p].steps[k]);
      }
    }
    forall a | 0 <= a < |s.approvals| ensures SameRequest(s.approvals[a], u.approvals[a]) {
      assert SameRequest(s.approvals[a], t.approvals[a]) && SameRequest(t.approvals[a], u.approvals[a]);
    }
    forall a | |s.approvals| <= a < |u.approvals| ensures u.approvals[a].stepId >= s.nextId {
      if a < |t.approvals| {
        assert SameRequest(t.approvals[a], u.approvals[a]);
      }
    }
  }

  lemma {:induction false} QuietEvolves(s: State, t: State)
    requires Quiet(s, t)
    ensures Evolves(s, t)
  {
    QuietEventsKeepBalance(s, t, 0);
    forall i | i in s.items ensures ItemEvolves(s.items[i], t.items[i]) {
      assert SameExecution(s.items[i], t.items[i], t.clock);
    }
  }

  lemma {:induction false} CreatedEvolves(s: State, t: State, item: WorkItem)
    requires Creation.Created(s, t, item) && ItemsOk(s)
    ensures Evolves(s, t)
  {
  }

  lemma {:induction false} PlanAddedEvolves(s: State, t: State, item: WorkItem, key: Option<string>)
    requires Creation.PlanAdded(s, t, item, key) && ItemsOk(s) && PlansOk(s)
    ensures Evolves(s, t)
  {
    Creation.NewPlanIsNew(s);
    Creation.NewApprovals(s, t, item, key);
    QuietEventsKeepBalance(s, t, 0);
  }

  lemma {:induction false} StartEvolves(s: State, i: Id, p: Id, k: nat)
    requires ItemsOk(s) && AttemptsOk(s) && Starting.Startable(s, i, p, k) && PlanOk(s, p)
    ensures Evolves(s, Starting.After(s, i, p, k))
  {
    hide FanOut;
    Starting.FreshToken(s);
  }

  lemma {:induction false} SettleEvolves(s: State, i: Id, p: Id, k: nat, succeeded: bool, kind: EventKind)
    requires ItemsOk(s) && Running(s, i, p, k) && PlanOk(s, p)
    ensures Evolves(s, Settling.After(s, i, p, k, succeeded, kind))
  {
  }

  lemma {:induction false} CallEvolves(s: State, token: Id)
    ensures Evolves(s, Starting.CallTool(s, token))
  {
  }
}
