/** The repositories of the workflow as the services share them (repositories.py): records
    under their identifiers in insertion order, logs that only grow, and the clock. */
module Ledgers {
  import opened Basics
  import opened Documents
  import opened Models
  import opened Protocol
  import opened Runs

  /** Records are stored under their own identifiers, and the orders list the keys. */
  ghost predicate Keyed(s: State) {
    && (forall i :: i in s.items ==> s.items[i].id == i && i < s.nextId)
    && (forall p :: p in s.plans ==> s.plans[p].id == p && p < s.nextId)
    && (forall i :: i in s.items <==> i in s.itemOrder)
    && (forall p :: p in s.plans <==> p in s.planOrder)
  }

  class Ledger {
    const config: Config
    var items: map<Id, WorkItem>
    var itemOrder: seq<Id>
    var plans: map<Id, TaskPlan>
    var planOrder: seq<Id>
    var approvals: seq<Approval>
    var drafts: seq<ActionDraft>
    var documents: map<Id, Document>
    var events: seq<Event>
    var runs: seq<AgentRun>
    var clock: Time
    var nextId: Id
    ghost var attempts: map<Id, Attempt>
    ghost var calls: seq<Reservation>

    ghost function View(): State
      reads this
    {
      State(config, items, itemOrder, plans, planOrder, approvals, drafts, documents, events, runs, clock, nextId,
            attempts, calls)
    }

    ghost predicate Valid()
      reads this
    {
      Keyed(View())
    }

    constructor (config: Config, documents: map<Id, Document>, clock: Time)
      ensures Valid() && Initial(View()) && Reachable(View())
      ensures View().config == config && View().documents == documents && View().clock == clock
    {
      this.config := config;
      items, itemOrder, plans, planOrder, approvals, drafts := map[], [], map[], [], [], [];
      this.documents, events, runs, this.clock, nextId := documents, [], [], clock, 0;
      attempts, calls := map[], [];
      new;
      assert View() == RunFrom(View(), []);
    }

    /** Between two transactions of one caller, any number of others may commit theirs. They
        take no action that is the caller's alone. */
    method Interfere(ghost mine: Action) returns (ghost others: seq<Action>)
      requires Valid()
      modifies this
      ensures Valid() && View() == RunFrom(old(View()), others) && mine !in others
    {
      others := [];
    }

    /** `uuid4()` */
    method NewId() returns (id: Id)
      requires Valid()
      modifies this`nextId
      ensures Valid()
      ensures id !in plans && id !in items
      ensures id == old(nextId) && View() == old(View()).(nextId := id + 1)
    {
      id := nextId;
      nextId := nextId + 1;
    }

    method NewIds(count: nat)
      requires Valid()
      modifies this`nextId
      ensures Valid()
      ensures nextId == old(nextId) + count
    {
      var n := 0;
      while n < count
        invariant Valid() && 0 <= n <= count && nextId == old(nextId) + n
      {
        var id := NewId();
        n := n + 1;
      }
    }

    method SaveWorkItem(item: WorkItem)
      requires Valid() && item.id < nextId
      modifies this`items, this`itemOrder
      ensures Valid()
      ensures View() == old(View()).(items := old(items)[item.id := item],
                                     itemOrder := if item.id in old(items) then old(itemOrder)
                                                  else old(itemOrder) + [item.id])
    {
      if item.id !in items {
        itemOrder := itemOrder + [item.id];
      }
      items := items[item.id := item];
    }

    method SavePlan(plan: TaskPlan)
      requires Valid() && plan.id < nextId
      modifies this`plans, this`planOrder
      ensures Valid()
      ensures View() == old(View()).(plans := old(plans)[plan.id := plan],
                                     planOrder := if plan.id in old(plans) then old(planOrder)
                                                  else old(planOrder) + [plan.id])
    {
      if plan.id !in plans {
        planOrder := planOrder + [plan.id];
      }
      plans := plans[plan.id := plan];
    }

    method AddRun(run: AgentRun)
      requires Valid()
      modifies this`runs
      ensures Valid() && View() == old(View()).(runs := old(runs) + [run])
    {
      runs := runs + [run];
    }

    method AddDraft(draft: ActionDraft)
      requires Valid()
      modifies this`drafts
      ensures Valid() && View() == old(View()).(drafts := old(drafts) + [draft])
    {
      drafts := drafts + [draft];
    }

    method AddApproval(approval: Approval)
      requires Valid()
      modifies this`approvals
      ensures Valid() && View() == old(View()).(approvals := old(approvals) + [approval])
    {
      approvals := approvals + [approval];
    }

    /** What a holder keeps in its own memory, noted for the record. */
    ghost method NoteAttempt(token: Id, attempt: Attempt)
      requires Valid()
      modifies this`attempts
      ensures Valid() && View() == old(View()).(attempts := old(attempts)[token := attempt])
    {
      attempts := attempts[token := attempt];
    }

    /** A plan and an item that are stored already are both written back. */
    method SaveBoth(plan: TaskPlan, item: WorkItem)
      requires Valid() && plan.id in plans && item.id in items
      modifies this`plans, this`planOrder, this`items, this`itemOrder
      ensures Valid()
      ensures View() == old(View()).(plans := old(plans)[plan.id := plan], items := old(items)[item.id := item])
    {
      SavePlan(plan);
      SaveWorkItem(item);
    }

    /** One event per linked document, or one without a document (services.py `_record_event`). */
    method RecordEvent(item: WorkItem, kind: EventKind)
      requires Valid()
      modifies this`events
      ensures Valid()
      ensures View() == Recorded(old(View()), item, kind)
    {
      if !config.recordsEvents {
        assert events == old(events) + [];
        return;
      }
      if item.linkedDocuments == [] {
        events := events + [Event(item.id, None, kind)];
        return;
      }
      var n := 0;
      while n < |item.linkedDocuments|
        invariant 0 <= n <= |item.linkedDocuments|
        invariant events == old(events) + DocumentEvents(item.id, item.linkedDocuments[..n], kind)
      {
        events := events + [Event(item.id, Some(item.linkedDocuments[n]), kind)];
        assert item.linkedDocuments[..n + 1][..n] == item.linkedDocuments[..n];
        n := n + 1;
      }
      assert item.linkedDocuments[..n] == item.linkedDocuments;
    }

    /** The work item, if it belongs to the caller's workspace. */
    method WorkItemFor(itemId: Id, ctx: SecurityContext) returns (r: Result<WorkItem>)
      ensures r == ItemFor(View(), itemId, ctx)
    {
      if itemId !in items {
        return Raised(NotFound);
      }
      if items[itemId].workspace != ctx.workspace {
        return Raised(NotFound);
      }
      return Ok(items[itemId]);
    }

    /** `_find_step`: the first step with the identifier. */
    method StepIndex(steps: seq<ActionStep>, stepId: Id) returns (r: Option<nat>)
      ensures r == FindStep(steps, stepId)
    {
      for n := 0 to |steps|
        invariant forall j :: 0 <= j < n ==> steps[j].id != stepId
      {
        if steps[n].id == stepId {
          var found := FindStep(steps, stepId);
          assert found.Some? && steps[found.value].id == steps[n].id;
          return Some(n);
        }
      }
      assert FindStep(steps, stepId).None?;
      return None;
    }
  }
}
