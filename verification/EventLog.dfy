/** Counting the execution events of one work item. */
module EventLog {
  import opened Basics
  import opened Models
  import opened Protocol

  /** +1 for an execution that started, -1 for one that got its verdict. */
  function Weight(kind: EventKind): int {
    match kind
    case ExecutionStarted => 1
    case ActionExecuted => -1
    case ActionFailed => -1
    case ReconciledSucceeded => -1
    case ReconciledFailed => -1
    case _ => 0
  }

  /** Started events minus verdict events of one item. */
  function Balance(events: seq<Event>, itemId: Id): int {
    if events == [] then 0
    else
      var last := events[|events| - 1];
      Balance(events[..|events| - 1], itemId) + if last.itemId == itemId then Weight(last.kind) else 0
  }

  /** How many events one record_event call adds. */
  function FanWidth(item: WorkItem): nat {
    if item.linkedDocuments == [] then 1 else |item.linkedDocuments|
  }

  lemma {:induction false} BalanceAppend(a: seq<Event>, b: seq<Event>, itemId: Id)
    ensures Balance(a + b, itemId) == Balance(a, itemId) + Balance(b, itemId)
  {
    if b == [] {
      assert a + b == a;
    } else {
      BalanceAppend(a, b[..|b| - 1], itemId);
      assert (a + b)[..|a + b| - 1] == a + b[..|b| - 1];
    }
  }

  lemma {:induction false} BalanceOfDocumentEvents(itemId: Id, documents: seq<Id>, kind: EventKind, other: Id)
    ensures |DocumentEvents(itemId, documents, kind)| == |documents|
    ensures forall n :: 0 <= n < |documents| ==>
              DocumentEvents(itemId, documents, kind)[n] == Event(itemId, Some(documents[n]), kind)
    ensures Balance(DocumentEvents(itemId, documents, kind), other)
            == if other == itemId then |documents| * Weight(kind) else 0
  {
    if documents != [] {
      var last := |documents| - 1;
      BalanceOfDocumentEvents(itemId, documents[..last], kind, other);
      var events := DocumentEvents(itemId, documents, kind);
      assert events[..|events| - 1] == DocumentEvents(itemId, documents[..last], kind);
      assert (last + 1) * Weight(kind) == last * Weight(kind) + Weight(kind);
    }
  }

  /** One record_event call moves the item's balance by the width of its fan-out, and no other item's. */
  lemma {:induction false} BalanceOfFanOut(config: Config, item: WorkItem, kind: EventKind, other: Id)
    ensures config.recordsEvents ==>
              Balance(FanOut(config, item, kind), other)
              == if other == item.id then FanWidth(item) * Weight(kind) else 0
    ensures forall n :: 0 <= n < |FanOut(config, item, kind)| ==>
              FanOut(config, item, kind)[n].itemId == item.id && FanOut(config, item, kind)[n].kind == kind
  {
    BalanceOfDocumentEvents(item.id, item.linkedDocuments, kind, other);
    var single := Event(item.id, None, kind);
    assert [single][..0] == [];
    assert Balance([single], other) == if other == item.id then Weight(kind) else 0;
  }

  /** Events about one item that neither start nor settle an execution. */
  ghost predicate Neutral(events: seq<Event>, itemId: Id) {
    forall n :: 0 <= n < |events| ==> events[n].itemId == itemId && Weight(events[n].kind) == 0
  }

  lemma {:induction false} NeutralBalance(events: seq<Event>, itemId: Id, other: Id)
    requires Neutral(events, itemId)
    ensures Balance(events, other) == 0
  {
    if events != [] {
      NeutralBalance(events[..|events| - 1], itemId, other);
    }
  }

  lemma {:induction false} StepEventsAreNeutral(config: Config, item: WorkItem, steps: seq<ActionStep>)
    ensures Neutral(StepEvents(config, item, steps), item.id)
  {
    if steps != [] {
      StepEventsAreNeutral(config, item, steps[..|steps| - 1]);
      BalanceOfFanOut(config, item, DraftCreated, item.id);
      BalanceOfFanOut(config, item, ApprovalRequested, item.id);
    }
  }
}
