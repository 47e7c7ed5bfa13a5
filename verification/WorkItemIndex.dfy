/** Two stores of work items: dictionaries in memory (repositories.py), and SQLite tables
    with a join table that indexes the linked documents (sqlite_repositories.py). */
module WorkItemIndex {
  import opened Basics
  import opened Models

  predicate Links(item: WorkItem, workspace: string, document: Id) {
    item.workspace == workspace && document in item.linkedDocuments
  }

  predicate NoRepeats(documents: seq<Id>) {
    forall j, k :: 0 <= j < k < |documents| ==> documents[j] != documents[k]
  }

  // ------------------------------------------------------------ in memory

  /** A candidate replaces the item kept so far only when it is strictly newer. */
  function Newer(kept: Option<WorkItem>, item: WorkItem): Option<WorkItem> {
    if kept.None? || item.updatedAt > kept.value.updatedAt then Some(item) else kept
  }

  /** Which item of the first `n` the scan has kept for a document. */
  function Scan(records: map<Id, WorkItem>, order: seq<Id>, n: nat, workspace: string, document: Id)
    : (r: Option<WorkItem>)
    requires n <= |order| && forall k :: 0 <= k < n ==> order[k] in records
  {
    if n == 0 then None
    else
      var kept := Scan(records, order, n - 1, workspace, document);
      var item := records[order[n - 1]];
      if Links(item, workspace, document) then Newer(kept, item) else kept
  }

  function Kept(latest: map<Id, WorkItem>, document: Id): Option<WorkItem> {
    if document in latest then Some(latest[document]) else None
  }

  class InMemoryWorkItems {
    var records: map<Id, WorkItem>
    var order: seq<Id>

    ghost predicate Valid()
      reads this
    {
      && (forall i :: i in records <==> i in order)
      && (forall i :: i in records ==> records[i].id == i)
      && (forall j, k :: 0 <= j < k < |order| ==> order[j] != order[k])
    }

    constructor ()
      ensures Valid() && records == map[] && order == []
    {
      records, order := map[], [];
    }

    method Save(item: WorkItem)
      requires Valid()
      modifies this
      ensures Valid() && records == old(records)[item.id := item]
      ensures order == if item.id in old(records) then old(order) else old(order) + [item.id]
    {
      if item.id !in records {
        order := order + [item.id];
      }
      records := records[item.id := item];
    }

    method GetLatestForDocuments(workspace: string, documents: seq<Id>) returns (latest: map<Id, WorkItem>)
      requires Valid()
      ensures forall d :: d in latest ==> d in documents
      ensures forall d :: d in documents ==> Kept(latest, d) == Scan(records, order, |order|, workspace, d)
    {
      latest := map[];
      for n := 0 to |order|
        invariant forall d :: d in latest ==> d in documents
        invariant forall d :: d in documents ==> Kept(latest, d) == Scan(records, order, n, workspace, d)
      {
        if records[order[n]].workspace == workspace {
          latest := Offer(latest, records[order[n]], documents);
        }
      }
    }

    /** The inner loop: the item is offered to each of its requested documents. */
    static method Offer(before: map<Id, WorkItem>, item: WorkItem, documents: seq<Id>)
      returns (latest: map<Id, WorkItem>)
      ensures forall d :: Kept(latest, d) == if d in documents && d in item.linkedDocuments
                                             then Newer(Kept(before, d), item) else Kept(before, d)
    {
      latest := before;
      for k := 0 to |item.linkedDocuments|
        invariant forall d :: Kept(latest, d) == if d in documents && d in item.linkedDocuments[..k]
                                                 then Newer(Kept(before, d), item) else Kept(before, d)
      {
        var document := item.linkedDocuments[k];
        assert item.linkedDocuments[..k + 1] == item.linkedDocuments[..k] + [document];
        if document in documents {
          if document !in latest || item.updatedAt > latest[document].updatedAt {
            latest := latest[document := item];
          }
        }
      }
      assert item.linkedDocuments[..|item.linkedDocuments|] == item.linkedDocuments;
    }
  }

  /** The item at position `n` of the order is the one the scan ends with: strictly newer
      than every earlier candidate, at least as new as every later one. */
  ghost predicate FirstNewest(records: map<Id, WorkItem>, order: seq<Id>, n: nat, workspace: string, document: Id,
                              p: nat)
    requires p < n <= |order| && forall k :: 0 <= k < n ==> order[k] in records
  {
    && Links(records[order[p]], workspace, document)
    && (forall k :: 0 <= k < p && Links(records[order[k]], workspace, document) ==>
          records[order[k]].updatedAt < records[order[p]].updatedAt)
    && (forall k :: p < k < n && Links(records[order[k]], workspace, document) ==>
          records[order[k]].updatedAt <= records[order[p]].updatedAt)
  }

  lemma {:induction false} ScanFindsFirstNewest(records: map<Id, WorkItem>, order: seq<Id>, n: nat, workspace: string,
                                                document: Id) returns (p: nat)
    requires n <= |order| && forall k :: 0 <= k < n ==> order[k] in records
    ensures var found := Scan(records, order, n, workspace, document);
            if found.None? then forall k :: 0 <= k < n ==> !Links(records[order[k]], workspace, document)
            else p < n && found == Some(records[order[p]]) && FirstNewest(records, order, n, workspace, document, p)
  {
    p := 0;
    if n > 0 {
      var q := ScanFindsFirstNewest(records, order, n - 1, workspace, document);
      var kept, item := Scan(records, order, n - 1, workspace, document), records[order[n - 1]];
      p := if Links(item, workspace, document) && (kept.None? || item.updatedAt > kept.value.updatedAt)
           then n - 1 else q;
    }
  }

  // ------------------------------------------------------------ in SQLite

  /** A row of backoffice_work_item_documents. */
  datatype LinkRow = LinkRow(itemId: Id, workspace: string, document: Id, updatedAt: Time)

  /** The row is one that the item's payload stands for. */
  predicate Derived(row: LinkRow, item: WorkItem) {
    row.itemId == item.id && row.updatedAt == item.updatedAt && row.workspace == item.workspace
    && row.document in item.linkedDocuments
  }

  /** The join table holds exactly the rows that the stored payloads stand for. */
  ghost predicate Agrees(payloads: map<Id, WorkItem>, rows: set<LinkRow>) {
    forall row :: row in rows <==> row.itemId in payloads && Derived(row, payloads[row.itemId])
  }

  /** Another item of the workspace has the idempotency key already. */
  predicate KeyTaken(payloads: map<Id, WorkItem>, item: WorkItem) {
    item.idempotencyKey.Some?
    && exists i :: i in payloads && i != item.id && payloads[i].workspace == item.workspace
                   && payloads[i].idempotencyKey == item.idempotencyKey
  }

  /** The order of the ranked lookup: newest first, then by identifier, greatest first. */
  predicate RanksAtOrBelow(a: LinkRow, b: LinkRow) {
    a.updatedAt < b.updatedAt || (a.updatedAt == b.updatedAt && a.itemId <= b.itemId)
  }

  /** The item links a document that has no row in `documents`. */
  predicate LinksUnknown(item: WorkItem, documents: set<Id>) {
    exists k :: 0 <= k < |item.linkedDocuments| && item.linkedDocuments[k] !in documents
  }

  /** When the database refuses to save an item. */
  predicate Refused(payloads: map<Id, WorkItem>, documents: set<Id>, item: WorkItem) {
    KeyTaken(payloads, item) || !NoRepeats(item.linkedDocuments) || LinksUnknown(item, documents)
  }

  class SqliteWorkItems {
    var payloads: map<Id, WorkItem>
    var rows: set<LinkRow>
    /** The identifiers of the rows of `documents`, which the join table refers to. */
    var documents: set<Id>

    ghost predicate Valid()
      reads this
    {
      && (forall i :: i in payloads ==> payloads[i].id == i)
      && Agrees(payloads, rows)
    }

    constructor (documents: set<Id>)
      ensures Valid() && payloads == map[] && this.documents == documents
    {
      payloads, rows := map[], {};
      this.documents := documents;
    }

    /** Upsert the payload, delete the item's rows, insert its rows again, all in one
        transaction. A key in use violates the unique index, a document linked twice the
        primary key of the join table, and an unknown document its foreign key; in each case
        everything is rolled back. */
    method Save(item: WorkItem) returns (r: Result<WorkItem>)
      requires Valid()
      modifies this`payloads, this`rows
      ensures Valid()
      ensures r.Raised? <==> Refused(old(payloads), documents, item)
      ensures r.Raised? <==>
                || (item.idempotencyKey.Some?
                    && exists i :: i in old(payloads) && i != item.id && old(payloads)[i].workspace == item.workspace
                                   && old(payloads)[i].idempotencyKey == item.idempotencyKey)
                || (exists j, k :: 0 <= j < k < |item.linkedDocuments|
                                   && item.linkedDocuments[j] == item.linkedDocuments[k])
                || exists k :: 0 <= k < |item.linkedDocuments| && item.linkedDocuments[k] !in documents
      ensures r.Ok? ==> r.value == item && payloads == old(payloads)[item.id := item]
      ensures r.Raised? ==> payloads == old(payloads) && rows == old(rows)
    {
      if KeyTaken(payloads, item) {
        return Raised(StoreFailure);
      }
      var payloadsBefore, rowsBefore := payloads, rows;
      payloads := payloads[item.id := item];
      rows := set row | row in rows && row.itemId != item.id;
      for n := 0 to |item.linkedDocuments|
        invariant payloads == old(payloads)[item.id := item] && payloadsBefore == old(payloads)
                  && rowsBefore == old(rows)
        invariant NoRepeats(item.linkedDocuments[..n])
        invariant forall k :: 0 <= k < n ==> item.linkedDocuments[k] in documents
        invariant forall row :: row in rows <==>
                    if row.itemId == item.id
                    then row.workspace == item.workspace && row.updatedAt == item.updatedAt
                         && row.document in item.linkedDocuments[..n]
                    else row in rowsBefore
      {
        var row := LinkRow(item.id, item.workspace, item.linkedDocuments[n], item.updatedAt);
        assert item.linkedDocuments[..n + 1] == item.linkedDocuments[..n] + [item.linkedDocuments[n]];
        var repeated := exists other :: other in rows && other.itemId == row.itemId && other.document == row.document;
        if repeated || row.document !in documents {
          assert repeated ==> row.document in item.linkedDocuments[..n];
          payloads, rows := payloadsBefore, rowsBefore;
          return Raised(StoreFailure);
        }
        assert row !in rows;
        rows := rows + {row};
      }
      assert item.linkedDocuments[..|item.linkedDocuments|] == item.linkedDocuments;
      return Ok(item);
    }

    /** `ROW_NUMBER() OVER (PARTITION BY document_id ORDER BY updated_at DESC, work_item_id DESC)`,
        the first of each partition, joined with the payloads. */
    method GetLatestForDocuments(workspace: string, documents: seq<Id>) returns (latest: map<Id, WorkItem>)
      requires Valid()
      ensures forall d :: d in latest <==>
                d in documents && exists i :: i in payloads && Links(payloads[i], workspace, d)
      ensures forall d :: d in latest ==> RankedFirst(payloads, workspace, d, latest[d])
    {
      latest := map[];
      for n := 0 to |documents|
        invariant forall d :: d in latest <==>
                    d in documents[..n] && exists i :: i in payloads && Links(payloads[i], workspace, d)
        invariant forall d :: d in latest ==> RankedFirst(payloads, workspace, d, latest[d])
      {
        var document := documents[n];
        assert documents[..n + 1] == documents[..n] + [document];
        var partition := Partition(rows, workspace, document);
        PartitionIsLinks(payloads, rows, workspace, document);
        if partition != {} {
          ghost var first := TopRow(partition);
          var top :| top in partition && forall row :: row in partition ==> RanksAtOrBelow(row, top);
          TopIsRankedFirst(payloads, rows, workspace, document, top);
          latest := latest[document := payloads[top.itemId]];
        }
      }
      assert documents[..|documents|] == documents;
    }
  }

  /** The item links the document, and every other candidate is older, or as old with a
      smaller identifier. */
  ghost predicate RankedFirst(payloads: map<Id, WorkItem>, workspace: string, document: Id, item: WorkItem) {
    && item.id in payloads && payloads[item.id] == item && Links(item, workspace, document)
    && forall i :: i in payloads && Links(payloads[i], workspace, document) ==>
         payloads[i].updatedAt < item.updatedAt || (payloads[i].updatedAt == item.updatedAt && i <= item.id)
  }

  lemma {:induction false} TopRow(partition: set<LinkRow>) returns (top: LinkRow)
    requires partition != {}
    ensures top in partition && forall row :: row in partition ==> RanksAtOrBelow(row, top)
    decreases |partition|
  {
    var some :| some in partition;
    top := some;
    if partition != {some} {
      var rest := partition - {some};
      assert rest != {} by {
        assert partition == rest + {some};
      }
      var other := TopRow(rest);
      if !RanksAtOrBelow(other, some) {
        top := other;
      }
      forall row | row in partition ensures RanksAtOrBelow(row, top) {
        assert row == some || row in rest;
      }
    }
  }

  function Partition(rows: set<LinkRow>, workspace: string, document: Id): set<LinkRow> {
    set row | row in rows && row.workspace == workspace && row.document == document
  }

  lemma {:induction false} PartitionIsLinks(payloads: map<Id, WorkItem>, rows: set<LinkRow>, workspace: string,
                                            document: Id)
    requires Agrees(payloads, rows) && forall i :: i in payloads ==> payloads[i].id == i
    ensures (exists i :: i in payloads && Links(payloads[i], workspace, document)) <==>
              Partition(rows, workspace, document) != {}
  {
    if exists i :: i in payloads && Links(payloads[i], workspace, document) {
      var i :| i in payloads && Links(payloads[i], workspace, document);
      assert LinkRow(i, workspace, document, payloads[i].updatedAt) in Partition(rows, workspace, document);
    }
    if Partition(rows, workspace, document) != {} {
      var row :| row in Partition(rows, workspace, document);
      assert Links(payloads[row.itemId], workspace, document);
    }
  }

  lemma {:induction false} TopIsRankedFirst(payloads: map<Id, WorkItem>, rows: set<LinkRow>, workspace: string,
                                            document: Id, top: LinkRow)
    requires Agrees(payloads, rows) && forall i :: i in payloads ==> payloads[i].id == i
    requires top in rows && top.workspace == workspace && top.document == document
    requires forall row :: row in rows && row.workspace == workspace && row.document == document ==>
              RanksAtOrBelow(row, top)
    ensures top.itemId in payloads && RankedFirst(payloads, workspace, document, payloads[top.itemId])
  {
    forall i | i in payloads && Links(payloads[i], workspace, document)
      ensures payloads[i].updatedAt < top.updatedAt || (payloads[i].updatedAt == top.updatedAt && i <= top.itemId)
    {
      assert LinkRow(i, workspace, document, payloads[i].updatedAt) in rows;
    }
  }

  // ------------------------------------------------------------ the two lookups

  /** The item is a candidate for the document, and none is newer. */
  ghost predicate Newest(payloads: map<Id, WorkItem>, workspace: string, document: Id, i: Id) {
    && i in payloads && Links(payloads[i], workspace, document)
    && forall j :: j in payloads && Links(payloads[j], workspace, document) ==>
         payloads[j].updatedAt <= payloads[i].updatedAt
  }

  /** Of the newest candidates, the one inserted first has the greatest identifier. */
  ghost predicate FirstIsGreatest(payloads: map<Id, WorkItem>, order: seq<Id>, workspace: string, document: Id) {
    forall p, q :: 0 <= p < |order| && 0 <= q < |order| && Newest(payloads, workspace, document, order[q])
                   && IsFirstNewest(payloads, order, workspace, document, p)
                   ==> order[q] <= order[p]
  }

  ghost predicate IsFirstNewest(payloads: map<Id, WorkItem>, order: seq<Id>, workspace: string, document: Id, p: nat)
    requires p < |order|
  {
    && Newest(payloads, workspace, document, order[p])
    && forall k :: 0 <= k < p ==> !Newest(payloads, workspace, document, order[k])
  }

  /** The order lists the stored items, which are stored under their own identifiers. */
  ghost predicate Lists(order: seq<Id>, payloads: map<Id, WorkItem>) {
    && (forall i :: i in payloads <==> i in order)
    && (forall i :: i in payloads ==> payloads[i].id == i)
  }

  /** The scan ends with the first inserted of the newest candidates. */
  lemma {:induction false} ScanIsFirstNewest(payloads: map<Id, WorkItem>, order: seq<Id>, workspace: string,
                                             document: Id)
    returns (p: nat)
    requires Lists(order, payloads)
    requires exists i :: i in payloads && Links(payloads[i], workspace, document)
    ensures p < |order| && IsFirstNewest(payloads, order, workspace, document, p)
    ensures Scan(payloads, order, |order|, workspace, document) == Some(payloads[order[p]])
  {
    p := ScanFindsFirstNewest(payloads, order, |order|, workspace, document);
    var i :| i in payloads && Links(payloads[i], workspace, document);
    var q :| 0 <= q < |order| && order[q] == i;
    forall j | j in payloads && Links(payloads[j], workspace, document)
      ensures payloads[j].updatedAt <= payloads[order[p]].updatedAt
    {
      var k :| 0 <= k < |order| && order[k] == j;
    }
  }

  lemma {:induction false} FirstIsGreatestAt(payloads: map<Id, WorkItem>, order: seq<Id>, workspace: string,
                                             document: Id, p: nat)
    requires p < |order| && IsFirstNewest(payloads, order, workspace, document, p)
    ensures FirstIsGreatest(payloads, order, workspace, document) <==>
              forall q :: 0 <= q < |order| && Newest(payloads, workspace, document, order[q]) ==> order[q] <= order[p]
  {
    hide Newest;
    forall m | 0 <= m < |order| && IsFirstNewest(payloads, order, workspace, document, m) ensures m == p {
    }
  }

  /** The ranked lookup and the scan give the same item if and only if, of the newest
      candidates, the one inserted first has the greatest identifier. */
  lemma {:induction false} LookupsAgreeUpToTies(payloads: map<Id, WorkItem>, order: seq<Id>, workspace: string,
                                                document: Id, ranked: WorkItem)
    requires Lists(order, payloads) && RankedFirst(payloads, workspace, document, ranked)
    ensures Scan(payloads, order, |order|, workspace, document).Some?
    ensures Scan(payloads, order, |order|, workspace, document).value.updatedAt == ranked.updatedAt
    ensures Scan(payloads, order, |order|, workspace, document) == Some(ranked) <==>
              FirstIsGreatest(payloads, order, workspace, document)
  {
    hide FirstIsGreatest, Scan;
    var p := ScanIsFirstNewest(payloads, order, workspace, document);
    FirstIsGreatestAt(payloads, order, workspace, document, p);
    var q :| 0 <= q < |order| && order[q] == ranked.id;
    assert Newest(payloads, workspace, document, order[q]);
    assert payloads[order[p]].updatedAt == ranked.updatedAt;
  }

  /** The candidates have distinct times. */
  ghost predicate DistinctTimes(payloads: map<Id, WorkItem>, workspace: string, document: Id) {
    forall i, j :: i in payloads && j in payloads && Links(payloads[i], workspace, document)
                   && Links(payloads[j], workspace, document) && payloads[i].updatedAt == payloads[j].updatedAt
                   ==> i == j
  }

  /** In particular they agree on a document whose candidates have distinct times. */
  lemma {:induction false} LookupsAgree(payloads: map<Id, WorkItem>, order: seq<Id>, workspace: string, document: Id,
                                        ranked: WorkItem)
    requires Lists(order, payloads) && RankedFirst(payloads, workspace, document, ranked)
    requires DistinctTimes(payloads, workspace, document)
    ensures Scan(payloads, order, |order|, workspace, document) == Some(ranked)
  {
    LookupsAgreeUpToTies(payloads, order, workspace, document, ranked);
    var p := ScanIsFirstNewest(payloads, order, workspace, document);
    assert payloads[order[p]].updatedAt == ranked.updatedAt;
  }

  /** What is stored after some saves, ... */
  function Stored(saves: seq<WorkItem>): map<Id, WorkItem> {
    if saves == [] then map[]
    else Stored(saves[..|saves| - 1])[saves[|saves| - 1].id := saves[|saves| - 1]]
  }

  /** ... and in which order it was first inserted. */
  function Inserted(saves: seq<WorkItem>): seq<Id> {
    if saves == [] then []
    else
      var last := saves[|saves| - 1].id;
      var earlier := Inserted(saves[..|saves| - 1]);
      if last in Stored(saves[..|saves| - 1]) then earlier else earlier + [last]
  }

  lemma {:induction false} NothingSaved(saves: seq<WorkItem>)
    ensures Stored(saves[..0]) == map[] && Inserted(saves[..0]) == []
  {
  }

  lemma {:induction false} NextSave(saves: seq<WorkItem>, n: nat)
    requires n < |saves|
    ensures Stored(saves[..n + 1]) == Stored(saves[..n])[saves[n].id := saves[n]]
    ensures Inserted(saves[..n + 1])
            == if saves[n].id in Stored(saves[..n]) then Inserted(saves[..n]) else Inserted(saves[..n]) + [saves[n].id]
  {
    assert saves[..n + 1][..n] == saves[..n];
  }

  /** Saves the items in both stores, up to the first that the database refuses. */
  method SaveInBoth(saves: seq<WorkItem>, known: set<Id>)
    returns (accepted: nat, memory: InMemoryWorkItems, sqlite: SqliteWorkItems)
    ensures accepted <= |saves|
    ensures accepted < |saves| ==> Refused(Stored(saves[..accepted]), known, saves[accepted])
    ensures forall n :: 0 <= n < accepted ==> !Refused(Stored(saves[..n]), known, saves[n])
    ensures fresh(memory) && memory.Valid() && memory.records == Stored(saves[..accepted])
    ensures memory.order == Inserted(saves[..accepted])
    ensures fresh(sqlite) && sqlite.Valid() && sqlite.payloads == Stored(saves[..accepted])
  {
    hide Refused, Agrees, Stored, Inserted;
    memory := new InMemoryWorkItems();
    sqlite := new SqliteWorkItems(known);
    accepted := 0;
    NothingSaved(saves);
    while accepted < |saves|
      invariant 0 <= accepted <= |saves|
      invariant memory.Valid() && sqlite.Valid() && fresh(memory) && fresh(sqlite) && sqlite.documents == known
      invariant memory.records == sqlite.payloads == Stored(saves[..accepted])
      invariant memory.order == Inserted(saves[..accepted])
      invariant forall n :: 0 <= n < accepted ==> !Refused(Stored(saves[..n]), known, saves[n])
    {
      NextSave(saves, accepted);
      var saved := sqlite.Save(saves[accepted]);
      if saved.Raised? {
        break;
      }
      memory.Save(saves[accepted]);
      accepted := accepted + 1;
    }
  }

  /** Both stores take the same saves, up to the first that the database refuses; then they
      hold the same items. Asked for the latest items of any documents they answer for the
      same ones, and give the same item exactly where ties are in the order of insertion. */
  method StoreAndAsk(saves: seq<WorkItem>, known: set<Id>, workspace: string, documents: seq<Id>)
    returns (accepted: nat, scanned: map<Id, WorkItem>, ranked: map<Id, WorkItem>)
    ensures accepted <= |saves|
    ensures accepted < |saves| ==> Refused(Stored(saves[..accepted]), known, saves[accepted])
    ensures forall n :: 0 <= n < accepted ==> !Refused(Stored(saves[..n]), known, saves[n])
    ensures scanned.Keys == ranked.Keys
    ensures forall d :: d in ranked ==>
              && RankedFirst(Stored(saves[..accepted]), workspace, d, ranked[d])
              && scanned[d].updatedAt == ranked[d].updatedAt
              && (scanned[d] == ranked[d] <==>
                    FirstIsGreatest(Stored(saves[..accepted]), Inserted(saves[..accepted]), workspace, d))
              && (DistinctTimes(Stored(saves[..accepted]), workspace, d) ==> scanned[d] == ranked[d])
    ensures forall d :: d in ranked <==>
              d in documents
              && exists i :: i in Stored(saves[..accepted]) && Links(Stored(saves[..accepted])[i], workspace, d)
  {
    hide Refused, RankedFirst, Scan, FirstIsGreatest, DistinctTimes, Agrees;
    var memory, sqlite;
    accepted, memory, sqlite := SaveInBoth(saves, known);
    scanned := memory.GetLatestForDocuments(workspace, documents);
    ranked := sqlite.GetLatestForDocuments(workspace, documents);
    BothAnswer(sqlite.payloads, memory.order, workspace, documents, scanned, ranked);
  }

  lemma {:induction false} BothAnswer(payloads: map<Id, WorkItem>, order: seq<Id>, workspace: string,
                                      documents: seq<Id>, scanned: map<Id, WorkItem>, ranked: map<Id, WorkItem>)
    requires Lists(order, payloads)
    requires forall d :: d in scanned ==> d in documents
    requires forall d :: d in documents ==> Kept(scanned, d) == Scan(payloads, order, |order|, workspace, d)
    requires forall d :: d in ranked <==>
              d in documents && exists i :: i in payloads && Links(payloads[i], workspace, d)
    requires forall d :: d in ranked ==> RankedFirst(payloads, workspace, d, ranked[d])
    ensures scanned.Keys == ranked.Keys
    ensures forall d :: d in ranked ==>
              && scanned[d].updatedAt == ranked[d].updatedAt
              && (scanned[d] == ranked[d] <==> FirstIsGreatest(payloads, order, workspace, d))
              && (DistinctTimes(payloads, workspace, d) ==> scanned[d] == ranked[d])
  {
    hide FirstIsGreatest, DistinctTimes;
    forall d | d in documents ensures d in scanned <==> d in ranked {
      var p := ScanFindsFirstNewest(payloads, order, |order|, workspace, d);
      if d in ranked {
        LookupsAgreeUpToTies(payloads, order, workspace, d, ranked[d]);
      }
    }
    forall d | d in ranked
      ensures && scanned[d].updatedAt == ranked[d].updatedAt
              && (scanned[d] == ranked[d] <==> FirstIsGreatest(payloads, order, workspace, d))
              && (DistinctTimes(payloads, workspace, d) ==> scanned[d] == ranked[d])
    {
      LookupsAgreeUpToTies(payloads, order, workspace, d, ranked[d]);
      if DistinctTimes(payloads, workspace, d) {
        LookupsAgree(payloads, order, workspace, d, ranked[d]);
      }
    }
  }

  /** An item with the given identifier that links document 7. */
  function TiedItem(id: Id): WorkItem {
    WorkItem(id, "w", "invoice", None, Normal, ItemNew, [7], map[], None, None, None, 5)
  }

  function TiedItems(): map<Id, WorkItem> {
    map[1 := TiedItem(1), 2 := TiedItem(2)]
  }

  lemma {:induction false} TiedIsAccepted(payloads: map<Id, WorkItem>, id: Id)
    ensures !Refused(payloads, {7}, TiedItem(id))
  {
  }

  lemma {:induction false} TiedRank(ranked: WorkItem)
    requires RankedFirst(TiedItems(), "w", 7, ranked)
    ensures ranked == TiedItem(2)
  {
    assert Links(TiedItems()[2], "w", 7) && Links(TiedItems()[1], "w", 7);
  }

  lemma {:induction false} TiedScan()
    ensures Scan(TiedItems(), [1, 2], 2, "w", 7) == Some(TiedItem(1))
  {
    assert Links(TiedItems()[2], "w", 7) && Links(TiedItems()[1], "w", 7);
    assert Scan(TiedItems(), [1, 2], 1, "w", 7) == Some(TiedItem(1));
  }

  /** Two items saved in turn, equally new, both linking document 7: in memory the first is
      the latest, in the database the one with the greater identifier. */
  method TieSplitsTheStores() returns (scanned: map<Id, WorkItem>, ranked: map<Id, WorkItem>)
    ensures scanned == map[7 := TiedItem(1)] && ranked == map[7 := TiedItem(2)]
  {
    scanned := AskMemory();
    ranked := AskSqlite();
  }

  method AskMemory() returns (scanned: map<Id, WorkItem>)
    ensures scanned == map[7 := TiedItem(1)]
  {
    hide Scan;
    var memory := new InMemoryWorkItems();
    memory.Save(TiedItem(1));
    memory.Save(TiedItem(2));
    assert memory.records == TiedItems() && memory.order == [1, 2];
    scanned := memory.GetLatestForDocuments("w", [7]);
    TiedScan();
    assert 7 in [7] && Kept(scanned, 7) == Some(TiedItem(1));
  }

  method AskSqlite() returns (ranked: map<Id, WorkItem>)
    ensures ranked == map[7 := TiedItem(2)]
  {
    hide RankedFirst, Refused, Agrees;
    var sqlite := new SqliteWorkItems({7});
    TiedIsAccepted(sqlite.payloads, 1);
    var first := sqlite.Save(TiedItem(1));
    TiedIsAccepted(sqlite.payloads, 2);
    var second := sqlite.Save(TiedItem(2));
    assert sqlite.payloads == TiedItems();
    ranked := sqlite.GetLatestForDocuments("w", [7]);
    assert Links(TiedItems()[1], "w", 7);
    assert 7 in [7] && 7 in ranked;
    TiedRank(ranked[7]);
  }
}
