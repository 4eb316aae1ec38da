/** Rebuilding the index of one model from its table, batch by batch. */
module Reindex {
  import opened Schema
  import SyncProtocol

  datatype Record = Record(id: int, row: Row)
  datatype Document = Document(id: int, body: Row)

  /** One pair of lines of a bulk request: store `body` under `id`. */
  datatype Action = Put(id: int, body: Row)

  datatype Outcome = Finished(processed: nat) | BulkError(offset: nat)

  predicate DistinctIds(rows: seq<Record>) {
    forall i, j | 0 <= i < j < |rows| :: rows[i].id != rows[j].id
  }

  /** The documents of the rows that convert, in order. */
  function Documents(rows: seq<Record>, converts: Row -> bool): seq<Document> {
    if rows == [] then []
    else
      var last := rows[|rows| - 1];
      Documents(rows[..|rows| - 1], converts) + if converts(last.row) then [Document(last.id, last.row)] else []
  }

  function Stored(docs: Index, kind: Kind, actions: seq<Document>): Index {
    if actions == [] then docs
    else Stored(docs, kind, actions[..|actions| - 1])[Entity(kind, actions[|actions| - 1].id) := actions[|actions| - 1].body]
  }

  lemma {:induction false} DocumentsAppend(xs: seq<Record>, ys: seq<Record>, converts: Row -> bool)
    ensures Documents(xs + ys, converts) == Documents(xs, converts) + Documents(ys, converts)
  {
    if ys == [] {
      assert xs + ys == xs;
    } else {
      assert (xs + ys)[..|xs + ys| - 1] == xs + ys[..|ys| - 1];
      DocumentsAppend(xs, ys[..|ys| - 1], converts);
    }
  }

  lemma {:induction false} StoredAppend(docs: Index, kind: Kind, xs: seq<Document>, ys: seq<Document>)
    ensures Stored(docs, kind, xs + ys) == Stored(Stored(docs, kind, xs), kind, ys)
  {
    if ys == [] {
      assert xs + ys == xs;
    } else {
      assert (xs + ys)[..|xs + ys| - 1] == xs + ys[..|ys| - 1];
      StoredAppend(docs, kind, xs, ys[..|ys| - 1]);
    }
  }

  /** Where the document of a row stands: after those of the rows before it, and no row has two. */
  lemma {:induction false} DocumentAt(rows: seq<Record>, converts: Row -> bool, i: nat)
    requires i < |rows|
    ensures var before, after := Documents(rows[..i], converts), Documents(rows[..i + 1], converts);
      && after <= Documents(rows, converts)
      && after == before + if converts(rows[i].row) then [Document(rows[i].id, rows[i].row)] else []
  {
    assert rows[..i + 1][..i] == rows[..i] && rows[..i + 1] + rows[i + 1..] == rows;
    DocumentsAppend(rows[..i + 1], rows[i + 1..], converts);
  }

  predicate Has(rows: seq<Record>, converts: Row -> bool, id: int) {
    exists i :: 0 <= i < |rows| && rows[i].id == id && converts(rows[i].row)
  }

  lemma StoredLast(docs: Index, kind: Kind, front: seq<Record>, last: Record, converts: Row -> bool)
    ensures Stored(docs, kind, Documents(front + [last], converts)) ==
            if converts(last.row) then Stored(docs, kind, Documents(front, converts))[Entity(kind, last.id) := last.row]
            else Stored(docs, kind, Documents(front, converts))
  {
    var all := Documents(front + [last], converts);
    assert (front + [last])[..|front|] == front;
    if converts(last.row) {
      assert all[..|all| - 1] == Documents(front, converts);
    } else {
      assert all == Documents(front, converts);
    }
  }

  /** Against a table with distinct ids, a row that converts ends up stored under its id. */
  lemma {:induction false} StoredConvertible(docs: Index, kind: Kind, rows: seq<Record>, converts: Row -> bool, i: nat)
    requires DistinctIds(rows) && i < |rows| && converts(rows[i].row)
    ensures Lookup(Stored(docs, kind, Documents(rows, converts)), Entity(kind, rows[i].id)) == Some(rows[i].row)
  {
    var n := |rows| - 1;
    StoredLast(docs, kind, rows[..n], rows[n], converts);
    assert rows[..n] + [rows[n]] == rows;
    if i < n {
      StoredConvertible(docs, kind, rows[..n], converts, i);
    }
  }

  /** No other entry moves. */
  lemma {:induction false} StoredOther(docs: Index, kind: Kind, rows: seq<Record>, converts: Row -> bool, e: Entity)
    requires e.kind != kind || !Has(rows, converts, e.id)
    ensures Lookup(Stored(docs, kind, Documents(rows, converts)), e) == Lookup(docs, e)
  {
    if rows != [] {
      var n := |rows| - 1;
      StoredLast(docs, kind, rows[..n], rows[n], converts);
      assert rows[..n] + [rows[n]] == rows;
      if Has(rows[..n], converts, e.id) {
        var i :| 0 <= i < n && rows[..n][i].id == e.id && converts(rows[..n][i].row);
        assert rows[i].id == e.id;
      }
      StoredOther(docs, kind, rows[..n], converts, e);
    }
  }

  /** The rows of a table, as a session lists them: every row of the kind, once. */
  ghost predicate Lists(rows: seq<Record>, table: Table, kind: Kind) {
    && DistinctIds(rows)
    && (forall i | 0 <= i < |rows| :: Entity(kind, rows[i].id) in table && table[Entity(kind, rows[i].id)] == rows[i].row)
    && (forall e | e in table && e.kind == kind :: Listed(rows, e.id))
  }

  ghost predicate Listed(rows: seq<Record>, id: int) { exists i :: 0 <= i < |rows| && rows[i].id == id }

  /**
   A rebuild brings every row it can convert into step with the index, and leaves the standing of every
   other entity as it was: entries of removed rows and of rows that do not convert stay behind.
   */
  lemma ReindexedInSync(docs: Index, table: Table, kind: Kind, rows: seq<Record>, converts: Row -> bool, e: Entity)
    requires Lists(rows, table, kind)
    ensures SyncProtocol.InSync(table, Stored(docs, kind, Documents(rows, converts)), e) <==>
      (e.kind == kind && e in table && converts(table[e])) || SyncProtocol.InSync(table, docs, e)
  {
    var after := Stored(docs, kind, Documents(rows, converts));
    if e.kind == kind && e in table && converts(table[e]) {
      assert Listed(rows, e.id);
      var i: nat :| i < |rows| && rows[i].id == e.id;
      StoredConvertible(docs, kind, rows, converts, i);
      assert Entity(kind, rows[i].id) == e;
    } else {
      StoredOther(docs, kind, rows, converts, e);
      assert Lookup(after, e) == Lookup(docs, e);
    }
  }

  class Session {
    const rows: seq<Record>
    /** Every row the session has handed out, in order. */
    var fetched: seq<Record>

    constructor (rows: seq<Record>)
      ensures this.rows == rows && fetched == []
    {
      this.rows := rows;
      fetched := [];
    }

    method FetchBatch(offset: nat, batchSize: nat) returns (instances: seq<Record>)
      modifies this
      ensures instances == if offset >= |rows| then [] else if offset + batchSize >= |rows| then rows[offset..] else rows[offset..offset + batchSize]
      ensures fetched == old(fetched) + instances
    {
      if offset >= |rows| {
        instances := [];
      } else if offset + batchSize >= |rows| {
        instances := rows[offset..];
      } else {
        instances := rows[offset..offset + batchSize];
      }
      fetched := fetched + instances;
    }
  }

  class ElasticsearchIndexer {
    const kind: Kind
    var docs: Index

    constructor (kind: Kind, docs: Index)
      ensures this.kind == kind && this.docs == docs
    {
      this.kind := kind;
      this.docs := docs;
    }

    /** One request for all documents. The call may raise, before or after the request has taken effect. */
    method BulkIndex(batch: seq<Document>) returns (ok: bool)
      modifies this`docs
      ensures ok ==> docs == Stored(old(docs), kind, batch)
      ensures !ok ==> docs == old(docs) || docs == Stored(old(docs), kind, batch)
    {
      var actions: seq<Action> := [];
      for k := 0 to |batch|
        invariant |actions| == k
        invariant forall j | 0 <= j < k :: actions[j] == Put(batch[j].id, batch[j].body)
      {
        actions := actions + [Put(batch[k].id, batch[k].body)];
      }
      if * { return false; }
      Execute(batch, actions);
      if * { return false; }
      return true;
    }

    /** The server's side of a bulk request. */
    method Execute(ghost batch: seq<Document>, actions: seq<Action>)
      requires |actions| == |batch| && forall j | 0 <= j < |batch| :: actions[j] == Put(batch[j].id, batch[j].body)
      modifies this`docs
      ensures docs == Stored(old(docs), kind, batch)
    {
      ghost var before := docs;
      for k := 0 to |actions|
        invariant docs == Stored(before, kind, batch[..k])
      {
        assert batch[..k + 1][..k] == batch[..k];
        docs := docs[Entity(kind, actions[k].id) := actions[k].body];
      }
      assert batch[..|batch|] == batch;
    }
  }

  class ReindexService {
    const session: Session
    const indexer: ElasticsearchIndexer
    /** Whether a row's document can be built; a row that raises is logged and skipped. */
    const converts: Row -> bool

    constructor (session: Session, indexer: ElasticsearchIndexer, converts: Row -> bool)
      ensures this.session == session && this.indexer == indexer && this.converts == converts
    {
      this.session := session;
      this.indexer := indexer;
      this.converts := converts;
    }

    method CreateDocs(instances: seq<Record>) returns (docs: seq<Document>)
      ensures docs == Documents(instances, converts)
    {
      docs := [];
      for k := 0 to |instances|
        invariant docs == Documents(instances[..k], converts)
      {
        assert instances[..k + 1][..k] == instances[..k];
        if converts(instances[k].row) {
          docs := docs + [Document(instances[k].id, instances[k].row)];
        }
      }
      assert instances[..|instances|] == instances;
    }

    /**
     With a positive batch size every row is fetched once and every convertible row stored; a bulk
     error stops the run at a batch boundary. A batch size of zero stops at the first empty batch.
     */
    method ReindexModel(batchSize: nat) returns (r: Outcome)
      requires session.fetched == []
      modifies session, indexer`docs
      ensures r.Finished? && batchSize > 0 ==>
        && session.fetched == session.rows
        && indexer.docs == Stored(old(indexer.docs), indexer.kind, Documents(session.rows, converts))
        && r.processed == |Documents(session.rows, converts)|
      ensures r.Finished? && batchSize == 0 ==> indexer.docs == old(indexer.docs) && r.processed == 0
      ensures r.BulkError? ==> exists n: nat ::
        && r.offset < n <= |session.rows| && session.fetched == session.rows[..n]
        && (indexer.docs == Stored(old(indexer.docs), indexer.kind, Documents(session.rows[..r.offset], converts)) ||
            indexer.docs == Stored(old(indexer.docs), indexer.kind, Documents(session.rows[..n], converts)))
    {
      var total := |session.rows|;
      ghost var before := indexer.docs;
      if total == 0 {
        return Finished(0);
      }
      var offset, processed := 0, 0;
      while offset < total
        invariant 0 <= offset
        invariant session.fetched == session.rows[..Reach(offset)]
        invariant indexer.docs == Stored(before, indexer.kind, Documents(session.rows[..Reach(offset)], converts))
        invariant processed == |Documents(session.rows[..Reach(offset)], converts)|
        invariant batchSize == 0 ==> offset == 0
        decreases total - offset
      {
        var instances := session.FetchBatch(offset, batchSize);
        if instances == [] {
          break;
        }
        assert session.rows[..Reach(offset + batchSize)] == session.rows[..Reach(offset)] + instances;
        DocumentsAppend(session.rows[..Reach(offset)], instances, converts);
        StoredAppend(before, indexer.kind, Documents(session.rows[..Reach(offset)], converts), Documents(instances, converts));
        var docs := CreateDocs(instances);
        if docs == [] {
          offset := offset + batchSize;
          continue;
        }
        var ok := indexer.BulkIndex(docs);
        if !ok {
          return BulkError(offset);
        }
        processed := processed + |docs|;
        offset := offset + batchSize;
      }
      assert session.rows[..total] == session.rows;
      return Finished(processed);
    }

    function Reach(offset: nat): (n: nat)
      ensures n <= |session.rows|
    {
      if offset <= |session.rows| then offset else |session.rows|
    }
  }
}
