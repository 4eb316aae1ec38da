/** The outbox job itself: marking events, handling one event, a batch, a whole call, and the retry job. */
module OutboxWorker {
  import opened Schema
  import opened SyncProtocol

  // ---- what a call computes -----------------------------------------------------------------

  /** A handled event: completed, or failed when no document class exists for its kind. */
  function Finished(ev: Event): Event {
    if Indexed(ev.entity.kind) then ev.(status := Completed) else Fail(ev)
  }

  /** The index after `ev` has been carried out against the current table. */
  function IndexAfter(table: Table, index: Index, ev: Event): Index {
    if !Indexed(ev.entity.kind) then index
    else if ev.etype == Deleted then index - {ev.entity}
    else IndexWith(index, ev.entity, Lookup(table, ev.entity))
  }

  function Processed(s: State, id: nat): State
    requires id < |s.outbox|
  {
    s.(outbox := s.outbox[id := Finished(s.outbox[id])], index := IndexAfter(s.table, s.index, s.outbox[id]))
  }

  /** The index call raised; it may have taken effect all the same. */
  function Faulted(s: State, id: nat, applied: bool): State
    requires id < |s.outbox|
  {
    s.(outbox := s.outbox[id := Fail(s.outbox[id])], index := if applied then IndexAfter(s.table, s.index, s.outbox[id]) else s.index)
  }

  predicate Ids(s: State, ids: seq<nat>) { forall p | 0 <= p < |ids| :: ids[p] < |s.outbox| }

  function ProcessedAll(s: State, ids: seq<nat>): (r: State)
    requires Ids(s, ids)
    ensures |r.outbox| == |s.outbox| && r.table == s.table && r.worker == s.worker
  {
    if ids == [] then s else Processed(ProcessedAll(s, ids[..|ids| - 1]), ids[|ids| - 1])
  }

  datatype Outcome = Handled(processed: nat) | RaisedAt(cut: nat)

  ghost predicate BatchResult(s: State, ids: seq<nat>, r: Outcome, s': State)
    requires Ids(s, ids)
  {
    match r
    case Handled(n) => n == |ids| && s' == ProcessedAll(s, ids)
    case RaisedAt(k) =>
      && k < |ids| && Indexed(s.outbox[ids[k]].entity.kind)
      && exists applied :: s' == Faulted(ProcessedAll(s, ids[..k]), ids[k], applied)
  }

  function Retried(outbox: seq<Event>, ids: seq<nat>): (r: seq<Event>)
    requires forall p | 0 <= p < |ids| :: ids[p] < |outbox|
    ensures |r| == |outbox|
  {
    if ids == [] then outbox
    else
      var rest := Retried(outbox, ids[..|ids| - 1]);
      var i := ids[|ids| - 1];
      rest[i := rest[i].(status := Pending, retries := rest[i].retries + 1)]
  }

  predicate Distinct(ids: seq<nat>) { forall p, q | 0 <= p < q < |ids| :: ids[p] != ids[q] }

  /** `ids` is what the database may answer to: these rows, oldest first, at most `limit` of them. */
  ghost predicate Answer(outbox: seq<Event>, wanted: Event -> bool, limit: nat, ids: seq<nat>) {
    && Distinct(ids)
    && |ids| <= limit
    && (forall p | 0 <= p < |ids| :: ids[p] < |outbox| && wanted(outbox[ids[p]]))
    && (forall p, q | 0 <= p < q < |ids| :: outbox[ids[p]].createdAt <= outbox[ids[q]].createdAt)
    && (forall j: nat | j < |outbox| && wanted(outbox[j]) && j !in ids ::
          |ids| == limit && forall p | 0 <= p < |ids| :: outbox[ids[p]].createdAt <= outbox[j].createdAt)
  }

  const IS_PENDING: Event -> bool := (ev: Event) => ev.status == Pending

  function IsRetriable(maxRetries: nat): Event -> bool {
    (ev: Event) => ev.status == Failed && ev.retries < maxRetries
  }

  // ---- the job ------------------------------------------------------------------------------

  class Database {
    var table: Table
    var outbox: seq<Event>
  }

  class SearchIndex {
    var docs: Index
  }

  class OutboxService {
    const db: Database

    constructor (db: Database)
      ensures this.db == db
    {
      this.db := db;
    }

    method MarkProcessing(id: int)
      modifies db`outbox
      ensures db.outbox == if 0 <= id < |old(db.outbox)| then old(db.outbox)[id := old(db.outbox)[id].(status := Processing)] else old(db.outbox)
    {
      if 0 <= id < |db.outbox| {
        db.outbox := db.outbox[id := db.outbox[id].(status := Processing)];
      }
    }

    method MarkCompleted(id: int)
      modifies db`outbox
      ensures db.outbox == if 0 <= id < |old(db.outbox)| then old(db.outbox)[id := old(db.outbox)[id].(status := Completed)] else old(db.outbox)
    {
      if 0 <= id < |db.outbox| {
        db.outbox := db.outbox[id := db.outbox[id].(status := Completed)];
      }
    }

    method MarkFailed(id: int)
      modifies db`outbox
      ensures db.outbox == if 0 <= id < |old(db.outbox)| then old(db.outbox)[id := Fail(old(db.outbox)[id])] else old(db.outbox)
    {
      if 0 <= id < |db.outbox| {
        var ev := db.outbox[id].(status := Failed);
        db.outbox := db.outbox[id := ev.(retries := ev.retries + 1)];
      }
    }
  }

  class OutboxTaskService {
    const db: Database
    const es: SearchIndex
    const service: OutboxService

    constructor (db: Database, es: SearchIndex)
      ensures this.db == db && this.es == es && Valid()
    {
      this.db := db;
      this.es := es;
      service := new OutboxService(db);
    }

    ghost predicate Valid() { service.db == db }

    /** The database and the index, seen as a protocol state between two events. */
    ghost function View(): State
      reads db, es
    {
      State(db.table, db.outbox, es.docs, Idle)
    }

    /** Looking the document up and deleting it are two calls; either may raise. */
    method DeleteDocument(e: Entity) returns (ok: bool)
      modifies es
      ensures ok ==> es.docs == old(es.docs) - {e}
      ensures !ok ==> es.docs == old(es.docs) || es.docs == old(es.docs) - {e}
    {
      if * { return false; }
      if e in es.docs {
        if * { return false; }
        es.docs := es.docs - {e};
        if * { return false; }
      }
      return true;
    }

    /** Conversion and the bulk call may raise; a row that is gone is skipped. */
    method IndexDocument(e: Entity) returns (ok: bool)
      modifies es
      ensures ok ==> es.docs == IndexWith(old(es.docs), e, Lookup(db.table, e))
      ensures !ok ==> es.docs == old(es.docs) || es.docs == IndexWith(old(es.docs), e, Lookup(db.table, e))
    {
      if * { return false; }
      if e in db.table {
        var row := db.table[e];
        if * { return false; }
        es.docs := es.docs[e := row];
        if * { return false; }
      }
      return true;
    }

    method ProcessSingleEvent(id: nat) returns (raised: bool)
      requires Valid() && id < |db.outbox|
      modifies db`outbox, es
      ensures !raised ==> View() == Processed(old(View()), id)
      ensures raised ==> Indexed(old(db.outbox)[id].entity.kind) && exists applied :: View() == Faulted(old(View()), id, applied)
    {
      var ev := db.outbox[id];
      service.MarkProcessing(id);
      if !Indexed(ev.entity.kind) {
        service.MarkFailed(id);
        return false;
      }
      var ok;
      if ev.etype == Deleted {
        ok := DeleteDocument(ev.entity);
      } else {
        ok := IndexDocument(ev.entity);
      }
      if ok {
        service.MarkCompleted(id);
        raised := false;
      } else {
        service.MarkFailed(id);
        raised := true;
        assert View() == Faulted(old(View()), id, false) || View() == Faulted(old(View()), id, true);
      }
    }

    /** The first event that raises ends the batch. */
    method ProcessOutboxBatch(events: seq<nat>) returns (r: Outcome)
      requires Valid() && Ids(View(), events)
      modifies db`outbox, es
      ensures BatchResult(old(View()), events, r, View())
    {
      ghost var s := View();
      for k := 0 to |events|
        invariant db.table == s.table && |db.outbox| == |s.outbox|
        invariant View() == ProcessedAll(s, events[..k])
      {
        ProcessedAllKeeps(s, events[..k]);
        var raised := ProcessSingleEvent(events[k]);
        assert events[..k + 1][..k] == events[..k];
        if raised {
          return RaisedAt(k);
        }
      }
      assert events[..|events|] == events;
      return Handled(|events|);
    }

    method ProcessOutbox(batchSize: nat, events: seq<nat>) returns (r: Outcome)
      requires Valid() && Answer(db.outbox, IS_PENDING, batchSize, events)
      modifies db`outbox, es
      ensures BatchResult(old(View()), events, r, View())
    {
      if events == [] {
        return Handled(0);
      }
      r := ProcessOutboxBatch(events);
    }

    method RetryFailedOutbox(maxRetries: nat, events: seq<nat>) returns (retried: nat)
      requires Answer(db.outbox, IsRetriable(maxRetries), 100, events)
      modifies db`outbox
      ensures retried == |events| && db.outbox == Retried(old(db.outbox), events)
    {
      ghost var before := db.outbox;
      for k := 0 to |events|
        invariant |db.outbox| == |before|
        invariant db.outbox == Retried(before, events[..k])
      {
        assert events[..k + 1][..k] == events[..k];
        var ev := db.outbox[events[k]].(status := Pending);
        db.outbox := db.outbox[events[k] := ev.(retries := ev.retries + 1)];
      }
      assert events[..|events|] == events;
      return |events|;
    }
  }

  /** Handling events changes neither what they are about nor when they were made. */
  lemma {:induction false} ProcessedAllKeeps(s: State, ids: seq<nat>)
    requires Ids(s, ids)
    ensures forall i | 0 <= i < |s.outbox| ::
      var ev := ProcessedAll(s, ids).outbox[i];
      ev.entity == s.outbox[i].entity && ev.etype == s.outbox[i].etype && ev.createdAt == s.outbox[i].createdAt
  {
    if ids != [] {
      ProcessedAllKeeps(s, ids[..|ids| - 1]);
    }
  }
}
