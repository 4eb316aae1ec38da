/**
 The outbox protocol: committed writes, one worker whose row read, index write and status commits
 are separate steps, worker crashes, and the job that sends failed events back to pending.
 Any number of writes may fall between two worker steps.
 */
module SyncProtocol {
  import opened Schema

  datatype Status = Pending | Processing | Completed | Failed

  /** An outbox row. Its id is its position: ids are handed out in insertion order. */
  datatype Event = Event(etype: EventType, entity: Entity, createdAt: int, status: Status, retries: nat)

  /** What a committed transaction does to one indexed row. */
  datatype Write =
    | Create(entity: Entity, row: Row)
    | Update(entity: Entity, row: Row)
    | Deactivate(entity: Entity, row: Row)
    | Remove(entity: Entity)

  /** Where the worker is inside one event. */
  datatype Worker =
    | Idle
    | Marked(ev: nat)
    | Loaded(ev: nat, row: Option<Row>)
    | Applied(ev: nat)

  datatype State = State(table: Table, outbox: seq<Event>, index: Index, worker: Worker)

  datatype Step =
    | Commit(w: Write, at: int)
    | Begin(ev: nat)
    | RejectUnknown
    | Load
    | WriteDocument
    | DropDocument
    | Complete
    | Fault
    | Crash
    | Retry(ev: nat)

  const INIT := State(map[], [], map[], Idle)

  // ---- one step -----------------------------------------------------------------------------

  function EventTypeOf(w: Write): EventType {
    match w
    case Create(_, _) => Created
    case Update(_, _) => Updated
    case Deactivate(_, _) => Deleted
    case Remove(_) => Deleted
  }

  function TableAfter(table: Table, w: Write): Table {
    match w
    case Create(e, row) => table[e := row]
    case Update(e, row) => table[e := row]
    case Deactivate(e, row) => table[e := row]
    case Remove(e) => table - {e}
  }

  /** Ids are never reused, dead rows are never written, a soft delete leaves a dead row. */
  ghost predicate WriteAllowed(s: State, w: Write) {
    match w
    case Create(e, row) => e !in s.table && forall i | 0 <= i < |s.outbox| :: s.outbox[i].entity != e
    case Update(e, row) => e in s.table && Alive(s.table[e])
    case Deactivate(e, row) => e in s.table && Alive(s.table[e]) && !Alive(row)
    case Remove(e) => e in s.table && Alive(s.table[e])
  }

  predicate Current(s: State) {
    !s.worker.Idle? && s.worker.ev < |s.outbox|
  }

  ghost predicate Enabled(s: State, step: Step, maxRetries: nat) {
    match step
    case Commit(w, at) => WriteAllowed(s, w)
    case Begin(i) => s.worker.Idle? && i < |s.outbox| && s.outbox[i].status == Pending
    case RejectUnknown => Current(s) && s.worker.Marked? && !Indexed(s.outbox[s.worker.ev].entity.kind)
    case Load => Current(s) && s.worker.Marked? && Indexed(s.outbox[s.worker.ev].entity.kind) && s.outbox[s.worker.ev].etype != Deleted
    case WriteDocument => Current(s) && s.worker.Loaded?
    case DropDocument => Current(s) && s.worker.Marked? && Indexed(s.outbox[s.worker.ev].entity.kind) && s.outbox[s.worker.ev].etype == Deleted
    case Complete => Current(s) && s.worker.Applied?
    case Fault => Current(s)
    case Crash => Current(s)
    case Retry(i) => i < |s.outbox| && s.outbox[i].status == Failed && s.outbox[i].retries < maxRetries
  }

  function Fail(ev: Event): Event { ev.(status := Failed, retries := ev.retries + 1) }

  function Apply(s: State, step: Step): State {
    match step
    case Commit(w, at) =>
      s.(table := TableAfter(s.table, w), outbox := s.outbox + [Event(EventTypeOf(w), w.entity, at, Pending, 0)])
    case Begin(i) =>
      if i < |s.outbox| then s.(outbox := s.outbox[i := s.outbox[i].(status := Processing)], worker := Marked(i)) else s
    case RejectUnknown =>
      if Current(s) then s.(outbox := s.outbox[s.worker.ev := Fail(s.outbox[s.worker.ev])], worker := Idle) else s
    case Load =>
      if Current(s) then s.(worker := Loaded(s.worker.ev, Lookup(s.table, s.outbox[s.worker.ev].entity))) else s
    case WriteDocument =>
      if Current(s) && s.worker.Loaded? then
        s.(index := IndexWith(s.index, s.outbox[s.worker.ev].entity, s.worker.row), worker := Applied(s.worker.ev))
      else s
    case DropDocument =>
      if Current(s) then s.(index := s.index - {s.outbox[s.worker.ev].entity}, worker := Applied(s.worker.ev)) else s
    case Complete =>
      if Current(s) then s.(outbox := s.outbox[s.worker.ev := s.outbox[s.worker.ev].(status := Completed)], worker := Idle) else s
    case Fault =>
      if Current(s) then s.(outbox := s.outbox[s.worker.ev := Fail(s.outbox[s.worker.ev])], worker := Idle) else s
    case Crash => s.(worker := Idle)
    case Retry(i) =>
      if i < |s.outbox| then
        s.(outbox := s.outbox[i := s.outbox[i].(status := Pending, retries := s.outbox[i].retries + 1)])
      else s
  }

  /** A row that has vanished writes nothing. */
  function IndexWith(index: Index, e: Entity, row: Option<Row>): Index {
    if row.Some? then index[e := row.value] else index
  }

  // ---- runs ---------------------------------------------------------------------------------

  function Run(s: State, steps: seq<Step>): State {
    if steps == [] then s else Apply(Run(s, steps[..|steps| - 1]), steps[|steps| - 1])
  }

  ghost predicate Legal(s: State, steps: seq<Step>, maxRetries: nat) {
    steps == [] ||
    (Legal(s, steps[..|steps| - 1], maxRetries) && Enabled(Run(s, steps[..|steps| - 1]), steps[|steps| - 1], maxRetries))
  }

  lemma {:induction false} RunAppend(s: State, xs: seq<Step>, ys: seq<Step>, maxRetries: nat)
    ensures Run(s, xs + ys) == Run(Run(s, xs), ys)
    ensures Legal(s, xs + ys, maxRetries) <==> Legal(s, xs, maxRetries) && Legal(Run(s, xs), ys, maxRetries)
  {
    if ys == [] {
      assert xs + ys == xs;
    } else {
      var front := ys[..|ys| - 1];
      assert (xs + ys)[..|xs + ys| - 1] == xs + front;
      RunAppend(s, xs, front, maxRetries);
    }
  }

  // ---- the synchronisation invariant --------------------------------------------------------

  /** The index entry of `e` says what the table says. A soft-deleted row may still be indexed, as it is now. */
  predicate InSync(table: Table, index: Index, e: Entity) {
    if e !in table then e !in index
    else if Alive(table[e]) then e in index && index[e] == table[e]
    else e in index ==> index[e] == table[e]
  }

  predicate Open(outbox: seq<Event>, i: int, e: Entity) {
    0 <= i < |outbox| && outbox[i].entity == e && outbox[i].status != Completed
  }

  ghost predicate OpenBeside(outbox: seq<Event>, e: Entity, except: int) {
    exists i :: Open(outbox, i, e) && i != except
  }

  ghost predicate DeleteOpen(outbox: seq<Event>, e: Entity) {
    exists i :: Open(outbox, i, e) && outbox[i].etype == Deleted
  }

  /** Every entity agrees with its row, or still has an event that is not completed. */
  ghost predicate Synchronised(s: State) {
    forall e :: InSync(s.table, s.index, e) || OpenBeside(s.outbox, e, -1)
  }

  /** Deadness is permanent: a delete event is its entity's last, and its row is dead. */
  ghost predicate DeletesFinal(s: State) {
    && (forall i | 0 <= i < |s.outbox| && s.outbox[i].etype == Deleted ::
          s.outbox[i].entity in s.table ==> !Alive(s.table[s.outbox[i].entity]))
    && (forall i, j | 0 <= i < j < |s.outbox| && s.outbox[i].etype == Deleted :: s.outbox[j].entity != s.outbox[i].entity)
  }

  ghost predicate ReadPendingWrite(s: State, e: Entity) {
    Current(s) && s.worker.Loaded? && s.worker.row.Some? && s.outbox[s.worker.ev].entity == e
  }

  /** A removed row can only be in the index, or on its way there, while its delete event is open. */
  ghost predicate RemovedCovered(s: State) {
    forall e :: e !in s.table && (e in s.index || ReadPendingWrite(s, e)) ==> DeleteOpen(s.outbox, e)
  }

  /** What the worker knows about the event in its hands. */
  ghost predicate WorkerCovered(s: State) {
    match s.worker
    case Idle => true
    case Marked(i) => i < |s.outbox| && s.outbox[i].status == Processing
    case Loaded(i, row) =>
      && i < |s.outbox| && s.outbox[i].status == Processing && s.outbox[i].etype != Deleted
      && (row == Lookup(s.table, s.outbox[i].entity) || OpenBeside(s.outbox, s.outbox[i].entity, i))
    case Applied(i) =>
      && i < |s.outbox| && s.outbox[i].status == Processing
      && (InSync(s.table, s.index, s.outbox[i].entity) || OpenBeside(s.outbox, s.outbox[i].entity, i))
      && (s.outbox[i].etype == Deleted ==> s.outbox[i].entity !in s.index)
  }

  ghost predicate HasDelete(outbox: seq<Event>, e: Entity) {
    exists i :: 0 <= i < |outbox| && outbox[i].entity == e && outbox[i].etype == Deleted
  }

  /** An entity without a delete event keeps its row, and its document once one of its events is completed. */
  ghost predicate UndeletedKept(s: State) {
    && (forall i | 0 <= i < |s.outbox| :: s.outbox[i].entity in s.table || HasDelete(s.outbox, s.outbox[i].entity))
    && (forall e | e in s.table && e !in s.index :: HasDelete(s.outbox, e) || OpenBeside(s.outbox, e, -1))
    && (Current(s) && s.worker.Loaded? && s.worker.row.None? ==> HasDelete(s.outbox, s.outbox[s.worker.ev].entity))
    && (Current(s) && s.worker.Applied? && s.outbox[s.worker.ev].entity !in s.index ==> HasDelete(s.outbox, s.outbox[s.worker.ev].entity))
  }

  ghost predicate SyncInv(s: State) { Synchronised(s) && DeletesFinal(s) && RemovedCovered(s) && WorkerCovered(s) }

  ghost predicate Inv(s: State) { SyncInv(s) && UndeletedKept(s) }

  /** Open events survive a change of one event that does not complete it. */
  lemma OpenKept(before: seq<Event>, after: seq<Event>, x: int)
    requires |before| <= |after|
    requires forall i | 0 <= i < |before| ::
      after[i].entity == before[i].entity && after[i].etype == before[i].etype &&
      (i == x || before[i].status == Completed || after[i].status != Completed)
    ensures forall i, e | Open(before, i, e) && i != x :: Open(after, i, e)
    ensures forall e | OpenBeside(before, e, x) :: OpenBeside(after, e, x)
    ensures x < 0 ==> forall e | DeleteOpen(before, e) :: DeleteOpen(after, e)
    ensures x < 0 ==> forall e, i | OpenBeside(before, e, i) :: OpenBeside(after, e, i)
  {
  }

  lemma DeleteStays(before: seq<Event>, after: seq<Event>)
    requires |before| <= |after|
    requires forall i | 0 <= i < |before| :: after[i].entity == before[i].entity && after[i].etype == before[i].etype
    ensures forall e | HasDelete(before, e) :: HasDelete(after, e)
  {
    forall e | HasDelete(before, e) ensures HasDelete(after, e) {
      var i :| 0 <= i < |before| && before[i].entity == e && before[i].etype == Deleted;
      assert after[i].entity == e && after[i].etype == Deleted;
    }
  }

  lemma CommitKeepsUndeleted(s: State, w: Write, at: int)
    requires UndeletedKept(s) && WorkerCovered(s) && WriteAllowed(s, w)
    ensures UndeletedKept(Apply(s, Commit(w, at)))
  {
    var s' := Apply(s, Commit(w, at));
    var last := |s.outbox|;
    DeleteStays(s.outbox, s'.outbox);
    OpenKept(s.outbox, s'.outbox, -1);
    assert Open(s'.outbox, last, w.entity);
    assert EventTypeOf(w) == Deleted ==> HasDelete(s'.outbox, w.entity) by {
      assert s'.outbox[last].entity == w.entity && s'.outbox[last].etype == EventTypeOf(w);
    }
  }

  lemma WorkerKeepsUndeleted(s: State, step: Step, maxRetries: nat)
    requires UndeletedKept(s) && WorkerCovered(s) && Enabled(s, step, maxRetries)
    requires !step.Commit? && !step.Complete?
    ensures UndeletedKept(Apply(s, step))
  {
    var s' := Apply(s, step);
    DeleteStays(s.outbox, s'.outbox);
    OpenKept(s.outbox, s'.outbox, -1);
    if step.DropDocument? {
      assert HasDelete(s.outbox, s.outbox[s.worker.ev].entity);
    }
  }

  lemma CompleteKeepsUndeleted(s: State)
    requires UndeletedKept(s) && WorkerCovered(s) && Current(s) && s.worker.Applied?
    ensures UndeletedKept(Apply(s, Complete))
  {
    var s' := Apply(s, Complete);
    DeleteStays(s.outbox, s'.outbox);
    OpenKept(s.outbox, s'.outbox, s.worker.ev);
    forall e | e in s'.table && e !in s'.index ensures HasDelete(s'.outbox, e) || OpenBeside(s'.outbox, e, -1) {
      if OpenBeside(s.outbox, e, -1) && e != s.outbox[s.worker.ev].entity {
        var j :| Open(s.outbox, j, e) && j != -1;
        assert Open(s'.outbox, j, e);
      }
    }
  }

  lemma CommitKeepsSync(s: State, w: Write, at: int)
    requires SyncInv(s) && WriteAllowed(s, w)
    ensures SyncInv(Apply(s, Commit(w, at)))
  {
    var s' := Apply(s, Commit(w, at));
    var last := |s.outbox|;
    OpenKept(s.outbox, s'.outbox, -1);
    assert Open(s'.outbox, last, w.entity);
    forall e ensures InSync(s'.table, s'.index, e) || OpenBeside(s'.outbox, e, -1) {
      if e != w.entity {
        assert InSync(s.table, s.index, e) || OpenBeside(s.outbox, e, -1);
      }
    }
    forall e | e !in s'.table && (e in s'.index || ReadPendingWrite(s', e)) ensures DeleteOpen(s'.outbox, e) {
      if e == w.entity {
        assert s'.outbox[last].etype == Deleted;
      } else {
        assert ReadPendingWrite(s', e) ==> ReadPendingWrite(s, e);
      }
    }
  }

  lemma WorkerKeepsSync(s: State, step: Step, maxRetries: nat)
    requires SyncInv(s) && Enabled(s, step, maxRetries)
    requires step.Begin? || step.RejectUnknown? || step.Fault? || step.Crash? || step.Retry? || step.Load?
    ensures SyncInv(Apply(s, step))
  {
    var s' := Apply(s, step);
    OpenKept(s.outbox, s'.outbox, -1);
    forall e ensures InSync(s'.table, s'.index, e) || OpenBeside(s'.outbox, e, -1) {
      assert InSync(s.table, s.index, e) || OpenBeside(s.outbox, e, -1);
    }
    forall e | e !in s'.table && (e in s'.index || ReadPendingWrite(s', e)) ensures DeleteOpen(s'.outbox, e) {
      assert ReadPendingWrite(s', e) ==> ReadPendingWrite(s, e);
    }
  }

  lemma WriteDocumentKeepsSync(s: State)
    requires SyncInv(s) && Current(s) && s.worker.Loaded?
    ensures SyncInv(Apply(s, WriteDocument))
  {
  }

  lemma DropDocumentKeepsSync(s: State)
    requires SyncInv(s) && Enabled(s, DropDocument, 0)
    ensures SyncInv(Apply(s, DropDocument))
  {
  }

  lemma CompleteKeepsSync(s: State)
    requires SyncInv(s) && Current(s) && s.worker.Applied?
    ensures SyncInv(Apply(s, Complete))
  {
    var s' := Apply(s, Complete);
    var i, e0 := s.worker.ev, s.outbox[s.worker.ev].entity;
    OpenKept(s.outbox, s'.outbox, i);
    forall e ensures InSync(s'.table, s'.index, e) || OpenBeside(s'.outbox, e, -1) {
      if e == e0 {
        if OpenBeside(s.outbox, e, i) {
          var j :| Open(s.outbox, j, e) && j != i;
          assert Open(s'.outbox, j, e);
        }
      } else if OpenBeside(s.outbox, e, -1) {
        var j :| Open(s.outbox, j, e) && j != -1;
        assert Open(s'.outbox, j, e);
      }
    }
    forall e | e !in s'.table && (e in s'.index || ReadPendingWrite(s', e)) ensures DeleteOpen(s'.outbox, e) {
      assert DeleteOpen(s.outbox, e);
      var d :| Open(s.outbox, d, e) && s.outbox[d].etype == Deleted;
      assert Open(s'.outbox, d, e);
    }
  }

  lemma CommitKeepsInv(s: State, w: Write, at: int)
    requires Inv(s) && WriteAllowed(s, w)
    ensures Inv(Apply(s, Commit(w, at)))
  {
    CommitKeepsSync(s, w, at);
    CommitKeepsUndeleted(s, w, at);
  }

  lemma StepKeepsSync(s: State, step: Step, maxRetries: nat)
    requires SyncInv(s) && Enabled(s, step, maxRetries)
    ensures SyncInv(Apply(s, step))
  {
    match step
    case Commit(w, at) => CommitKeepsSync(s, w, at);
    case WriteDocument => WriteDocumentKeepsSync(s);
    case DropDocument => DropDocumentKeepsSync(s);
    case Complete => CompleteKeepsSync(s);
    case _ => WorkerKeepsSync(s, step, maxRetries);
  }

  lemma StepKeepsInv(s: State, step: Step, maxRetries: nat)
    requires Inv(s) && Enabled(s, step, maxRetries)
    ensures Inv(Apply(s, step))
  {
    StepKeepsSync(s, step, maxRetries);
    match step
    case Commit(w, at) => CommitKeepsUndeleted(s, w, at);
    case Complete => CompleteKeepsUndeleted(s);
    case _ => WorkerKeepsUndeleted(s, step, maxRetries);
  }

  /**
   Safety over every run: whatever the interleaving, an entity whose index entry differs from its
   row has an event the worker has not completed.
   */
  lemma {:induction false} EveryRunIsSynchronised(steps: seq<Step>, maxRetries: nat)
    requires Legal(INIT, steps, maxRetries)
    ensures Inv(Run(INIT, steps))
    ensures forall e :: InSync(Run(INIT, steps).table, Run(INIT, steps).index, e) || OpenBeside(Run(INIT, steps).outbox, e, -1)
  {
    if steps != [] {
      var front := steps[..|steps| - 1];
      EveryRunIsSynchronised(front, maxRetries);
      StepKeepsInv(Run(INIT, front), steps[|steps| - 1], maxRetries);
    }
  }

  /** The writes a run commits, in order, each with its time. */
  function Writes(steps: seq<Step>): seq<Step> {
    if steps == [] then []
    else Writes(steps[..|steps| - 1]) + if steps[|steps| - 1].Commit? then [steps[|steps| - 1]] else []
  }

  predicate Records(ev: Event, step: Step) {
    && step.Commit? && ev.entity == step.w.entity && ev.createdAt == step.at
    && (ev.etype == Created <==> step.w.Create?) && (ev.etype == Updated <==> step.w.Update?)
  }

  /** Over every run the outbox holds one row for each committed write, in their order: none is lost, doubled or redated. */
  lemma {:induction false} OutboxIsHistory(steps: seq<Step>, maxRetries: nat)
    requires Legal(INIT, steps, maxRetries)
    ensures |Run(INIT, steps).outbox| == |Writes(steps)|
    ensures forall i | 0 <= i < |Writes(steps)| :: Records(Run(INIT, steps).outbox[i], Writes(steps)[i])
  {
    if steps != [] {
      OutboxIsHistory(steps[..|steps| - 1], maxRetries);
      StepKeepsHistory(Run(INIT, steps[..|steps| - 1]), steps[|steps| - 1]);
    }
  }

  lemma StepKeepsHistory(s: State, step: Step)
    ensures step.Commit? ==> |Apply(s, step).outbox| == |s.outbox| + 1 && Records(Apply(s, step).outbox[|s.outbox|], step)
    ensures !step.Commit? ==> |Apply(s, step).outbox| == |s.outbox|
    ensures forall i | 0 <= i < |s.outbox| ::
      var ev, ev' := s.outbox[i], Apply(s, step).outbox[i];
      ev'.entity == ev.entity && ev'.etype == ev.etype && ev'.createdAt == ev.createdAt
  {
  }

  /** No event of `e` is left to do. */
  predicate AllCompleted(outbox: seq<Event>, e: Entity) {
    forall i | 0 <= i < |outbox| && outbox[i].entity == e :: outbox[i].status == Completed
  }

  lemma UndeletedIsIndexed(s: State, e: Entity)
    requires Inv(s) && e in s.table && !HasDelete(s.outbox, e) && AllCompleted(s.outbox, e)
    ensures Lookup(s.index, e) == Some(s.table[e])
  {
    assert InSync(s.table, s.index, e) || OpenBeside(s.outbox, e, -1);
  }

  /** A stored row without a delete event, live or not, has its document once its events are completed. */
  lemma UndeletedStaysIndexed(steps: seq<Step>, e: Entity, maxRetries: nat)
    requires Legal(INIT, steps, maxRetries)
    requires e in Run(INIT, steps).table && !HasDelete(Run(INIT, steps).outbox, e) && AllCompleted(Run(INIT, steps).outbox, e)
    ensures Lookup(Run(INIT, steps).index, e) == Some(Run(INIT, steps).table[e])
  {
    EveryRunIsSynchronised(steps, maxRetries);
    UndeletedIsIndexed(Run(INIT, steps), e);
  }

  /** A row that has become inactive without a delete event never gets one, and never changes again. */
  predicate DeadUndeleted(s: State, e: Entity, row: Row) {
    && e in s.table && s.table[e] == row && !Alive(row)
    && forall i | 0 <= i < |s.outbox| && s.outbox[i].entity == e :: s.outbox[i].etype != Deleted
  }

  lemma {:induction false} DeadStaysUndeleted(s: State, steps: seq<Step>, e: Entity, row: Row, maxRetries: nat)
    requires DeadUndeleted(s, e, row) && Legal(s, steps, maxRetries)
    ensures DeadUndeleted(Run(s, steps), e, row)
  {
    if steps != [] {
      var front, last := steps[..|steps| - 1], steps[|steps| - 1];
      DeadStaysUndeleted(s, front, e, row, maxRetries);
      StepKeepsDead(Run(s, front), last, e, row, maxRetries);
    }
  }

  lemma StepKeepsDead(s: State, step: Step, e: Entity, row: Row, maxRetries: nat)
    requires DeadUndeleted(s, e, row) && Enabled(s, step, maxRetries)
    ensures DeadUndeleted(Apply(s, step), e, row)
  {
  }
}
