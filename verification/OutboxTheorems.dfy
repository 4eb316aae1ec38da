/** What the outbox job guarantees: where a batch stops, that it is a run of the protocol, that it drains. */
module OutboxTheorems {
  import opened Schema
  import opened SyncProtocol
  import opened OutboxWorker

  // ---- the cut ------------------------------------------------------------------------------

  lemma {:induction false} ProcessedAllAt(s: State, ids: seq<nat>)
    requires Ids(s, ids) && Distinct(ids)
    ensures forall p | 0 <= p < |ids| :: ProcessedAll(s, ids).outbox[ids[p]] == Finished(s.outbox[ids[p]])
    ensures forall i: nat | i < |s.outbox| && i !in ids :: ProcessedAll(s, ids).outbox[i] == s.outbox[i]
  {
    if ids != [] {
      var front := ids[..|ids| - 1];
      ProcessedAllAt(s, front);
      assert ids[|ids| - 1] !in front;
      assert ids == front + [ids[|ids| - 1]];
    }
  }

  /** How far a batch got: everything before the cut is finished, nothing after it was touched. */
  function Reached(ids: seq<nat>, r: Outcome): int {
    if r.RaisedAt? then r.cut else |ids|
  }

  lemma FaultAt(s: State, ids: seq<nat>, k: nat, applied: bool, i: nat)
    requires Ids(s, ids) && Distinct(ids) && k < |ids| && i < |s.outbox|
    ensures var s' := Faulted(ProcessedAll(s, ids[..k]), ids[k], applied);
      && (i in ids[..k] ==> s'.outbox[i] == Finished(s.outbox[i]))
      && (i == ids[k] ==> s'.outbox[i] == Fail(s.outbox[i]))
      && (i !in ids[..k] && i != ids[k] ==> s'.outbox[i] == s.outbox[i])
  {
    ProcessedAllAt(s, ids[..k]);
    assert ids[k] !in ids[..k];
    if i in ids[..k] {
      var p :| 0 <= p < k && ids[..k][p] == i;
      assert ProcessedAll(s, ids[..k]).outbox[ids[..k][p]] == Finished(s.outbox[ids[..k][p]]);
    }
  }

  /** After a batch of pending events, returning or raising, there is a cut and no event is left half-way. */
  lemma BatchCut(s: State, ids: seq<nat>, r: Outcome, s': State)
    requires Ids(s, ids) && Distinct(ids) && BatchResult(s, ids, r, s')
    requires forall p | 0 <= p < |ids| :: s.outbox[ids[p]].status == Pending
    ensures |s'.outbox| == |s.outbox| && s'.table == s.table
    ensures forall p | 0 <= p < Reached(ids, r) :: s'.outbox[ids[p]] == Finished(s.outbox[ids[p]])
    ensures r.RaisedAt? ==> s'.outbox[ids[r.cut]] == Fail(s.outbox[ids[r.cut]])
    ensures forall p | Reached(ids, r) < p < |ids| :: s'.outbox[ids[p]] == s.outbox[ids[p]]
    ensures forall i: nat | i < |s.outbox| && i !in ids :: s'.outbox[i] == s.outbox[i]
    ensures forall p | 0 <= p < |ids| :: s'.outbox[ids[p]].status != Processing
  {
    match r
    case Handled(_) => ProcessedAllAt(s, ids);
    case RaisedAt(k) =>
      var applied :| s' == Faulted(ProcessedAll(s, ids[..k]), ids[k], applied);
      forall p | 0 <= p < |ids|
        ensures s'.outbox[ids[p]] == if p < k then Finished(s.outbox[ids[p]]) else if p == k then Fail(s.outbox[ids[p]]) else s.outbox[ids[p]]
      {
        FaultAt(s, ids, k, applied, ids[p]);
        assert p < k ==> ids[..k][p] == ids[p];
      }
      forall i: nat | i < |s.outbox| && i !in ids ensures s'.outbox[i] == s.outbox[i] {
        FaultAt(s, ids, k, applied, i);
      }
  }

  // ---- the job is a run of the protocol -------------------------------------------------------

  function StepsFor(ev: Event, id: nat): seq<Step> {
    if !Indexed(ev.entity.kind) then [Begin(id), RejectUnknown]
    else if ev.etype == Deleted then [Begin(id), DropDocument, Complete]
    else [Begin(id), Load, WriteDocument, Complete]
  }

  function FaultSteps(ev: Event, id: nat, applied: bool): seq<Step> {
    if !applied then [Begin(id), Fault]
    else if ev.etype == Deleted then [Begin(id), DropDocument, Fault]
    else [Begin(id), Load, WriteDocument, Fault]
  }

  lemma RunSnoc(s: State, xs: seq<Step>, x: Step, maxRetries: nat)
    ensures Run(s, xs + [x]) == Apply(Run(s, xs), x)
    ensures Legal(s, xs + [x], maxRetries) <==> Legal(s, xs, maxRetries) && Enabled(Run(s, xs), x, maxRetries)
  {
  }

  lemma RunOf3(s: State, a: Step, b: Step, c: Step, maxRetries: nat)
    ensures Run(s, [a, b, c]) == Apply(Apply(Apply(s, a), b), c)
    ensures Legal(s, [a, b, c], maxRetries) <==>
            Enabled(s, a, maxRetries) && Enabled(Apply(s, a), b, maxRetries) && Enabled(Apply(Apply(s, a), b), c, maxRetries)
    ensures Run(s, [a, b]) == Apply(Apply(s, a), b)
    ensures Legal(s, [a, b], maxRetries) <==> Enabled(s, a, maxRetries) && Enabled(Apply(s, a), b, maxRetries)
  {
    RunSnoc(s, [], a, maxRetries);
    RunSnoc(s, [a], b, maxRetries);
    RunSnoc(s, [a, b], c, maxRetries);
    assert [] + [a] == [a] && [a] + [b] == [a, b] && [a, b] + [c] == [a, b, c];
  }

  lemma RunOf4(s: State, a: Step, b: Step, c: Step, d: Step, maxRetries: nat)
    ensures Run(s, [a, b, c, d]) == Apply(Apply(Apply(Apply(s, a), b), c), d)
    ensures Legal(s, [a, b, c, d], maxRetries) <==> Legal(s, [a, b, c], maxRetries) && Enabled(Apply(Apply(Apply(s, a), b), c), d, maxRetries)
  {
    RunOf3(s, a, b, c, maxRetries);
    RunSnoc(s, [a, b, c], d, maxRetries);
    assert [a, b, c] + [d] == [a, b, c, d];
  }

  /** The event is marked, and its index operation done; the status is still to be written. */
  function InHand(s: State, id: nat): State
    requires id < |s.outbox|
  {
    State(s.table, s.outbox[id := s.outbox[id].(status := Processing)], IndexAfter(s.table, s.index, s.outbox[id]), Applied(id))
  }

  lemma WriteSteps(s: State, id: nat, last: Step, maxRetries: nat)
    requires s.worker.Idle? && id < |s.outbox| && s.outbox[id].status == Pending
    requires Indexed(s.outbox[id].entity.kind) && s.outbox[id].etype != Deleted
    ensures Run(s, [Begin(id), Load, WriteDocument, last]) == Apply(InHand(s, id), last)
    ensures Legal(s, [Begin(id), Load, WriteDocument, last], maxRetries) <==> Enabled(InHand(s, id), last, maxRetries)
  {
    RunOf3(s, Begin(id), Load, WriteDocument, maxRetries);
    RunOf4(s, Begin(id), Load, WriteDocument, last, maxRetries);
    var marked := Apply(s, Begin(id));
    assert marked.outbox[id].entity == s.outbox[id].entity && marked.outbox[id].etype == s.outbox[id].etype;
    assert Apply(marked, Load) == marked.(worker := Loaded(id, Lookup(s.table, s.outbox[id].entity)));
    assert Apply(Apply(marked, Load), WriteDocument) == InHand(s, id);
  }

  lemma DropSteps(s: State, id: nat, last: Step, maxRetries: nat)
    requires s.worker.Idle? && id < |s.outbox| && s.outbox[id].status == Pending
    requires Indexed(s.outbox[id].entity.kind) && s.outbox[id].etype == Deleted
    ensures Run(s, [Begin(id), DropDocument, last]) == Apply(InHand(s, id), last)
    ensures Legal(s, [Begin(id), DropDocument, last], maxRetries) <==> Enabled(InHand(s, id), last, maxRetries)
  {
    RunOf3(s, Begin(id), DropDocument, last, maxRetries);
    assert Apply(Apply(s, Begin(id)), DropDocument) == InHand(s, id);
  }

  lemma SingleIsRun(s: State, id: nat, maxRetries: nat)
    requires s.worker.Idle? && id < |s.outbox| && s.outbox[id].status == Pending
    ensures Legal(s, StepsFor(s.outbox[id], id), maxRetries)
    ensures Run(s, StepsFor(s.outbox[id], id)) == Processed(s, id)
  {
    var ev := s.outbox[id];
    if !Indexed(ev.entity.kind) {
      RunOf3(s, Begin(id), RejectUnknown, Crash, maxRetries);
    } else if ev.etype == Deleted {
      DropSteps(s, id, Complete, maxRetries);
    } else {
      WriteSteps(s, id, Complete, maxRetries);
    }
  }

  lemma FaultIsRun(s: State, id: nat, applied: bool, maxRetries: nat)
    requires s.worker.Idle? && id < |s.outbox| && s.outbox[id].status == Pending && Indexed(s.outbox[id].entity.kind)
    ensures Legal(s, FaultSteps(s.outbox[id], id, applied), maxRetries)
    ensures Run(s, FaultSteps(s.outbox[id], id, applied)) == Faulted(s, id, applied)
  {
    if !applied {
      RunOf3(s, Begin(id), Fault, Crash, maxRetries);
    } else if s.outbox[id].etype == Deleted {
      DropSteps(s, id, Fault, maxRetries);
    } else {
      WriteSteps(s, id, Fault, maxRetries);
    }
  }

  function BatchSteps(s: State, ids: seq<nat>): seq<Step>
    requires Ids(s, ids)
  {
    if ids == [] then [] else BatchSteps(s, ids[..|ids| - 1]) + StepsFor(s.outbox[ids[|ids| - 1]], ids[|ids| - 1])
  }

  lemma {:induction false} ProcessedAllIsRun(s: State, ids: seq<nat>, maxRetries: nat)
    requires s.worker.Idle? && Ids(s, ids) && Distinct(ids)
    requires forall p | 0 <= p < |ids| :: s.outbox[ids[p]].status == Pending
    ensures Legal(s, BatchSteps(s, ids), maxRetries)
    ensures Run(s, BatchSteps(s, ids)) == ProcessedAll(s, ids)
  {
    if ids != [] {
      var front, id := ids[..|ids| - 1], ids[|ids| - 1];
      ProcessedAllIsRun(s, front, maxRetries);
      ProcessedAllAt(s, front);
      assert id !in front;
      SingleIsRun(ProcessedAll(s, front), id, maxRetries);
      RunAppend(s, BatchSteps(s, front), StepsFor(s.outbox[id], id), maxRetries);
    }
  }

  /** Whatever a batch call does, fault or not, some run of the protocol does. */
  lemma BatchIsRun(s: State, ids: seq<nat>, r: Outcome, s': State, maxRetries: nat) returns (steps: seq<Step>)
    requires s.worker.Idle? && Ids(s, ids) && Distinct(ids) && BatchResult(s, ids, r, s')
    requires forall p | 0 <= p < |ids| :: s.outbox[ids[p]].status == Pending
    ensures Legal(s, steps, maxRetries) && Run(s, steps) == s'
  {
    match r
    case Handled(_) =>
      ProcessedAllIsRun(s, ids, maxRetries);
      steps := BatchSteps(s, ids);
    case RaisedAt(k) =>
      var front, id := ids[..k], ids[k];
      var applied :| s' == Faulted(ProcessedAll(s, front), id, applied);
      ProcessedAllIsRun(s, front, maxRetries);
      ProcessedAllAt(s, front);
      assert id !in front;
      FaultIsRun(ProcessedAll(s, front), id, applied, maxRetries);
      RunAppend(s, BatchSteps(s, front), FaultSteps(s.outbox[id], id, applied), maxRetries);
      steps := BatchSteps(s, front) + FaultSteps(s.outbox[id], id, applied);
  }

  function RetrySteps(ids: seq<nat>): seq<Step> {
    if ids == [] then [] else RetrySteps(ids[..|ids| - 1]) + [Retry(ids[|ids| - 1])]
  }

  lemma {:induction false} RetriedElsewhere(outbox: seq<Event>, ids: seq<nat>, i: nat)
    requires forall p | 0 <= p < |ids| :: ids[p] < |outbox|
    requires i < |outbox| && i !in ids
    ensures Retried(outbox, ids)[i] == outbox[i]
  {
    if ids != [] {
      assert ids[|ids| - 1] in ids;
      RetriedElsewhere(outbox, ids[..|ids| - 1], i);
    }
  }

  lemma RetryOnce(s: State, front: seq<Step>, id: nat, outbox: seq<Event>, maxRetries: nat)
    requires Legal(s, front, maxRetries) && Run(s, front) == s.(outbox := outbox)
    requires id < |outbox| && outbox[id].status == Failed && outbox[id].retries < maxRetries
    ensures Legal(s, front + [Retry(id)], maxRetries)
    ensures Run(s, front + [Retry(id)]) == s.(outbox := outbox[id := outbox[id].(status := Pending, retries := outbox[id].retries + 1)])
  {
    RunSnoc(s, front, Retry(id), maxRetries);
  }

  /** The retry job is a run of the protocol too. */
  lemma {:induction false} RetryIsRun(s: State, ids: seq<nat>, maxRetries: nat)
    requires Ids(s, ids) && Distinct(ids)
    requires forall p | 0 <= p < |ids| :: s.outbox[ids[p]].status == Failed && s.outbox[ids[p]].retries < maxRetries
    ensures Legal(s, RetrySteps(ids), maxRetries)
    ensures Run(s, RetrySteps(ids)) == s.(outbox := Retried(s.outbox, ids))
  {
    if ids != [] {
      var front, id := ids[..|ids| - 1], ids[|ids| - 1];
      RetryIsRun(s, front, maxRetries);
      RetriedElsewhere(s.outbox, front, id);
      RetryOnce(s, RetrySteps(front), id, Retried(s.outbox, front), maxRetries);
    }
  }

  lemma {:induction false} RunKeepsInv(s: State, steps: seq<Step>, maxRetries: nat)
    requires Inv(s) && Legal(s, steps, maxRetries)
    ensures Inv(Run(s, steps))
  {
    if steps != [] {
      RunKeepsInv(s, steps[..|steps| - 1], maxRetries);
      StepKeepsInv(Run(s, steps[..|steps| - 1]), steps[|steps| - 1], maxRetries);
    }
  }

  // ---- a crash ----------------------------------------------------------------------------------

  /** Marked as processing by a worker that is not working on it any more. */
  predicate Stranded(s: State, i: nat) {
    i < |s.outbox| && s.outbox[i].status == Processing && (s.worker.Idle? || s.worker.ev != i)
  }

  /** The worker dies inside event `i`. */
  predicate CrashesIn(s: State, step: Step, i: nat) { step == Crash && Current(s) && s.worker.ev == i }

  /** Only a crash strands an event, and no step of either job ever takes it up again. */
  lemma StepStrandsIffCrash(s: State, step: Step, i: nat, maxRetries: nat)
    requires WorkerCovered(s) && Enabled(s, step, maxRetries)
    ensures Stranded(Apply(s, step), i) <==> Stranded(s, i) || CrashesIn(s, step, i)
  {
  }

  predicate CrashedAt(steps: seq<Step>, k: int, i: nat) {
    0 <= k < |steps| && CrashesIn(Run(INIT, steps[..k]), steps[k], i)
  }

  /** At some point of the run the worker has died inside event `i`. */
  ghost predicate Crashed(steps: seq<Step>, i: nat) { exists k :: CrashedAt(steps, k, i) }

  lemma CrashedAtPrefix(steps: seq<Step>, k: int, i: nat)
    requires 0 <= k < |steps| - 1
    ensures CrashedAt(steps, k, i) <==> CrashedAt(steps[..|steps| - 1], k, i)
  {
    assert steps[..|steps| - 1][..k] == steps[..k];
  }

  lemma CrashedByLast(steps: seq<Step>, i: nat)
    requires steps != []
    ensures Crashed(steps, i) <==>
      Crashed(steps[..|steps| - 1], i) || CrashesIn(Run(INIT, steps[..|steps| - 1]), steps[|steps| - 1], i)
  {
    var n := |steps| - 1;
    if k :| CrashedAt(steps, k, i) && k < n {
      CrashedAtPrefix(steps, k, i);
    }
    if k :| CrashedAt(steps[..n], k, i) {
      CrashedAtPrefix(steps, k, i);
    }
    assert CrashedAt(steps, n, i) <==> CrashesIn(Run(INIT, steps[..n]), steps[n], i);
  }

  /** Over every run: the events that stay in processing for good are exactly those inside which the worker has died. */
  lemma {:induction false} StrandedIffCrashed(steps: seq<Step>, i: nat, maxRetries: nat)
    requires Legal(INIT, steps, maxRetries)
    ensures Stranded(Run(INIT, steps), i) <==> Crashed(steps, i)
  {
    if steps != [] {
      var front := steps[..|steps| - 1];
      StrandedIffCrashed(front, i, maxRetries);
      EveryRunIsSynchronised(front, maxRetries);
      StepStrandsIffCrash(Run(INIT, front), steps[|steps| - 1], i, maxRetries);
      CrashedByLast(steps, i);
    }
  }

  lemma {:induction false} StrandedForever(s: State, steps: seq<Step>, i: nat, maxRetries: nat)
    requires Inv(s) && Stranded(s, i) && Legal(s, steps, maxRetries)
    ensures Stranded(Run(s, steps), i)
  {
    if steps != [] {
      var front, last := steps[..|steps| - 1], steps[|steps| - 1];
      StrandedForever(s, front, i, maxRetries);
      RunKeepsInv(s, front, maxRetries);
      StepStrandsIffCrash(Run(s, front), last, i, maxRetries);
    }
  }

  // ---- confluence -----------------------------------------------------------------------------

  /** Carrying out a list of events of one entity against a table that does not change. */
  function Replay(table: Table, index: Index, e: Entity, types: seq<EventType>): Index {
    if types == [] then index
    else IndexAfter(table, Replay(table, index, e, types[..|types| - 1]), Event(types[|types| - 1], e, 0, Pending, 0))
  }

  lemma OneEvent(table: Table, index: Index, ev: Event, f: Entity)
    requires Indexed(ev.entity.kind)
    ensures Lookup(IndexAfter(table, index, ev), f) ==
            if f != ev.entity then Lookup(index, f)
            else if ev.etype == Deleted then None
            else if f in table then Some(table[f])
            else Lookup(index, f)
  {
  }

  /** The entry a replay ends with, whatever the order and however often an event repeats. */
  lemma {:induction false} ReplayEntry(table: Table, index: Index, e: Entity, types: seq<EventType>, f: Entity)
    requires Indexed(e.kind) && types != []
    ensures Lookup(Replay(table, index, e, types), f) ==
            if f != e then Lookup(index, f)
            else if types[|types| - 1] == Deleted || (e !in table && Deleted in types) then None
            else if e in table then Some(table[e])
            else Lookup(index, e)
  {
    var front, last := types[..|types| - 1], types[|types| - 1];
    assert types == front + [last];
    OneEvent(table, Replay(table, index, e, front), Event(last, e, 0, Pending, 0), f);
    if front == [] {
      assert Replay(table, index, e, front) == index;
    } else {
      ReplayEntry(table, index, e, front, f);
    }
  }

  lemma SameLookups(a: Index, b: Index)
    requires forall f :: Lookup(a, f) == Lookup(b, f)
    ensures a == b
  {
    forall f ensures (f in a <==> f in b) && (f in a ==> a[f] == b[f]) {
      assert Lookup(a, f) == Lookup(b, f);
    }
  }

  /** Any two orders of the same events agree, for a live row and for a removed one with its delete event. */
  lemma Confluence(table: Table, index: Index, e: Entity, xs: seq<EventType>, ys: seq<EventType>)
    requires Indexed(e.kind) && xs != [] && ys != []
    requires forall t :: t in xs <==> t in ys
    requires if e in table then Deleted !in xs else Deleted in xs
    ensures Replay(table, index, e, xs) == Replay(table, index, e, ys)
    ensures Lookup(Replay(table, index, e, xs), e) == Lookup(table, e)
  {
    var a, b := Replay(table, index, e, xs), Replay(table, index, e, ys);
    forall f ensures Lookup(a, f) == Lookup(b, f) {
      ReplayEntry(table, index, e, xs, f);
      ReplayEntry(table, index, e, ys, f);
    }
    SameLookups(a, b);
    ReplayEntry(table, index, e, xs, e);
  }

  /** For a row kept but deactivated the order does matter: its document goes iff the delete comes last. */
  lemma {:induction false} DeactivatedEntry(table: Table, index: Index, e: Entity, types: seq<EventType>)
    requires Indexed(e.kind) && types != [] && e in table && !Alive(table[e])
    ensures e !in Replay(table, index, e, types) <==> types[|types| - 1] == Deleted
  {
    ReplayEntry(table, index, e, types, e);
  }

  lemma Extend(xs: seq<Step>, s: State, ys: seq<Step>, s': State, maxRetries: nat)
    requires Legal(INIT, xs, maxRetries) && Run(INIT, xs) == s
    requires Legal(s, ys, maxRetries) && Run(s, ys) == s'
    ensures Legal(INIT, xs + ys, maxRetries) && Run(INIT, xs + ys) == s'
  {
    RunAppend(INIT, xs, ys, maxRetries);
  }

  lemma CreateThenDeactivate(e: Entity, row: Row, dead: Row, maxRetries: nat) returns (steps: seq<Step>)
    requires Alive(row) && !Alive(dead)
    ensures Legal(INIT, steps, maxRetries)
    ensures Run(INIT, steps) == State(map[e := dead], [Event(Created, e, 0, Pending, 0), Event(Deleted, e, 1, Pending, 0)], map[], Idle)
  {
    steps := [Commit(Create(e, row), 0), Commit(Deactivate(e, dead), 1)];
    RunOf3(INIT, steps[0], steps[1], Crash, maxRetries);
    assert map[][e := row][e := dead] == map[e := dead];
  }

  lemma FailThenDelete(e: Entity, dead: Row, created: Event, deleted: Event, maxRetries: nat) returns (steps: seq<Step>)
    requires Indexed(e.kind) && created == Event(Created, e, 0, Pending, 0) && deleted == Event(Deleted, e, 1, Pending, 0)
    ensures Legal(State(map[e := dead], [created, deleted], map[], Idle), steps, maxRetries)
    ensures Run(State(map[e := dead], [created, deleted], map[], Idle), steps) ==
            State(map[e := dead], [Fail(created), Finished(deleted)], map[], Idle)
  {
    var start := State(map[e := dead], [created, deleted], map[], Idle);
    var failed := start.(outbox := [Fail(created), deleted]);
    FaultIsRun(start, 0, false, maxRetries);
    assert Faulted(start, 0, false) == failed;
    SingleIsRun(failed, 1, maxRetries);
    steps := FaultSteps(created, 0, false) + StepsFor(deleted, 1);
    RunAppend(start, FaultSteps(created, 0, false), StepsFor(deleted, 1), maxRetries);
  }

  lemma RetryThenWrite(e: Entity, dead: Row, failed: Event, deleted: Event, maxRetries: nat) returns (steps: seq<Step>)
    requires Indexed(e.kind) && failed.entity == e && failed.etype == Created && failed.status == Failed && failed.retries < maxRetries
    ensures Legal(State(map[e := dead], [failed, deleted], map[], Idle), steps, maxRetries)
    ensures Run(State(map[e := dead], [failed, deleted], map[], Idle), steps) ==
            State(map[e := dead], [failed.(status := Completed, retries := failed.retries + 1), deleted], map[e := dead], Idle)
  {
    var start := State(map[e := dead], [failed, deleted], map[], Idle);
    var again := start.(outbox := [failed.(status := Pending, retries := failed.retries + 1), deleted]);
    RetryOnce(start, [], 0, start.outbox, maxRetries);
    assert start.outbox[0 := again.outbox[0]] == again.outbox;
    SingleIsRun(again, 0, maxRetries);
    assert again.outbox[0 := Finished(again.outbox[0])] == [Finished(again.outbox[0]), deleted];
    var writes := StepsFor(again.outbox[0], 0);
    steps := [] + [Retry(0)] + writes;
    RunAppend(start, [] + [Retry(0)], writes, maxRetries);
    assert Processed(again, 0).index == map[e := dead];
  }

  /**
   A retry can overtake a delete: for every row that can be deactivated some run ends with every event
   completed and the inactive row in the index.
   */
  lemma RetryRestoresDeactivated(e: Entity, row: Row, dead: Row, maxRetries: nat) returns (steps: seq<Step>)
    requires Indexed(e.kind) && Alive(row) && !Alive(dead) && maxRetries > 1
    ensures Legal(INIT, steps, maxRetries)
    ensures Run(INIT, steps) == State(map[e := dead], [Event(Created, e, 0, Completed, 2), Event(Deleted, e, 1, Completed, 0)], map[e := dead], Idle)
  {
    var created, deleted := Event(Created, e, 0, Pending, 0), Event(Deleted, e, 1, Pending, 0);
    var start := State(map[e := dead], [created, deleted], map[], Idle);
    var dropped := start.(outbox := [Fail(created), Finished(deleted)]);
    steps := CreateThenDeactivate(e, row, dead, maxRetries);
    var first := FailThenDelete(e, dead, created, deleted, maxRetries);
    Extend(steps, start, first, dropped, maxRetries);
    steps := steps + first;
    var second := RetryThenWrite(e, dead, Fail(created), Finished(deleted), maxRetries);
    Extend(steps, dropped, second, Run(dropped, second), maxRetries);
    steps := steps + second;
  }
}
