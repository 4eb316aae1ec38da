/** Calls of the outbox job with no fault and no new write: the queue empties and the index settles. */
module OutboxDrain {
  import opened Schema
  import opened SyncProtocol
  import opened OutboxWorker
  import opened OutboxTheorems

  function PendingIds(outbox: seq<Event>): set<nat> {
    set i: nat | i < |outbox| && outbox[i].status == Pending
  }

  /** `batches` are possible answers to the successive calls' queries, each call handling its whole batch. */
  ghost predicate Calls(s: State, batchSize: nat, batches: seq<seq<nat>>)
    decreases |batches|
  {
    batches == [] ||
    (Answer(s.outbox, IS_PENDING, batchSize, batches[0]) && Calls(ProcessedAll(s, batches[0]), batchSize, batches[1..]))
  }

  ghost function AfterCalls(s: State, batchSize: nat, batches: seq<seq<nat>>): State
    requires Calls(s, batchSize, batches)
    decreases |batches|
  {
    if batches == [] then s else AfterCalls(ProcessedAll(s, batches[0]), batchSize, batches[1..])
  }

  // ---- how many are left ----------------------------------------------------------------------

  function SeqSet(ids: seq<nat>): set<nat> { set i | i in ids }

  lemma {:induction false} SeqSetSize(ids: seq<nat>)
    requires Distinct(ids)
    ensures |SeqSet(ids)| == |ids|
  {
    if ids != [] {
      var front, last := ids[..|ids| - 1], ids[|ids| - 1];
      SeqSetSize(front);
      assert last !in front;
      assert SeqSet(ids) == SeqSet(front) + {last} by { assert ids == front + [last]; }
    }
  }

  lemma BatchPending(s: State, batchSize: nat, ids: seq<nat>)
    requires Answer(s.outbox, IS_PENDING, batchSize, ids)
    ensures PendingIds(ProcessedAll(s, ids).outbox) == PendingIds(s.outbox) - SeqSet(ids)
    ensures |PendingIds(ProcessedAll(s, ids).outbox)| ==
            if |PendingIds(s.outbox)| <= batchSize then 0 else |PendingIds(s.outbox)| - batchSize
  {
    ProcessedAllAt(s, ids);
    SeqSetSize(ids);
    var before, after := PendingIds(s.outbox), PendingIds(ProcessedAll(s, ids).outbox);
    forall i: nat ensures i in after <==> i in before && i !in ids {
      if i < |s.outbox| && i in ids {
        var p :| 0 <= p < |ids| && ids[p] == i;
        assert ProcessedAll(s, ids).outbox[ids[p]] == Finished(s.outbox[ids[p]]);
      }
    }
    assert after == before - SeqSet(ids);
    assert SeqSet(ids) <= before;
    if |ids| < batchSize {
      forall i | i in before ensures i in ids {
        assert IS_PENDING(s.outbox[i]);
      }
      assert before == SeqSet(ids);
    }
  }

  /** What `n` pending events leave after `calls` calls of `batchSize`. */
  function Left(n: nat, batchSize: nat, calls: nat): nat {
    if calls == 0 then n else Left(if n <= batchSize then 0 else n - batchSize, batchSize, calls - 1)
  }

  /** Rounding up: the least number of calls of size b that cover n events. */
  function CeilDiv(n: nat, b: nat): nat
    requires b > 0
  {
    (n + b - 1) / b
  }

  lemma CeilDivBound(n: nat, b: nat, c: nat)
    requires b > 0
    ensures CeilDiv(n, b) <= c <==> n <= c * b
  {
    var q := CeilDiv(n, b);
    assert q * b <= n + b - 1 < q * b + b;
    if q <= c {
      assert q * b <= c * b;
    } else {
      assert (c + 1) * b <= q * b;
    }
  }

  lemma {:induction false} LeftZero(n: nat, batchSize: nat, calls: nat)
    ensures Left(n, batchSize, calls) == 0 <==> n <= calls * batchSize
  {
    if calls > 0 {
      assert calls * batchSize == (calls - 1) * batchSize + batchSize;
      LeftZero(if n <= batchSize then 0 else n - batchSize, batchSize, calls - 1);
    }
  }

  lemma {:induction false} CallsLeave(s: State, batchSize: nat, batches: seq<seq<nat>>)
    requires Calls(s, batchSize, batches)
    ensures |PendingIds(AfterCalls(s, batchSize, batches).outbox)| == Left(|PendingIds(s.outbox)|, batchSize, |batches|)
    decreases |batches|
  {
    if batches != [] {
      BatchPending(s, batchSize, batches[0]);
      CallsLeave(ProcessedAll(s, batches[0]), batchSize, batches[1..]);
    }
  }

  /** n pending events are gone after ceil(n / b) calls of batch size b, and not before. */
  lemma DrainedIffEnoughCalls(s: State, batchSize: nat, batches: seq<seq<nat>>)
    requires batchSize > 0 && Calls(s, batchSize, batches)
    ensures PendingIds(AfterCalls(s, batchSize, batches).outbox) == {} <==> CeilDiv(|PendingIds(s.outbox)|, batchSize) <= |batches|
  {
    CallsLeave(s, batchSize, batches);
    LeftZero(|PendingIds(s.outbox)|, batchSize, |batches|);
    CeilDivBound(|PendingIds(s.outbox)|, batchSize, |batches|);
  }

  // ---- such calls exist -------------------------------------------------------------------------

  lemma {:induction false} OldestExists(outbox: seq<Event>, ids: set<nat>) returns (m: nat)
    requires ids != {} && forall i | i in ids :: i < |outbox|
    ensures m in ids && forall i | i in ids :: outbox[m].createdAt <= outbox[i].createdAt
    decreases |ids|
  {
    m :| m in ids;
    if ids != {m} {
      assert ids == {m} + (ids - {m});
      var rest := OldestExists(outbox, ids - {m});
      m := if outbox[rest].createdAt < outbox[m].createdAt then rest else m;
    }
  }

  /** Whatever the table holds, the database has an answer to either query. */
  lemma {:induction false} AnswerExists(outbox: seq<Event>, wanted: Event -> bool, limit: nat) returns (ids: seq<nat>)
    ensures Answer(outbox, wanted, limit, ids)
  {
    ids := [];
    if limit > 0 {
      ids := AnswerExists(outbox, wanted, limit - 1);
      var rest := set j: nat | j < |outbox| && wanted(outbox[j]) && j !in ids;
      if rest != {} {
        var m := OldestExists(outbox, rest);
        ids := ids + [m];
      } else {
        assert forall j: nat | j < |outbox| && wanted(outbox[j]) && j !in ids :: j in rest;
      }
    }
  }

  /** Any number of calls can be made, each with an answer to its own query. */
  lemma {:induction false} CallsExist(s: State, batchSize: nat, calls: nat) returns (batches: seq<seq<nat>>)
    ensures |batches| == calls && Calls(s, batchSize, batches)
    decreases calls
  {
    batches := [];
    if calls > 0 {
      var ids := AnswerExists(s.outbox, IS_PENDING, batchSize);
      batches := CallsExist(ProcessedAll(s, ids), batchSize, calls - 1);
      batches := [ids] + batches;
    }
  }

  // ---- progress after failures --------------------------------------------------------------------

  lemma {:induction false} CallsKeepLength(s: State, batchSize: nat, batches: seq<seq<nat>>)
    requires Calls(s, batchSize, batches)
    ensures |AfterCalls(s, batchSize, batches).outbox| == |s.outbox|
    decreases |batches|
  {
    if batches != [] {
      CallsKeepLength(ProcessedAll(s, batches[0]), batchSize, batches[1..]);
    }
  }

  lemma {:induction false} CallsFinish(s: State, batchSize: nat, batches: seq<seq<nat>>, i: nat)
    requires Calls(s, batchSize, batches) && i < |s.outbox|
    ensures i < |AfterCalls(s, batchSize, batches).outbox|
    ensures var ev := AfterCalls(s, batchSize, batches).outbox[i];
      ev == s.outbox[i] || (s.outbox[i].status == Pending && ev == Finished(s.outbox[i]))
    decreases |batches|
  {
    if batches != [] {
      var ids := batches[0];
      ProcessedAllAt(s, ids);
      if i in ids {
        var p :| 0 <= p < |ids| && ids[p] == i;
        assert IS_PENDING(s.outbox[ids[p]]);
      }
      CallsFinish(ProcessedAll(s, ids), batchSize, batches[1..], i);
    }
  }

  lemma {:induction false} RetriedAt(outbox: seq<Event>, ids: seq<nat>, p: nat)
    requires Distinct(ids) && p < |ids| && forall q | 0 <= q < |ids| :: ids[q] < |outbox|
    ensures Retried(outbox, ids)[ids[p]] == Again(outbox[ids[p]])
  {
    var front := ids[..|ids| - 1];
    if p < |front| {
      RetriedAt(outbox, front, p);
    } else {
      RetriedElsewhere(outbox, front, ids[p]);
    }
  }

  function Again(ev: Event): Event { ev.(status := Pending, retries := ev.retries + 1) }

  function RetriableIds(outbox: seq<Event>, maxRetries: nat): set<nat> {
    set i: nat | i < |outbox| && IsRetriable(maxRetries)(outbox[i])
  }

  const RETRY_LIMIT := 100

  function AfterRetry(s: State, ids: seq<nat>): State
    requires Ids(s, ids)
  {
    s.(outbox := Retried(s.outbox, ids))
  }

  /** Up to its limit the retry job finds every event that is not given up. */
  lemma AllAreRetried(outbox: seq<Event>, maxRetries: nat, ids: seq<nat>, i: nat)
    requires Answer(outbox, IsRetriable(maxRetries), RETRY_LIMIT, ids) && |RetriableIds(outbox, maxRetries)| <= RETRY_LIMIT
    requires i < |outbox|
    ensures Retried(outbox, ids)[i] == if IsRetriable(maxRetries)(outbox[i]) then Again(outbox[i]) else outbox[i]
  {
    SeqSetSize(ids);
    var found, all := SeqSet(ids), RetriableIds(outbox, maxRetries);
    assert found <= all;
    if i in ids {
      var p :| 0 <= p < |ids| && ids[p] == i;
      RetriedAt(outbox, ids, p);
    } else {
      RetriedElsewhere(outbox, ids, i);
      if i in all {
        assert found + {i} <= all;
        Smaller(found + {i}, all);
      }
    }
  }

  lemma {:induction false} Smaller(xs: set<nat>, ys: set<nat>)
    requires xs <= ys
    ensures |xs| <= |ys|
  {
    if xs != {} {
      var x :| x in xs;
      Smaller(xs - {x}, ys - {x});
    }
  }

  lemma FoundMayBeRetried(s: State, maxRetries: nat, ids: seq<nat>, p: nat)
    requires Answer(s.outbox, IsRetriable(maxRetries), RETRY_LIMIT, ids) && p < |ids|
    ensures ids[p] < |s.outbox| && s.outbox[ids[p]].status == Failed && s.outbox[ids[p]].retries < maxRetries
  {
    assert IsRetriable(maxRetries)(s.outbox[ids[p]]);
  }

  lemma GivenUpStays(s: State, maxRetries: nat, ids: seq<nat>, i: nat)
    requires Answer(s.outbox, IsRetriable(maxRetries), RETRY_LIMIT, ids) && i < |s.outbox| && GivenUp(s.outbox[i], maxRetries)
    ensures AfterRetry(s, ids).outbox[i] == s.outbox[i]
  {
    assert i !in ids;
    RetriedElsewhere(s.outbox, ids, i);
  }

  lemma NoneIsMissed(s: State, maxRetries: nat, ids: seq<nat>, i: nat)
    requires Answer(s.outbox, IsRetriable(maxRetries), RETRY_LIMIT, ids) && |ids| < 100 && Enabled(s, Retry(i), maxRetries)
    ensures i in ids
  {
    assert IsRetriable(maxRetries)(s.outbox[i]);
  }

  /**
   The answer to the retry query is what the protocol lets be retried under the same bound: retrying it is a
   legal run, a given-up event is not touched, and short of the limit no event that may be retried is missed.
   */
  lemma RetryKeepsTheBound(s: State, maxRetries: nat, ids: seq<nat>)
    requires Answer(s.outbox, IsRetriable(maxRetries), RETRY_LIMIT, ids)
    ensures Legal(s, RetrySteps(ids), maxRetries) && Run(s, RetrySteps(ids)) == AfterRetry(s, ids)
    ensures forall i: nat | i < |s.outbox| && GivenUp(s.outbox[i], maxRetries) :: AfterRetry(s, ids).outbox[i] == s.outbox[i]
    ensures |ids| < 100 ==> forall i: nat | Enabled(s, Retry(i), maxRetries) :: i in ids
  {
    forall p: nat | p < |ids| ensures s.outbox[ids[p]].status == Failed && s.outbox[ids[p]].retries < maxRetries {
      FoundMayBeRetried(s, maxRetries, ids, p);
    }
    RetryIsRun(s, ids, maxRetries);
    forall i: nat | i < |s.outbox| && GivenUp(s.outbox[i], maxRetries) ensures AfterRetry(s, ids).outbox[i] == s.outbox[i] {
      GivenUpStays(s, maxRetries, ids, i);
    }
    if |ids| < 100 {
      forall i: nat | Enabled(s, Retry(i), maxRetries) ensures i in ids {
        NoneIsMissed(s, maxRetries, ids, i);
      }
    }
  }

  /** The same for the pending query: only events the worker may begin, and short of the batch size all of them. */
  lemma PendingMayBegin(s: State, batchSize: nat, ids: seq<nat>, maxRetries: nat)
    requires s.worker.Idle? && Answer(s.outbox, IS_PENDING, batchSize, ids)
    ensures forall p | 0 <= p < |ids| :: Enabled(s, Begin(ids[p]), maxRetries)
    ensures |ids| < batchSize ==> forall i: nat | Enabled(s, Begin(i), maxRetries) :: i in ids
    ensures |ids| <= batchSize
  {
    forall p | 0 <= p < |ids| ensures Enabled(s, Begin(ids[p]), maxRetries) {
      assert IS_PENDING(s.outbox[ids[p]]);
    }
    forall i: nat | Enabled(s, Begin(i), maxRetries) && |ids| < batchSize ensures i in ids {
      assert IS_PENDING(s.outbox[i]);
    }
  }

  predicate GivenUp(ev: Event, maxRetries: nat) { ev.status == Failed && ev.retries >= maxRetries }

  /** What one retry call and the calls after it make of an event. */
  function Recovered(ev: Event, maxRetries: nat): Event {
    if ev.status == Pending then Finished(ev)
    else if IsRetriable(maxRetries)(ev) then Finished(Again(ev))
    else ev
  }

  /**
   From every reachable state with an idle worker and nothing stranded, one retry call and enough
   faultless calls bring every event to its end: completed, unless it is given up or of an unknown type.
   */
  lemma RetryThenDrain(steps: seq<Step>, batchSize: nat, maxRetries: nat) returns (retry: seq<nat>, batches: seq<seq<nat>>)
    requires batchSize > 0 && Legal(INIT, steps, maxRetries) && Run(INIT, steps).worker.Idle?
    requires forall i: nat :: !Stranded(Run(INIT, steps), i)
    requires |RetriableIds(Run(INIT, steps).outbox, maxRetries)| <= RETRY_LIMIT
    ensures Answer(Run(INIT, steps).outbox, IsRetriable(maxRetries), RETRY_LIMIT, retry)
    ensures var s := Run(INIT, steps);
      var retried := AfterRetry(s, retry);
      && Calls(retried, batchSize, batches)
      && |batches| == CeilDiv(|PendingIds(retried.outbox)|, batchSize)
      && |AfterCalls(retried, batchSize, batches).outbox| == |s.outbox|
      && forall i: nat | i < |s.outbox| ::
           && AfterCalls(retried, batchSize, batches).outbox[i] == Recovered(s.outbox[i], maxRetries)
           && (Indexed(s.outbox[i].entity.kind) ==>
                 Recovered(s.outbox[i], maxRetries).status == Completed || GivenUp(s.outbox[i], maxRetries))
  {
    var s := Run(INIT, steps);
    retry := AnswerExists(s.outbox, IsRetriable(maxRetries), RETRY_LIMIT);
    var retried := AfterRetry(s, retry);
    batches := CallsExist(retried, batchSize, CeilDiv(|PendingIds(retried.outbox)|, batchSize));
    DrainedIffEnoughCalls(retried, batchSize, batches);
    CallsKeepLength(retried, batchSize, batches);
    var after := AfterCalls(retried, batchSize, batches);
    forall i: nat | i < |s.outbox|
      ensures after.outbox[i] == Recovered(s.outbox[i], maxRetries)
      ensures s.outbox[i].status != Processing
    {
      assert !Stranded(s, i);
      AllAreRetried(s.outbox, maxRetries, retry, i);
      CallsFinish(retried, batchSize, batches, i);
      assert i !in PendingIds(after.outbox);
    }
  }

  // ---- where the index settles ----------------------------------------------------------------

  /** No event of `e` has failed or is being handled. */
  predicate Settled(s: State, e: Entity) {
    forall i | 0 <= i < |s.outbox| && s.outbox[i].entity == e :: s.outbox[i].status == Pending || s.outbox[i].status == Completed
  }

  predicate IsPendingOf(s: State, e: Entity, i: int) {
    0 <= i < |s.outbox| && s.outbox[i].entity == e && s.outbox[i].status == Pending
  }

  /** `d` is the delete event of `e`, and the youngest of its events. */
  predicate DeleteOf(s: State, e: Entity, d: nat) {
    && d < |s.outbox| && s.outbox[d].entity == e && s.outbox[d].etype == Deleted
    && forall i | 0 <= i < |s.outbox| && i != d && s.outbox[i].entity == e ::
         s.outbox[i].createdAt < s.outbox[d].createdAt && s.outbox[i].etype != Deleted
  }

  /** The delete is still to come, or has come last and left nothing. */
  ghost predicate WillBeGone(s: State, e: Entity, d: nat)
    requires d < |s.outbox|
  {
    s.outbox[d].status == Pending || (e !in s.index && forall i :: !IsPendingOf(s, e, i))
  }

  /** Stamped in insertion order, every delete event is the youngest and only delete of its entity. */
  lemma DeleteIsYoungest(s: State, d: nat)
    requires DeletesFinal(s) && d < |s.outbox| && s.outbox[d].etype == Deleted
    requires forall i, j | 0 <= i < j < |s.outbox| :: s.outbox[i].createdAt < s.outbox[j].createdAt
    ensures DeleteOf(s, s.outbox[d].entity, d)
  {
  }

  predicate Oldest(s: State, i: nat) {
    && i < |s.outbox| && s.outbox[i].status == Pending
    && forall j | 0 <= j < |s.outbox| && s.outbox[j].status == Pending :: s.outbox[i].createdAt <= s.outbox[j].createdAt
  }

  lemma OldestStep(s: State, i: nat, e: Entity, d: nat)
    requires Oldest(s, i) && Indexed(e.kind) && Settled(s, e) && DeleteOf(s, e, d)
    ensures Settled(Processed(s, i), e) && DeleteOf(Processed(s, i), e, d)
    ensures e in s.table ==> (WillBeGone(Processed(s, i), e, d) <==> WillBeGone(s, e, d))
  {
    var s' := Processed(s, i);
    assert forall j | j != i :: IsPendingOf(s', e, j) <==> IsPendingOf(s, e, j);
    if s.outbox[i].entity == e {
      assert IsPendingOf(s, e, i) && !IsPendingOf(s', e, i);
    } else {
      assert !IsPendingOf(s, e, i) && !IsPendingOf(s', e, i);
    }
  }

  /** The entity's events are pending or done, `d` is its youngest, and the delete is as much to come as it was. */
  ghost predicate Stands(s: State, e: Entity, d: nat, gone: bool) {
    Settled(s, e) && DeleteOf(s, e, d) && (e in s.table ==> (WillBeGone(s, e, d) <==> gone))
  }

  lemma StandsOn(s: State, i: nat, e: Entity, d: nat, gone: bool)
    requires Oldest(s, i) && Indexed(e.kind) && Stands(s, e, d, gone)
    ensures Stands(Processed(s, i), e, d, gone)
  {
    OldestStep(s, i, e, d);
  }

  lemma {:induction false} BatchStands(s: State, batchSize: nat, ids: seq<nat>, n: nat, e: Entity, d: nat, gone: bool)
    requires Answer(s.outbox, IS_PENDING, batchSize, ids) && n <= |ids|
    requires Indexed(e.kind) && Stands(s, e, d, gone)
    ensures Stands(ProcessedAll(s, ids[..n]), e, d, gone)
  {
    if n > 0 {
      BatchStands(s, batchSize, ids, n - 1, e, d, gone);
      TurnIsOldest(s, batchSize, ids, n - 1);
      StandsOn(ProcessedAll(s, ids[..n - 1]), ids[n - 1], e, d, gone);
      assert ids[..n][..n - 1] == ids[..n - 1];
    }
  }

  /** Each event of an answered query is the oldest pending one when its turn comes. */
  lemma BatchSettles(s: State, batchSize: nat, ids: seq<nat>, n: nat, e: Entity, d: nat)
    requires Answer(s.outbox, IS_PENDING, batchSize, ids) && n <= |ids|
    requires Indexed(e.kind) && Settled(s, e) && DeleteOf(s, e, d)
    ensures Settled(ProcessedAll(s, ids[..n]), e) && DeleteOf(ProcessedAll(s, ids[..n]), e, d)
    ensures e in s.table ==> (WillBeGone(ProcessedAll(s, ids[..n]), e, d) <==> WillBeGone(s, e, d))
  {
    BatchStands(s, batchSize, ids, n, e, d, WillBeGone(s, e, d));
  }

  lemma TurnIsOldest(s: State, batchSize: nat, ids: seq<nat>, n: nat)
    requires Answer(s.outbox, IS_PENDING, batchSize, ids) && n < |ids|
    ensures Oldest(ProcessedAll(s, ids[..n]), ids[n])
  {
    var front := ids[..n];
    var now := ProcessedAll(s, front);
    ProcessedAllAt(s, front);
    ProcessedAllKeeps(s, front);
    assert ids[n] !in front;
    forall j: nat | j < |now.outbox| && now.outbox[j].status == Pending ensures now.outbox[ids[n]].createdAt <= now.outbox[j].createdAt {
      if j in front {
        assert false;
      } else if j in ids {
        var p :| 0 <= p < |ids| && ids[p] == j;
        assert p >= n;
      } else {
        assert IS_PENDING(s.outbox[j]);
      }
    }
  }

  lemma {:induction false} CallsSettle(s: State, batchSize: nat, batches: seq<seq<nat>>, e: Entity, d: nat)
    requires Calls(s, batchSize, batches) && Indexed(e.kind) && Settled(s, e) && DeleteOf(s, e, d)
    ensures AfterCalls(s, batchSize, batches).table == s.table && |AfterCalls(s, batchSize, batches).outbox| == |s.outbox|
    ensures Settled(AfterCalls(s, batchSize, batches), e)
    ensures e in s.table ==> (WillBeGone(AfterCalls(s, batchSize, batches), e, d) <==> WillBeGone(s, e, d))
    decreases |batches|
  {
    if batches != [] {
      var ids := batches[0];
      assert ids[..|ids|] == ids;
      BatchSettles(s, batchSize, ids, |ids|, e, d);
      CallsSettle(ProcessedAll(s, ids), batchSize, batches[1..], e, d);
    }
  }

  lemma {:induction false} CallsKeepInv(s: State, batchSize: nat, batches: seq<seq<nat>>, e: Entity)
    requires Calls(s, batchSize, batches) && Inv(s) && s.worker.Idle? && Indexed(e.kind) && Settled(s, e)
    ensures Inv(AfterCalls(s, batchSize, batches)) && Settled(AfterCalls(s, batchSize, batches), e)
    ensures AfterCalls(s, batchSize, batches).table == s.table
    decreases |batches|
  {
    if batches != [] {
      var ids := batches[0];
      forall p | 0 <= p < |ids| ensures s.outbox[ids[p]].status == Pending {
        assert IS_PENDING(s.outbox[ids[p]]);
      }
      ProcessedAllIsRun(s, ids, 0);
      RunKeepsInv(s, BatchSteps(s, ids), 0);
      ProcessedAllAt(s, ids);
      BatchStaysSettled(s, ids, e);
      CallsKeepInv(ProcessedAll(s, ids), batchSize, batches[1..], e);
    }
  }

  lemma BatchStaysSettled(s: State, ids: seq<nat>, e: Entity)
    requires Ids(s, ids) && Distinct(ids) && Indexed(e.kind) && Settled(s, e)
    ensures Settled(ProcessedAll(s, ids), e)
  {
  }

  lemma DrainedInSync(s: State, batchSize: nat, batches: seq<seq<nat>>, e: Entity)
    requires Calls(s, batchSize, batches) && Inv(s) && s.worker.Idle? && Indexed(e.kind) && Settled(s, e)
    requires PendingIds(AfterCalls(s, batchSize, batches).outbox) == {}
    ensures var s' := AfterCalls(s, batchSize, batches);
      && s'.table == s.table && Inv(s') && AllCompleted(s'.outbox, e) && InSync(s.table, s'.index, e)
      && forall i | 0 <= i < |s'.outbox| :: s'.outbox[i].status != Pending
  {
    var s' := AfterCalls(s, batchSize, batches);
    CallsKeepInv(s, batchSize, batches, e);
    forall i: nat | i < |s'.outbox| ensures s'.outbox[i].status != Pending {
      assert i !in PendingIds(s'.outbox);
    }
    assert InSync(s'.table, s'.index, e) || OpenBeside(s'.outbox, e, -1);
  }

  lemma CallsKeepDeletes(s: State, batchSize: nat, batches: seq<seq<nat>>, e: Entity)
    requires Calls(s, batchSize, batches) && HasDelete(AfterCalls(s, batchSize, batches).outbox, e)
    ensures HasDelete(s.outbox, e)
  {
    var after := AfterCalls(s, batchSize, batches).outbox;
    CallsKeepLength(s, batchSize, batches);
    var i: nat :| i < |after| && after[i].entity == e && after[i].etype == Deleted;
    CallsFinish(s, batchSize, batches, i);
    assert s.outbox[i].entity == e && s.outbox[i].etype == Deleted;
  }

  /**
   Once nothing is pending, a live row has exactly its document and a removed one has none. A row that
   is kept but inactive still has its document if it has no delete event, and with one has none exactly if
   the delete was still pending at the start, or had already been carried out with nothing of that row
   left to do.
   */
  lemma DrainedIndex(s: State, batchSize: nat, batches: seq<seq<nat>>, e: Entity)
    requires Calls(s, batchSize, batches) && Inv(s) && s.worker.Idle? && Indexed(e.kind) && Settled(s, e)
    requires PendingIds(AfterCalls(s, batchSize, batches).outbox) == {}
    ensures e in s.table && Alive(s.table[e]) ==> Lookup(AfterCalls(s, batchSize, batches).index, e) == Some(s.table[e])
    ensures e !in s.table ==> e !in AfterCalls(s, batchSize, batches).index
    ensures e in s.table && !HasDelete(s.outbox, e) ==> Lookup(AfterCalls(s, batchSize, batches).index, e) == Some(s.table[e])
    ensures forall d: nat | DeleteOf(s, e, d) && e in s.table ::
      e !in AfterCalls(s, batchSize, batches).index <==> WillBeGone(s, e, d)
  {
    var s' := AfterCalls(s, batchSize, batches);
    DrainedInSync(s, batchSize, batches, e);
    if e in s.table && !HasDelete(s.outbox, e) {
      if HasDelete(s'.outbox, e) {
        CallsKeepDeletes(s, batchSize, batches, e);
      }
      UndeletedIsIndexed(s', e);
    }
    forall d: nat | DeleteOf(s, e, d) && e in s.table ensures e !in s'.index <==> WillBeGone(s, e, d) {
      CallsSettle(s, batchSize, batches, e, d);
    }
  }

  lemma RetriedIsSettled(s: State, steps: seq<Step>, maxRetries: nat, retry: seq<nat>, e: Entity)
    requires Legal(INIT, steps, maxRetries) && Run(INIT, steps) == s
    requires forall i: nat :: !Stranded(s, i)
    requires s.worker.Idle? && |RetriableIds(s.outbox, maxRetries)| <= RETRY_LIMIT
    requires Answer(s.outbox, IsRetriable(maxRetries), RETRY_LIMIT, retry)
    requires forall i | 0 <= i < |s.outbox| && s.outbox[i].entity == e :: !GivenUp(s.outbox[i], maxRetries)
    ensures Inv(AfterRetry(s, retry)) && Settled(AfterRetry(s, retry), e)
  {
    EveryRunIsSynchronised(steps, maxRetries);
    RetryKeepsTheBound(s, maxRetries, retry);
    RunKeepsInv(s, RetrySteps(retry), maxRetries);
    var retried := AfterRetry(s, retry);
    forall i: nat | i < |s.outbox| && retried.outbox[i].entity == e
      ensures retried.outbox[i].status == Pending || retried.outbox[i].status == Completed
    {
      assert !Stranded(s, i);
      AllAreRetried(s.outbox, maxRetries, retry, i);
    }
  }

  /**
   The same after failures: one retry call and the calls after it bring every entity none of whose events
   is given up into step with its row.
   */
  lemma RetriedIndex(s: State, steps: seq<Step>, batchSize: nat, maxRetries: nat, retry: seq<nat>, batches: seq<seq<nat>>, e: Entity)
    requires Legal(INIT, steps, maxRetries) && Run(INIT, steps) == s
    requires forall i: nat :: !Stranded(s, i)
    requires s.worker.Idle? && |RetriableIds(s.outbox, maxRetries)| <= RETRY_LIMIT && Indexed(e.kind)
    requires Answer(s.outbox, IsRetriable(maxRetries), RETRY_LIMIT, retry) && Calls(AfterRetry(s, retry), batchSize, batches)
    requires PendingIds(AfterCalls(AfterRetry(s, retry), batchSize, batches).outbox) == {}
    requires forall i | 0 <= i < |s.outbox| && s.outbox[i].entity == e :: !GivenUp(s.outbox[i], maxRetries)
    ensures InSync(s.table, AfterCalls(AfterRetry(s, retry), batchSize, batches).index, e)
  {
    RetriedIsSettled(s, steps, maxRetries, retry, e);
    DrainedInSync(AfterRetry(s, retry), batchSize, batches, e);
  }
}
