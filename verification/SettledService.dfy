/** Any run of transactions can be followed by a run of the outbox job that leaves nothing to do. */
module SettledService {
  import opened Schema
  import opened Store
  import OT = OutboxTheorems
  import OW = OutboxWorker
  import P = SyncProtocol
  import R = TransactionRuns
  import T = Transactions
  import TI = TransactionInvariants
  import TP = TransactionPromises
  import W = WholeService

  function Transacts(calls: seq<R.Call>): seq<W.Action> {
    if calls == [] then []
    else Transacts(calls[..|calls| - 1]) + [W.Transact(calls[|calls| - 1].tx, calls[|calls| - 1].answers, 0)]
  }

  function Jobs(steps: seq<P.Step>): seq<W.Action> {
    if steps == [] then [] else Jobs(steps[..|steps| - 1]) + [W.Job(steps[|steps| - 1])]
  }

  lemma ActionSnoc(actions: seq<W.Action>, a: W.Action, maxRetries: nat)
    ensures W.Run(actions + [a]) == W.Next(W.Run(actions), a)
    ensures W.Legal(actions + [a], maxRetries) <==> W.Legal(actions, maxRetries) && W.Enabled(W.Run(actions), a, maxRetries)
  {
    assert (actions + [a])[..|actions + [a]| - 1] == actions;
  }

  /** Nothing has been handled yet. */
  predicate Untouched(s: P.State) {
    s.worker.Idle? && forall i | 0 <= i < |s.outbox| :: s.outbox[i].status == P.Pending
  }

  lemma {:induction false} TransactsAreRun(calls: seq<R.Call>, maxRetries: nat)
    requires R.Legal(R.START, calls)
    ensures W.Legal(Transacts(calls), maxRetries)
    ensures W.Run(Transacts(calls)).db == R.Run(R.START, calls).db && Untouched(W.Run(Transacts(calls)).p)
  {
    if calls != [] {
      var front, last := calls[..|calls| - 1], calls[|calls| - 1];
      TransactsAreRun(front, maxRetries);
      ActionSnoc(Transacts(front), W.Transact(last.tx, last.answers, 0), maxRetries);
      TransactStaysUntouched(W.Run(Transacts(front)), last.tx, last.answers);
    }
  }

  lemma TransactStaysUntouched(s: W.Service, tx: T.Tx, answers: T.Answers)
    requires Untouched(s.p)
    ensures Untouched(W.Next(s, W.Transact(tx, answers, 0)).p)
  {
  }

  lemma {:induction false} JobsAreRun(actions: seq<W.Action>, steps: seq<P.Step>, maxRetries: nat)
    requires W.Legal(actions, maxRetries) && P.Legal(W.Run(actions).p, steps, maxRetries)
    requires forall step | step in steps :: !step.Commit?
    ensures W.Legal(actions + Jobs(steps), maxRetries)
    ensures W.Run(actions + Jobs(steps)) == W.Run(actions).(p := P.Run(W.Run(actions).p, steps))
  {
    if steps == [] {
      assert actions + Jobs(steps) == actions;
    } else {
      var front, last := steps[..|steps| - 1], steps[|steps| - 1];
      JobsAreRun(actions, front, maxRetries);
      ActionSnoc(actions + Jobs(front), W.Job(last), maxRetries);
      assert actions + Jobs(steps) == (actions + Jobs(front)) + [W.Job(last)];
      assert last in steps;
    }
  }

  lemma {:induction false} BatchCommitsNothing(s: P.State, ids: seq<nat>)
    requires OW.Ids(s, ids)
    ensures forall step | step in OT.BatchSteps(s, ids) :: !step.Commit?
  {
    if ids != [] {
      BatchCommitsNothing(s, ids[..|ids| - 1]);
    }
  }

  lemma AllIndexed(s: W.Service)
    requires TI.Inv(s.db) && W.Linked(s)
    ensures forall i | 0 <= i < |s.p.outbox| :: Indexed(s.p.outbox[i].entity.kind)
  {
    forall i | 0 <= i < |s.p.outbox| ensures Indexed(s.p.outbox[i].entity.kind) {
      assert TI.Issued(s.db.next, s.db.outbox[i].entity);
    }
  }

  /** Handling every event of an untouched outbox completes them all. */
  lemma HandleAll(s: P.State, maxRetries: nat) returns (steps: seq<P.Step>)
    requires Untouched(s) && forall i | 0 <= i < |s.outbox| :: Indexed(s.outbox[i].entity.kind)
    ensures P.Legal(s, steps, maxRetries) && forall step | step in steps :: !step.Commit?
    ensures forall i | 0 <= i < |P.Run(s, steps).outbox| :: P.Run(s, steps).outbox[i].status == P.Completed
  {
    var ids := seq(|s.outbox|, i requires 0 <= i < |s.outbox| => i);
    OT.ProcessedAllIsRun(s, ids, maxRetries);
    OT.ProcessedAllAt(s, ids);
    BatchCommitsNothing(s, ids);
    steps := OT.BatchSteps(s, ids);
    forall i | 0 <= i < |P.Run(s, steps).outbox| ensures P.Run(s, steps).outbox[i].status == P.Completed {
      assert ids[i] == i;
    }
  }

  /** Whatever the transactions, the job can catch up with them. */
  lemma EveryRunCanSettle(calls: seq<R.Call>, maxRetries: nat) returns (actions: seq<W.Action>)
    requires R.Legal(R.START, calls)
    ensures W.Legal(actions, maxRetries) && W.Run(actions).db == R.Run(R.START, calls).db
    ensures forall i | 0 <= i < |W.Run(actions).p.outbox| :: W.Run(actions).p.outbox[i].status == P.Completed
  {
    actions := Transacts(calls);
    TransactsAreRun(calls, maxRetries);
    W.EveryRunKeepsInv(actions, maxRetries);
    AllIndexed(W.Run(actions));
    var steps := HandleAll(W.Run(actions).p, maxRetries);
    JobsAreRun(actions, steps, maxRetries);
    actions := actions + Jobs(steps);
  }

  /** Without a fault, a crash or a retry a deactivated task is still in the index when all is done. */
  lemma DeactivatedStaysIndexed(maxRetries: nat) returns (actions: seq<W.Action>)
    ensures W.Legal(actions, maxRetries)
    ensures var s := W.Run(actions);
      && (forall i | 0 <= i < |s.p.outbox| :: s.p.outbox[i].status == P.Completed)
      && TaskE(2) in s.db.table && !Alive(s.db.table[TaskE(2)])
      && Lookup(s.p.index, TaskE(2)) == Some(s.db.table[TaskE(2)])
  {
    TP.DeactivatedUnannounced();
    actions := EveryRunCanSettle(TP.WITH_DEACTIVATION, maxRetries);
    W.QuietIndexIsTable(actions, maxRetries, TaskE(2));
  }
}
