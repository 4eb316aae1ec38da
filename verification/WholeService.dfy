/**
 Transactions and the outbox job together. The transactions only ever hand the protocol writes it
 allows, so what the protocol guarantees holds for the service.
 */
module WholeService {
  import opened Schema
  import opened Store
  import T = Transactions
  import TI = TransactionInvariants
  import P = SyncProtocol

  /** The database as transactions see it, and the same tables as the outbox job and the index see them. */
  datatype Service = Service(db: Db, p: P.State)

  datatype Action =
    | Transact(tx: T.Tx, answers: T.Answers, at: int)
    | Job(step: P.Step)

  const START := Service(EMPTY, P.INIT)

  /** One table, and one outbox whose rows the job has moved along but not altered otherwise. */
  ghost predicate Linked(s: Service) {
    && s.p.table == s.db.table
    && |s.p.outbox| == |s.db.outbox|
    && forall i | 0 <= i < |s.db.outbox| ::
         s.p.outbox[i].etype == s.db.outbox[i].etype && s.p.outbox[i].entity == s.db.outbox[i].entity
  }

  /** The write a committed transaction amounts to, read off the outbox row it added. */
  function WriteOf(db: Db, db': Db): P.Write
    requires |db'.outbox| > |db.outbox|
  {
    var Entry(etype, e) := db'.outbox[|db.outbox|];
    if e !in db'.table then P.Remove(e)
    else if etype == Created then P.Create(e, db'.table[e])
    else if etype == Updated then P.Update(e, db'.table[e])
    else P.Deactivate(e, db'.table[e])
  }

  function Next(s: Service, a: Action): Service {
    match a
    case Transact(tx, answers, at) =>
      var db' := T.After(s.db, T.Execute(s.db, tx, answers));
      if |db'.outbox| <= |s.db.outbox| then Service(db', s.p)
      else Service(db', P.Apply(s.p, P.Commit(WriteOf(s.db, db'), at)))
    case Job(step) => s.(p := P.Apply(s.p, step))
  }

  ghost predicate Enabled(s: Service, a: Action, maxRetries: nat) {
    match a
    case Transact(tx, answers, _) => T.Possible(s.db, tx, answers)
    case Job(step) => !step.Commit? && P.Enabled(s.p, step, maxRetries)
  }

  function Run(actions: seq<Action>): Service {
    if actions == [] then START else Next(Run(actions[..|actions| - 1]), actions[|actions| - 1])
  }

  ghost predicate Legal(actions: seq<Action>, maxRetries: nat) {
    actions == [] ||
    (Legal(actions[..|actions| - 1], maxRetries) && Enabled(Run(actions[..|actions| - 1]), actions[|actions| - 1], maxRetries))
  }

  /** Row and outbox row commit together, and the protocol allows the write: the simulation step. */
  lemma WriteIsAllowed(s: Service, db': Db, at: int)
    requires TI.Fresh(s.db) && Linked(s) && TI.OneWrite(s.db, db') && db'.outbox != s.db.outbox
    ensures P.WriteAllowed(s.p, WriteOf(s.db, db'))
    ensures Linked(Service(db', P.Apply(s.p, P.Commit(WriteOf(s.db, db'), at))))
  {
  }

  lemma TransactionIsCommit(s: Service, tx: T.Tx, answers: T.Answers, at: int)
    requires TI.Inv(s.db) && Linked(s) && P.Inv(s.p) && T.Possible(s.db, tx, answers)
    ensures TI.Inv(Next(s, Transact(tx, answers, at)).db)
    ensures Linked(Next(s, Transact(tx, answers, at)))
    ensures P.Inv(Next(s, Transact(tx, answers, at)).p)
  {
    TI.TransactionKeepsInv(s.db, tx, answers);
    var o := T.Execute(s.db, tx, answers);
    if o.Commit? {
      TI.TransactionWritesOnce(s.db, tx, answers);
      if o.db.outbox != s.db.outbox {
        WriteIsAllowed(s, o.db, at);
        P.CommitKeepsInv(s.p, WriteOf(s.db, o.db), at);
      }
    }
  }

  lemma JobKeepsLink(s: Service, step: P.Step, maxRetries: nat)
    requires Linked(s) && P.Inv(s.p) && !step.Commit? && P.Enabled(s.p, step, maxRetries)
    ensures Linked(Next(s, Job(step))) && P.Inv(Next(s, Job(step)).p)
  {
    P.StepKeepsInv(s.p, step, maxRetries);
  }

  lemma {:induction false} EveryRunKeepsInv(actions: seq<Action>, maxRetries: nat)
    requires Legal(actions, maxRetries)
    ensures TI.Inv(Run(actions).db) && Linked(Run(actions)) && P.Inv(Run(actions).p)
  {
    if actions != [] {
      var front := actions[..|actions| - 1];
      EveryRunKeepsInv(front, maxRetries);
      match actions[|actions| - 1]
      case Transact(tx, answers, at) => TransactionIsCommit(Run(front), tx, answers, at);
      case Job(step) => JobKeepsLink(Run(front), step, maxRetries);
    }
  }

  /** The index entry of `e` agrees with the stored row, or an outbox row of `e` is not completed. */
  ghost predicate Covered(s: Service, e: Entity) {
    P.InSync(s.db.table, s.p.index, e) ||
    exists i :: 0 <= i < |s.p.outbox| && s.p.outbox[i].entity == e && s.p.outbox[i].status != P.Completed
  }

  lemma LinkedIsCovered(s: Service, e: Entity)
    requires Linked(s) && P.Synchronised(s.p)
    ensures Covered(s, e)
  {
  }

  /**
   The service as a whole: in every interleaving of transactions with the steps of one outbox worker
   and the retry job, an entity whose index entry differs from its stored row has an outbox row that
   is not completed.
   */
  lemma ServiceIsSynchronised(actions: seq<Action>, maxRetries: nat, e: Entity)
    requires Legal(actions, maxRetries)
    ensures Covered(Run(actions), e)
  {
    EveryRunKeepsInv(actions, maxRetries);
    LinkedIsCovered(Run(actions), e);
  }

  /**
   When every outbox row is completed the index is the stored tables: each live row has exactly its
   document, a row that is gone has none, an inactive row whose delete was never announced still has its
   document, and any other inactive row has none or its inactive self.
   */
  lemma QuietIndexIsTable(actions: seq<Action>, maxRetries: nat, e: Entity)
    requires Legal(actions, maxRetries)
    requires forall i | 0 <= i < |Run(actions).p.outbox| :: Run(actions).p.outbox[i].status == P.Completed
    ensures var db, index := Run(actions).db, Run(actions).p.index;
      if e !in db.table then e !in index
      else if Alive(db.table[e]) || Entry(Deleted, e) !in db.outbox then Lookup(index, e) == Some(db.table[e])
      else Lookup(index, e) == None || Lookup(index, e) == Some(db.table[e])
  {
    var s := Run(actions);
    EveryRunKeepsInv(actions, maxRetries);
    LinkedIsCovered(s, e);
    if e in s.db.table && Entry(Deleted, e) !in s.db.outbox {
      DeleteIsAnnounced(s, e);
      P.UndeletedIsIndexed(s.p, e);
    }
  }

  lemma DeleteIsAnnounced(s: Service, e: Entity)
    requires Linked(s)
    ensures P.HasDelete(s.p.outbox, e) <==> Entry(Deleted, e) in s.db.outbox
  {
    if P.HasDelete(s.p.outbox, e) {
      var i :| 0 <= i < |s.p.outbox| && s.p.outbox[i].entity == e && s.p.outbox[i].etype == Deleted;
      assert s.db.outbox[i] == Entry(Deleted, e);
    }
    if Entry(Deleted, e) in s.db.outbox {
      var i :| 0 <= i < |s.db.outbox| && s.db.outbox[i] == Entry(Deleted, e);
      assert s.p.outbox[i].entity == e && s.p.outbox[i].etype == Deleted;
    }
  }
}
