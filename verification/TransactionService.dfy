/** Running transactions: each body in a unit of work of its own, commit or rollback, then the notifications. */
module TransactionService {
  import opened Schema
  import opened Store
  import opened TransactionBase
  import opened Transactions
  import opened UnitOfWork
  import C = CommentTransactions
  import G = GroupTransactions
  import I = TransactionInvariants
  import K = TaskTransactions
  import R = TransactionRuns

  function ErrorOf(o: Outcome): Option<Error> { if o.Raise? then Some(o.error) else None }

  predicate IsGroupService(tx: Tx) {
    tx.TCreateGroup? || tx.TUpdateGroup? || tx.TDeleteGroup? || tx.TAddMember? || tx.TRemoveMember? || tx.TExitGroup?
    || tx.TCreateJoinRequest? || tx.TApproveJoinRequest? || tx.TRejectJoinRequest? || tx.TJoinGroup?
  }

  predicate IsTaskService(tx: Tx) {
    tx.TCreateTask? || tx.TUpdateTask? || tx.TDeleteTask? || tx.TUpdateTaskStatus? || tx.TJoinTask?
    || tx.TApproveTaskRequest? || tx.TRejectTaskRequest? || tx.TAddUserToTask?
  }

  /** Each service records only events its own dispatcher knows, so none is dropped. */
  lemma EventsAreHandled(db: Db, tx: Tx, a: Answers)
    requires !tx.TApproveJoinRequest?
    ensures forall n | n in Notices(Execute(db, tx, a)) :: if IsGroupService(tx) then G.Handles(n) else K.Handles(n)
  {
  }

  class Service {
    const database: Database
    const notification: NotificationService

    constructor (database: Database, notification: NotificationService)
      ensures this.database == database && this.notification == notification
    {
      this.database := database;
      this.notification := notification;
    }

    ghost function View(): R.System
      reads database, notification
    {
      R.System(database.db, notification.sent)
    }

    /** What running a body leaves for the end of its unit of work: sent and recorded events are the outcome's notices. */
    ghost predicate Ran(tx: Tx, o: Outcome, raised: Option<Error>, before: R.System, uow: UnitOfWork)
      reads uow, database, notification
    {
      match o
      case Commit(db, notices) =>
        && raised.None? && uow.db == db && notification.sent + uow.events == before.sent + notices
        && forall n | n in uow.events :: if IsGroupService(tx) then G.Handles(n) else K.Handles(n)
      case Raise(e) => raised == Some(e) && View() == before
    }

    ghost predicate Fresh(uow: UnitOfWork)
      reads uow, database
    {
      uow.database == database && uow.db == database.db && uow.events == []
    }

    method GroupBody(uow: UnitOfWork, tx: Tx) returns (raised: Option<Error>, ghost a: Answers)
      requires IsGroupService(tx) && !tx.TApproveJoinRequest?
      modifies uow
      ensures Possible(old(uow.db), tx, a)
      ensures Did(Execute(old(uow.db), tx, a), raised, old(uow.events), uow)
    {
      a := Answers(0, 0);
      match tx
      case TCreateGroup(user, name, policy, parent, details) => raised := G.CreateMyGroup(uow, user, name, policy, parent, details);
      case TUpdateGroup(user, group, c) => raised := G.UpdateMyGroup(uow, user, group, c);
      case TDeleteGroup(user, group) => raised, a := G.DeleteMyGroup(uow, user, group);
      case TAddMember(caller, group, user) => raised := G.AddMemberToGroup(uow, caller, group, user);
      case TRemoveMember(caller, group, user) => raised, a := G.RemoveMemberFromGroup(uow, caller, group, user);
      case TExitGroup(group, user) => raised, a := G.LeaveGroup(uow, group, user);
      case TCreateJoinRequest(group, user) => raised := G.RequestToJoin(uow, group, user);
      case TRejectJoinRequest(caller, request) => raised := G.RejectRequest(uow, caller, request);
      case TJoinGroup(group, user) => raised := G.Join(uow, group, user);
    }

    method TaskBody(uow: UnitOfWork, tx: Tx) returns (raised: Option<Error>)
      requires IsTaskService(tx)
      modifies uow
      ensures Did(Execute(old(uow.db), tx, Answers(0, 0)), raised, old(uow.events), uow)
    {
      match tx
      case TCreateTask(user, group, title, details) => raised := K.CreateTaskForGroup(uow, user, group, title, details);
      case TUpdateTask(user, task, c, listed) => raised := K.UpdateMyTask(uow, user, task, c, listed);
      case TDeleteTask(user, task, listed) => raised := K.DeleteMyTask(uow, user, task, listed);
      case TUpdateTaskStatus(task, status) => raised := K.UpdateStatusTask(uow, task, status);
      case TJoinTask(task, user) => raised := K.Join(uow, task, user);
      case TApproveTaskRequest(caller, request) => raised := K.ApproveRequest(uow, caller, request);
      case TRejectTaskRequest(caller, task, request) => raised := K.RejectRequest(uow, caller, task, request);
      case TAddUserToTask(caller, task, user, listed) => raised := K.AddUser(uow, caller, task, user, listed);
    }

    method CommentBody(uow: UnitOfWork, tx: Tx) returns (raised: Option<Error>)
      requires !IsGroupService(tx) && !IsTaskService(tx)
      modifies uow
      ensures Did(Execute(old(uow.db), tx, Answers(0, 0)), raised, old(uow.events), uow)
    {
      match tx
      case TCreateComment(user, task, content, parent) => raised := C.Create(uow, user, task, content, parent);
      case TUpdateComment(user, comment, content) => raised := C.Update(uow, user, comment, content);
      case TDeleteComment(user, comment) => raised := C.Delete(uow, user, comment);
      case TRegister(username, email, details) => raised := C.RegisterUser(uow, username, email, details);
      case TUpdateProfile(user, c) => raised := C.UpdateMyProfile(uow, user, c);
      case TDeleteProfile(user) => raised := C.DeleteMyProfile(uow, user);
    }

    /** Every body but the one that opens a second unit of work. */
    method PlainBody(uow: UnitOfWork, tx: Tx) returns (raised: Option<Error>, ghost a: Answers)
      requires !tx.TApproveJoinRequest? && Fresh(uow)
      modifies uow
      ensures Possible(old(uow.db), tx, a)
      ensures Ran(tx, Execute(old(uow.db), tx, a), raised, old(View()), uow)
    {
      ghost var before := uow.db;
      a := Answers(0, 0);
      if IsGroupService(tx) {
        raised, a := GroupBody(uow, tx);
      } else if IsTaskService(tx) {
        raised := TaskBody(uow, tx);
      } else {
        raised := CommentBody(uow, tx);
      }
      EventsAreHandled(before, tx, a);
      RecordedIsRan(tx, Execute(before, tx, a), raised, uow);
    }

    lemma RecordedIsRan(tx: Tx, o: Outcome, raised: Option<Error>, uow: UnitOfWork)
      requires Did(o, raised, [], uow)
      requires forall n | n in Notices(o) :: if IsGroupService(tx) then G.Handles(n) else K.Handles(n)
      ensures Ran(tx, o, raised, View(), uow)
    {
    }

    method ApprovalBody(uow: UnitOfWork, tx: Tx) returns (raised: Option<Error>)
      requires tx.TApproveJoinRequest? && Fresh(uow)
      modifies uow, database, notification
      ensures Ran(tx, Execute(old(uow.db), tx, Answers(0, 0)), raised, old(View()), uow)
    {
      raised := G.ApproveRequest(uow, notification, tx.caller, tx.group, tx.request, tx.listed);
    }

    method Body(uow: UnitOfWork, tx: Tx) returns (raised: Option<Error>, ghost a: Answers)
      requires Fresh(uow)
      modifies uow, database, notification
      ensures Possible(old(database.db), tx, a)
      ensures Ran(tx, Execute(old(database.db), tx, a), raised, old(View()), uow)
    {
      if tx.TApproveJoinRequest? {
        a := Answers(0, 0);
        raised := ApprovalBody(uow, tx);
      } else {
        raised, a := PlainBody(uow, tx);
      }
    }

    /** Events go out only after the commit, in the order they were recorded. */
    method Dispatch(tx: Tx, events: seq<Notice>)
      requires forall n | n in events :: if IsGroupService(tx) then G.Handles(n) else K.Handles(n)
      modifies notification
      ensures notification.sent == old(notification.sent) + events
    {
      if events != [] {
        if IsGroupService(tx) {
          G.DispatchEvents(notification, events);
        } else {
          K.DispatchEvents(notification, events);
        }
      }
    }

    /**
     One transaction: commit and then send, or roll the half-written session back. If the body raises,
     nothing is stored and nothing is sent.
     */
    method Perform(tx: Tx) returns (raised: Option<Error>, ghost a: Answers)
      modifies database, notification
      ensures Possible(old(database.db), tx, a)
      ensures View() == R.Perform(old(View()), R.Call(tx, a))
      ensures raised == ErrorOf(Execute(old(database.db), tx, a))
    {
      var uow := new UnitOfWork(database, false);
      raised, a := Body(uow, tx);
      uow.Exit(raised.Some?);
      if raised.None? {
        var events := uow.GetEvents();
        Dispatch(tx, events);
      }
    }

    /**
     Any list of transactions, one after the other, each in a unit of work that may be left half-written.
     What is stored and sent is the run of the calls, keeps every invariant, and owes nothing to the
     transactions that raised.
     */
    method Serve(txs: seq<Tx>) returns (ghost calls: seq<R.Call>)
      requires View() == R.START
      modifies database, notification
      ensures |calls| == |txs| && forall k | 0 <= k < |txs| :: calls[k].tx == txs[k]
      ensures R.Legal(R.START, calls) && View() == R.Run(R.START, calls)
      ensures I.Inv(database.db)
      ensures View() == R.Run(R.START, R.Committed(R.START, calls))
      ensures notification.sent == R.NoticesOf(R.START, R.Committed(R.START, calls))
    {
      calls := [];
      for k := 0 to |txs|
        invariant |calls| == k && forall j | 0 <= j < k :: calls[j].tx == txs[j]
        invariant R.Legal(R.START, calls) && View() == R.Run(R.START, calls)
      {
        ghost var a;
        var raised;
        raised, a := Perform(txs[k]);
        R.LegalSnoc(R.START, calls, R.Call(txs[k], a));
        calls := calls + [R.Call(txs[k], a)];
      }
      R.EveryRunKeepsInv(calls);
      R.OnlyCommittedCount(R.START, calls);
      R.SentInOrder(R.START, R.Committed(R.START, calls));
    }
  }
}
