/** Rules the task and group services mean to keep, and exactly when a transaction breaks them. */
module TransactionPromises {
  import opened Schema
  import opened Store
  import opened Transactions
  import opened TransactionInvariants
  import R = TransactionRuns

  // ---- one active title per group ---------------------------------------------------------------

  predicate ActiveTitle(t: Table, e: Entity, group: int, title: string) {
    e in t && e.kind.TaskKind? && t[e].TaskRow? && t[e].active && t[e].groupId == group && t[e].title == title
  }

  ghost predicate TitlesUnique(t: Table) {
    forall e, f, group, title | ActiveTitle(t, e, group, title) && ActiveTitle(t, f, group, title) :: e == f
  }

  /** The task stays active and its title, old or new, is another active task's of the group. */
  ghost predicate TakesTitle(t: Table, task: int, c: TaskChange) {
    && ActiveTask(t, task) && Get(c.active, true)
    && exists e :: e != TaskE(task) && ActiveTitle(t, e, t[TaskE(task)].groupId, Get(c.title, t[TaskE(task)].title))
  }

  lemma UpdateKeepsUniqueUnless(db: Db, user: int, task: int, c: TaskChange, listed: int)
    requires TitlesUnique(db.table) && UpdateTask(db, user, task, c, listed).Commit?
    ensures !TitlesUnique(UpdateTask(db, user, task, c, listed).db.table) <==> TakesTitle(db.table, task, c)
  {
    var t, t' := db.table, UpdateTask(db, user, task, c, listed).db.table;
    var group, title := t[TaskE(task)].groupId, Get(c.title, t[TaskE(task)].title);
    assert forall e, g, x | e != TaskE(task) :: ActiveTitle(t', e, g, x) <==> ActiveTitle(t, e, g, x);
    if TakesTitle(t, task, c) {
      var e :| e != TaskE(task) && ActiveTitle(t, e, group, title);
      assert ActiveTitle(t', e, group, title) && ActiveTitle(t', TaskE(task), group, title);
    }
  }

  lemma CreateKeepsUnique(db: Db, user: int, group: int, title: string, details: string)
    requires Fresh(db) && TitlesUnique(db.table) && CreateTask(db, user, group, title, details).Commit?
    ensures TitlesUnique(CreateTask(db, user, group, title, details).db.table)
  {
    var t, t', added := db.table, CreateTask(db, user, group, title, details).db.table, TaskE(db.next.task);
    assert t' == t[added := TaskRow(title, Todo, group, details, true)];
    assert forall e, g, x | e != added :: ActiveTitle(t', e, g, x) <==> ActiveTitle(t, e, g, x);
    forall e | e != added ensures !ActiveTitle(t, e, group, title) {
    }
  }

  lemma SameTitlesKeepUnique(t: Table, t': Table)
    requires TitlesUnique(t)
    requires forall e, group, title | ActiveTitle(t', e, group, title) :: ActiveTitle(t, e, group, title)
    ensures TitlesUnique(t')
  {
  }

  lemma OtherTaskWritesKeepTitles(db: Db, tx: Tx, a: Answers)
    requires (tx.TDeleteTask? || tx.TUpdateTaskStatus?) && Execute(db, tx, a).Commit?
    ensures forall e, group, title | ActiveTitle(Execute(db, tx, a).db.table, e, group, title) :: ActiveTitle(db.table, e, group, title)
  {
  }

  lemma OtherWritesKeepTitles(db: Db, db': Db)
    requires OneWrite(db, db')
    requires |db'.outbox| > |db.outbox| ==> !db'.outbox[|db.outbox|].entity.kind.TaskKind?
    ensures forall e, group, title | ActiveTitle(db'.table, e, group, title) :: ActiveTitle(db.table, e, group, title)
  {
  }

  lemma OthersWriteNoTask(db: Db, tx: Tx, a: Answers)
    requires Typed(db.table) && Fresh(db) && !WritesTask(tx) && Execute(db, tx, a).Commit?
    ensures forall e, group, title | ActiveTitle(Execute(db, tx, a).db.table, e, group, title) :: ActiveTitle(db.table, e, group, title)
  {
    TransactionWritesOnce(db, tx, a);
    if WritesGroup(tx) {
      GroupEntry(db, tx, a);
    } else if WritesComment(tx) {
      CommentEntry(db, tx, a);
    } else if WritesUser(tx) {
      UserEntry(db, tx, a);
    } else {
      OthersWriteNothing(db, tx, a);
    }
    OtherWritesKeepTitles(db, Execute(db, tx, a).db);
  }

  /** Every transaction keeps titles unique but an update that takes another active task's title. */
  lemma TitlesUniqueUnlessTaken(db: Db, tx: Tx, a: Answers)
    requires Inv(db) && TitlesUnique(db.table)
    ensures !TitlesUnique(After(db, Execute(db, tx, a)).table) <==>
      tx.TUpdateTask? && TaskAccess(db, tx.user, tx.task, tx.listed) && TakesTitle(db.table, tx.task, tx.taskChange)
  {
    var o := Execute(db, tx, a);
    if o.Commit? {
      if tx.TUpdateTask? {
        UpdateKeepsUniqueUnless(db, tx.user, tx.task, tx.taskChange, tx.listed);
      } else if tx.TCreateTask? {
        CreateKeepsUnique(db, tx.user, tx.group, tx.title, tx.details);
      } else if WritesTask(tx) {
        OtherTaskWritesKeepTitles(db, tx, a);
        SameTitlesKeepUnique(db.table, o.db.table);
      } else {
        OthersWriteNoTask(db, tx, a);
        SameTitlesKeepUnique(db.table, o.db.table);
      }
    }
  }

  /** Along a run in which no update takes another active task's title, titles are unique. */
  lemma {:induction false} TitlesStayUnique(calls: seq<R.Call>)
    requires R.Legal(R.START, calls)
    requires forall n | 0 <= n < |calls| && calls[n].tx.TUpdateTask? ::
      !TakesTitle(R.Run(R.START, calls[..n]).db.table, calls[n].tx.task, calls[n].tx.taskChange)
    ensures TitlesUnique(R.Run(R.START, calls).db.table)
  {
    if calls != [] {
      var front, last := calls[..|calls| - 1], calls[|calls| - 1];
      forall n | 0 <= n < |front| && front[n].tx.TUpdateTask?
        ensures !TakesTitle(R.Run(R.START, front[..n]).db.table, front[n].tx.task, front[n].tx.taskChange)
      {
        assert front[..n] == calls[..n];
      }
      TitlesStayUnique(front);
      R.EveryRunKeepsInv(front);
      TitlesUniqueUnlessTaken(R.Run(R.START, front).db, last.tx, last.answers);
    }
  }

  // ---- who may approve --------------------------------------------------------------------------

  /** What the approval of a task request asks of the database; the caller is no part of it. */
  predicate Approvable(db: Db, request: int) {
    && request in db.requests && db.requests[request].status == Waiting
    && db.requests[request].task.Some? && ActiveTask(db.table, db.requests[request].task.value)
    && ActiveGroup(db.table, db.table[TaskE(db.requests[request].task.value)].groupId)
    && CanAddAssignee(db, db.requests[request].user, db.requests[request].task.value)
  }

  /** Whoever calls, the same requests are approved to the same effect. */
  lemma AnyCallerApproves(db: Db, caller: int, other: int, request: int)
    ensures ApproveTaskRequest(db, caller, request).Commit? <==> Approvable(db, request)
    ensures After(db, ApproveTaskRequest(db, caller, request)) == After(db, ApproveTaskRequest(db, other, request))
  {
  }

  // ---- rejecting what was approved --------------------------------------------------------------

  /** An approved request has been rejected, and its user is still in the group. */
  predicate LeftBehind(db: Db, db': Db, id: int) {
    && id in db.requests && id in db'.requests
    && db.requests[id].status == Approved && db'.requests[id].status == Rejected
    && (db.requests[id].user, db.requests[id].group) in db'.members
  }

  /** The checks a rejection makes; the status is not among them. */
  predicate RejectionPasses(db: Db, tx: Tx, id: int)
    requires id in db.requests
  {
    var r := db.requests[id];
    (tx.TRejectJoinRequest? && tx.request == id && MyGroup(db.table, tx.caller, r.group)) ||
    (tx.TRejectTaskRequest? && tx.request == id && r.task == Some(tx.task) && ActiveTask(db.table, tx.task)
     && MyGroup(db.table, tx.caller, db.table[TaskE(tx.task)].groupId))
  }

  predicate Rejects(tx: Tx) { tx.TRejectJoinRequest? || tx.TRejectTaskRequest? }

  lemma RejectionEffect(db: Db, tx: Tx, a: Answers)
    requires Rejects(tx)
    ensures Execute(db, tx, a).Commit? <==> tx.request in db.requests && RejectionPasses(db, tx, tx.request)
    ensures Execute(db, tx, a).Commit? ==> Execute(db, tx, a).db == SetStatus(db, tx.request, Rejected)
  {
  }

  lemma ApprovalIsFromWaiting(db: Db, tx: Tx, a: Answers)
    requires (tx.TApproveJoinRequest? || tx.TApproveTaskRequest?) && Execute(db, tx, a).Commit?
    ensures Execute(db, tx, a).db.requests == db.requests[tx.request := db.requests[tx.request].(status := Approved)]
    ensures tx.request in db.requests && db.requests[tx.request].status == Waiting
  {
    if tx.TApproveJoinRequest? {
      ApprovalEffect(db, tx.caller, tx.group, tx.request, tx.listed);
    }
  }

  /** A membership outlives the rejection of its request exactly if the request had been approved and it was still there. */
  lemma LeftBehindIff(db: Db, tx: Tx, a: Answers, id: int)
    requires RequestIds(db) && id in db.requests
    ensures LeftBehind(db, After(db, Execute(db, tx, a)), id) <==>
      && RejectionPasses(db, tx, id)
      && db.requests[id].status == Approved && (db.requests[id].user, db.requests[id].group) in db.members
  {
    if Rejects(tx) {
      RejectionEffect(db, tx, a);
    } else if Execute(db, tx, a).Commit? {
      if AddsRequest(tx) {
        AddsOneRequest(db, tx, a);
      } else if SetsRequest(tx) {
        ApprovalIsFromWaiting(db, tx, a);
      } else {
        OthersLeaveRequests(db, tx, a);
      }
    }
  }

  // ---- deactivating without announcing it ---------------------------------------------------------

  /** A live row has become inactive, and the transaction has not announced a delete of it. */
  predicate FadesOut(db: Db, db': Db, e: Entity) {
    && e in db.table && Alive(db.table[e]) && e in db'.table && !Alive(db'.table[e])
    && (|db'.outbox| > |db.outbox| ==> db'.outbox[|db.outbox|] != Entry(Deleted, e))
  }

  predicate DeactivatingUpdate(db: Db, tx: Tx, e: Entity) {
    tx.TUpdateTask? && e == TaskE(tx.task) && TaskAccess(db, tx.user, tx.task, tx.listed) && tx.taskChange.active == Some(false)
  }

  lemma UpdateFadesOut(db: Db, user: int, task: int, c: TaskChange, listed: int, e: Entity)
    requires UpdateTask(db, user, task, c, listed).Commit?
    ensures FadesOut(db, UpdateTask(db, user, task, c, listed).db, e) <==> e == TaskE(task) && c.active == Some(false)
  {
    assert UpdateTask(db, user, task, c, listed).db.outbox[|db.outbox|] == Entry(Updated, TaskE(task));
  }

  /** The other updates keep the active flag. */
  lemma UpdatesKeepAlive(db: Db, tx: Tx, a: Answers)
    requires (tx.TUpdateGroup? || tx.TUpdateTaskStatus? || tx.TUpdateComment? || tx.TUpdateProfile?) && Execute(db, tx, a).Commit?
    ensures var e := Execute(db, tx, a).db.outbox[|db.outbox|].entity;
      e in db.table ==> e in Execute(db, tx, a).db.table && Alive(Execute(db, tx, a).db.table[e]) == Alive(db.table[e])
  {
  }

  /** All that is left announces a creation or a delete. */
  lemma OthersDoNotUpdate(db: Db, tx: Tx, a: Answers)
    requires !(tx.TUpdateGroup? || tx.TUpdateTaskStatus? || tx.TUpdateComment? || tx.TUpdateProfile? || tx.TUpdateTask?)
    requires (WritesGroup(tx) || WritesTask(tx) || WritesComment(tx) || WritesUser(tx)) && Execute(db, tx, a).Commit?
    ensures |Execute(db, tx, a).db.outbox| > |db.outbox| && Execute(db, tx, a).db.outbox[|db.outbox|].etype != Updated
  {
  }

  lemma OthersAnnounce(db: Db, tx: Tx, a: Answers, e: Entity)
    requires Typed(db.table) && Fresh(db) && !tx.TUpdateTask? && Execute(db, tx, a).Commit?
    ensures !FadesOut(db, Execute(db, tx, a).db, e)
  {
    TransactionWritesOnce(db, tx, a);
    if tx.TUpdateGroup? || tx.TUpdateTaskStatus? || tx.TUpdateComment? || tx.TUpdateProfile? {
      UpdatesKeepAlive(db, tx, a);
    } else if WritesGroup(tx) || WritesTask(tx) || WritesComment(tx) || WritesUser(tx) {
      OthersDoNotUpdate(db, tx, a);
    } else {
      OthersWriteNothing(db, tx, a);
    }
    if FadesOut(db, Execute(db, tx, a).db, e) {
      OneWriteAnnounces(db, Execute(db, tx, a).db, e);
    }
  }

  /** A row that fades out is the one row written, and it is announced as updated. */
  lemma OneWriteAnnounces(db: Db, db': Db, e: Entity)
    requires OneWrite(db, db') && FadesOut(db, db', e)
    ensures |db'.outbox| > |db.outbox| && db'.outbox[|db.outbox|] == Entry(Updated, e)
  {
  }

  /** Only an update that clears a task's active flag deactivates a row without announcing its delete. */
  lemma FadesOutIff(db: Db, tx: Tx, a: Answers, e: Entity)
    requires Inv(db)
    ensures FadesOut(db, After(db, Execute(db, tx, a)), e) <==> DeactivatingUpdate(db, tx, e)
  {
    if Execute(db, tx, a).Commit? {
      if tx.TUpdateTask? {
        UpdateFadesOut(db, tx.user, tx.task, tx.taskChange, tx.listed, e);
      } else {
        OthersAnnounce(db, tx, a, e);
      }
    }
  }

  // ---- changing a profile -------------------------------------------------------------------------

  /** A profile update is refused for another active user's address or name, and for the user's own. */
  lemma OwnAddressRefused(db: Db, user: int, c: UserChange)
    requires Typed(db.table) && Fresh(db) && ActiveUser(db.table, user)
    ensures UpdateProfile(db, user, c) == Raise(UserEmailConflict) <==>
      && c.email.Some? && c.email.value != ""
      && (db.table[UserE(user)].email == c.email.value || UserMailed(db.table, c.email.value, user, true))
    ensures UpdateProfile(db, user, c) == Raise(UserUsernameConflict) <==>
      && UpdateProfile(db, user, c) != Raise(UserEmailConflict) && c.username.Some? && c.username.value != ""
      && (db.table[UserE(user)].username == c.username.value || UserNamed(db.table, c.username.value, user, true))
  {
    assert UserE(user) in db.table && Issued(db.next, UserE(user));
    assert forall e | e in db.table :: Issued(db.next, e);
  }

  // ---- a run that breaks all three ----------------------------------------------------------------

  const ANYONE := Answers(0, 0)

  const CLOSED_GROUP := Db(
    R.TWO_USERS.table[GroupE(1) := GroupRow("g", 1, RequestJoin, None, "", true)], {(1, 1)}, {},
    map[1 := UserRole(1, GroupAdmin, Some(1), None)], map[],
    R.TWO_USERS.outbox + [Entry(Created, GroupE(1))], Sequences(3, 2, 1, 1, 2, 1))

  const ONE_TASK := CLOSED_GROUP.(
    table := CLOSED_GROUP.table[TaskE(1) := TaskRow("a", Todo, 1, "", true)], assignees := {(1, 1)},
    roles := CLOSED_GROUP.roles[2 := UserRole(1, Assignee, Some(1), Some(1))][3 := UserRole(1, Member, Some(1), None)],
    outbox := CLOSED_GROUP.outbox + [Entry(Created, TaskE(1))], next := Sequences(3, 2, 2, 1, 4, 1))

  const TWO_TASKS := ONE_TASK.(
    table := ONE_TASK.table[TaskE(2) := TaskRow("b", Todo, 1, "", true)], assignees := {(1, 1), (1, 2)},
    roles := ONE_TASK.roles[4 := UserRole(1, Assignee, Some(1), Some(2))],
    outbox := ONE_TASK.outbox + [Entry(Created, TaskE(2))], next := Sequences(3, 2, 3, 1, 5, 1))

  const ASKED := TWO_TASKS.(requests := map[1 := JoinRequest(2, 1, Some(1), Waiting)], next := Sequences(3, 2, 3, 1, 5, 2))

  const SELF_APPROVED := ASKED.(
    requests := map[1 := JoinRequest(2, 1, Some(1), Approved)], members := {(1, 1), (2, 1)}, assignees := {(1, 1), (1, 2), (2, 1)})

  const REJECTED := SELF_APPROVED.(requests := map[1 := JoinRequest(2, 1, Some(1), Rejected)])

  const SAME_TITLE := TaskChange(Some("a"), None, None, None)

  lemma CreatesClosedGroup()
    ensures CreateGroup(R.TWO_USERS, 1, "g", RequestJoin, None, "") == Commit(CLOSED_GROUP, [])
  {
    assert {} + {(1, 1)} == CLOSED_GROUP.members;
  }

  lemma CreatesFirstTask()
    ensures CreateTask(CLOSED_GROUP, 1, 1, "a", "") == Commit(ONE_TASK, [])
  {
    assert 1 in CLOSED_GROUP.roles && CLOSED_GROUP.roles[1].group == Some(1);
    assert CLOSED_GROUP.members + {(1, 1)} == ONE_TASK.members && {} + {(1, 1)} == ONE_TASK.assignees;
  }

  lemma CreatesSecondTask()
    ensures CreateTask(ONE_TASK, 1, 1, "b", "") == Commit(TWO_TASKS, [])
  {
    assert 3 in TWO_TASKS.roles && TWO_TASKS.roles[3] == UserRole(1, Member, Some(1), None);
    assert 3 in ONE_TASK.roles && ONE_TASK.roles[3].group == Some(1);
    assert ONE_TASK.members + {(1, 1)} == TWO_TASKS.members && ONE_TASK.assignees + {(1, 2)} == TWO_TASKS.assignees;
  }

  lemma AsksToJoin()
    ensures JoinTask(TWO_TASKS, 1, 2) == Commit(ASKED, [RequestCreated(2, 1, 1)])
  {
    assert TWO_TASKS.requests[1 := JoinRequest(2, 1, Some(1), Waiting)] == ASKED.requests;
  }

  lemma ApprovesItself()
    ensures ApproveTaskRequest(ASKED, 2, 1) == Commit(SELF_APPROVED, [GroupJoin(2, 2, 1), RequestApproved(2, 2, 1)])
  {
    assert SetStatus(ASKED, 1, Approved).requests == SELF_APPROVED.requests;
    assert ASKED.members + {(2, 1)} == SELF_APPROVED.members && ASKED.assignees + {(2, 1)} == SELF_APPROVED.assignees;
    assert [GroupJoin(2, 2, 1)] + [RequestApproved(2, 2, 1)] == [GroupJoin(2, 2, 1), RequestApproved(2, 2, 1)];
  }

  lemma RejectsTheApproved()
    ensures RejectTaskRequest(SELF_APPROVED, 1, 1, 1) == Commit(REJECTED, [RequestRejected(1, 2, 1)])
  {
    assert SetStatus(SELF_APPROVED, 1, Rejected).requests == REJECTED.requests;
  }

  lemma TakesTheTitle()
    ensures UpdateTask(REJECTED, 1, 2, SAME_TITLE, 1).Commit?
    ensures !TitlesUnique(UpdateTask(REJECTED, 1, 2, SAME_TITLE, 1).db.table)
  {
    assert 3 in REJECTED.roles && REJECTED.roles[3].group == Some(1);
    var t := UpdateTask(REJECTED, 1, 2, SAME_TITLE, 1).db.table;
    assert ActiveTitle(t, TaskE(1), 1, "a") && ActiveTitle(t, TaskE(2), 1, "a");
  }

  const WITH_GROUP := R.REGISTERED + [R.Call(TCreateGroup(1, "g", RequestJoin, None, ""), ANYONE)]
  const WITH_TASKS := WITH_GROUP + [R.Call(TCreateTask(1, 1, "a", ""), ANYONE)] + [R.Call(TCreateTask(1, 1, "b", ""), ANYONE)]
  const WITH_REQUEST := WITH_TASKS + [R.Call(TJoinTask(1, 2), ANYONE)]
  const WITH_APPROVAL := WITH_REQUEST + [R.Call(TApproveTaskRequest(2, 1), ANYONE)]
  const WITH_REJECTION := WITH_APPROVAL + [R.Call(TRejectTaskRequest(1, 1, 1), ANYONE)]
  const WITH_SAME_TITLE := WITH_REJECTION + [R.Call(TUpdateTask(1, 2, SAME_TITLE, 1), ANYONE)]

  lemma TasksStage()
    ensures R.Legal(R.START, WITH_TASKS) && R.Run(R.START, WITH_TASKS).db == TWO_TASKS
  {
    R.UsersStage();
    CreatesClosedGroup();
    R.CallStep(R.REGISTERED, R.Call(TCreateGroup(1, "g", RequestJoin, None, ""), ANYONE), R.TWO_USERS, Commit(CLOSED_GROUP, []));
    CreatesFirstTask();
    var c := R.Call(TCreateTask(1, 1, "a", ""), ANYONE);
    R.CallStep(WITH_GROUP, c, CLOSED_GROUP, Commit(ONE_TASK, []));
    CreatesSecondTask();
    R.CallStep(WITH_GROUP + [c], R.Call(TCreateTask(1, 1, "b", ""), ANYONE), ONE_TASK, Commit(TWO_TASKS, []));
  }

  /** A reachable state in which the asking user, who is not the group's admin, has approved the request. */
  lemma NonAdminApproves()
    ensures R.Legal(R.START, WITH_APPROVAL)
    ensures R.Run(R.START, WITH_REQUEST).db == ASKED && R.Run(R.START, WITH_APPROVAL).db == SELF_APPROVED
    ensures !MyGroup(ASKED.table, 2, 1) && Approvable(ASKED, 1)
  {
    TasksStage();
    AsksToJoin();
    R.CallStep(WITH_TASKS, R.Call(TJoinTask(1, 2), ANYONE), TWO_TASKS, Commit(ASKED, [RequestCreated(2, 1, 1)]));
    ApprovesItself();
    R.CallStep(WITH_REQUEST, R.Call(TApproveTaskRequest(2, 1), ANYONE), ASKED,
               Commit(SELF_APPROVED, [GroupJoin(2, 2, 1), RequestApproved(2, 2, 1)]));
  }

  /** The same run goes on to reject the approved request, and its user stays in the group. */
  lemma RejectionLeavesMember()
    ensures R.Legal(R.START, WITH_REJECTION) && R.Run(R.START, WITH_REJECTION).db == REJECTED
    ensures LeftBehind(R.Run(R.START, WITH_APPROVAL).db, R.Run(R.START, WITH_REJECTION).db, 1)
  {
    NonAdminApproves();
    RejectsTheApproved();
    R.CallStep(WITH_APPROVAL, R.Call(TRejectTaskRequest(1, 1, 1), ANYONE), SELF_APPROVED, Commit(REJECTED, [RequestRejected(1, 2, 1)]));
  }

  /** And to give the second task the title of the first. */
  lemma TitleTakenTwice()
    ensures R.Legal(R.START, WITH_SAME_TITLE) && !TitlesUnique(R.Run(R.START, WITH_SAME_TITLE).db.table)
  {
    RejectionLeavesMember();
    TakesTheTitle();
    R.CallStep(WITH_REJECTION, R.Call(TUpdateTask(1, 2, SAME_TITLE, 1), ANYONE), REJECTED, UpdateTask(REJECTED, 1, 2, SAME_TITLE, 1));
  }

  const DEACTIVATE := TaskChange(None, None, None, Some(false))
  const WITH_DEACTIVATION := WITH_TASKS + [R.Call(TUpdateTask(1, 2, DEACTIVATE, 1), ANYONE)]

  /** The two tasks again: an update deactivates the second, and no delete of it is announced. */
  lemma DeactivatedUnannounced()
    ensures R.Legal(R.START, WITH_DEACTIVATION)
    ensures var db := R.Run(R.START, WITH_DEACTIVATION).db;
      TaskE(2) in db.table && !Alive(db.table[TaskE(2)]) && Entry(Deleted, TaskE(2)) !in db.outbox
  {
    TasksStage();
    var o := UpdateTask(TWO_TASKS, 1, 2, DEACTIVATE, 1);
    UpdatesTheSecond(o);
    R.CallStep(WITH_TASKS, R.Call(TUpdateTask(1, 2, DEACTIVATE, 1), ANYONE), TWO_TASKS, o);
  }

  lemma UpdatesTheSecond(o: Outcome)
    requires o == UpdateTask(TWO_TASKS, 1, 2, DEACTIVATE, 1)
    ensures o.Commit? && TaskE(2) in o.db.table && !Alive(o.db.table[TaskE(2)]) && Entry(Deleted, TaskE(2)) !in o.db.outbox
  {
    assert 3 in TWO_TASKS.roles && TWO_TASKS.roles[3].group == Some(1);
  }
}
