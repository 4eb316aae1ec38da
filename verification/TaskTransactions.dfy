/** The task transactions. */
module TaskTransactions {
  import opened Schema
  import opened Store
  import opened TransactionBase
  import opened Transactions
  import opened UnitOfWork

  /** The event types the task service's dispatcher knows. */
  predicate Handles(n: Notice) { !n.GroupInvite? }

  method DispatchEvents(notification: NotificationService, events: seq<Notice>)
    modifies notification
    ensures (forall n | n in events :: Handles(n)) ==> notification.sent == old(notification.sent) + events
  {
    for k := 0 to |events|
      invariant (forall n | n in events :: Handles(n)) ==> notification.sent == old(notification.sent) + events[..k]
    {
      if !events[k].GroupInvite? {
        notification.Notify(events[k]);
      }
      assert events[k] in events && events[..k + 1] == events[..k] + [events[k]];
    }
  }

  method CreateTaskForGroup(uow: UnitOfWork, user: int, group: int, title: string, details: string) returns (raised: Option<Error>)
    modifies uow
    ensures Did(CreateTask(old(uow.db), user, group, title, details), raised, old(uow.events), uow)
  {
    if !AccessGroup(uow.db, user, group) {
      return Some(ForbiddenGroupAccess);
    }
    if TitleTaken(uow.db.table, group, title) {
      return Some(TaskTitleConflict);
    }
    var t := uow.db.next.task;
    uow.db := uow.db.(next := uow.db.next.(task := t + 1));
    uow.SaveRow(TaskE(t), TaskRow(title, Todo, group, details, true));
    var ok := uow.AddUserRole(UserRole(user, Assignee, Some(group), Some(t)));
    if !ok {
      return Some(IntegrityError);
    }
    ok := uow.AddTaskAssignee(user, t);
    if !ok {
      return Some(IntegrityError);
    }
    uow.AddOutbox(Created, TaskE(t));
    if (user, group) !in uow.db.members {
      ok := uow.AddMembership(user, group);
    }
    assert IsUser(uow.db.table, user);
    var granted := GrantRoleIfNotExists(uow, user, Member, group);
    return None;
  }

  method UpdateMyTask(uow: UnitOfWork, user: int, task: int, c: TaskChange, listed: int) returns (raised: Option<Error>)
    modifies uow
    ensures Did(UpdateTask(old(uow.db), user, task, c, listed), raised, old(uow.events), uow)
  {
    if !TaskAccess(uow.db, user, task, listed) {
      return Some(ForbiddenTaskAccess);
    }
    uow.SaveRow(TaskE(task), ChangedTask(uow.db.table[TaskE(task)], c));
    uow.AddOutbox(Updated, TaskE(task));
    return None;
  }

  method DeleteMyTask(uow: UnitOfWork, user: int, task: int, listed: int) returns (raised: Option<Error>)
    modifies uow
    ensures Did(DeleteTask(old(uow.db), user, task, listed), raised, old(uow.events), uow)
  {
    if !TaskAccess(uow.db, user, task, listed) {
      return Some(ForbiddenTaskAccess);
    }
    uow.SaveRow(TaskE(task), Deactivated(uow.db.table[TaskE(task)]));
    uow.AddOutbox(Deleted, TaskE(task));
    return None;
  }

  method UpdateStatusTask(uow: UnitOfWork, task: int, status: TaskStatus) returns (raised: Option<Error>)
    modifies uow
    ensures Did(UpdateTaskStatus(old(uow.db), task, status), raised, old(uow.events), uow)
  {
    if !ActiveTask(uow.db.table, task) {
      return Some(TaskNotFound);
    }
    if uow.db.table[TaskE(task)].status == status {
      return Some(TaskStatusAlreadySet);
    }
    uow.SaveRow(TaskE(task), uow.db.table[TaskE(task)].(status := status));
    uow.AddOutbox(Updated, TaskE(task));
    return None;
  }

  method Join(uow: UnitOfWork, task: int, user: int) returns (raised: Option<Error>)
    modifies uow
    ensures Did(JoinTask(old(uow.db), task, user), raised, old(uow.events), uow)
  {
    if (user, task) in uow.db.assignees {
      return Some(UserAlreadyInTask);
    }
    if !ActiveTask(uow.db.table, task) {
      return Some(TaskNotFound);
    }
    var group := uow.db.table[TaskE(task)].groupId;
    if !ActiveGroup(uow.db.table, group) {
      return Some(TaskNotInGroup);
    }
    if HasPendingForTask(uow.db, user, task) {
      return Some(JoinRequestAlreadyExists);
    }
    var ok;
    if uow.db.table[GroupE(group)].joinPolicy == OpenJoin {
      ok := uow.AddTaskAssignee(user, task);
    } else {
      ok := uow.AddJoinRequest(JoinRequest(user, group, Some(task), Waiting));
      if ok {
        uow.AddEvent(RequestCreated(user, uow.db.table[GroupE(group)].adminId, group));
      }
    }
    return if ok then None else Some(IntegrityError);
  }

  method ApproveRequest(uow: UnitOfWork, caller: int, request: int) returns (raised: Option<Error>)
    modifies uow
    ensures Did(ApproveTaskRequest(old(uow.db), caller, request), raised, old(uow.events), uow)
  {
    if request !in uow.db.requests {
      return Some(JoinRequestNotFound);
    }
    var r := uow.db.requests[request];
    if r.task.None? {
      return Some(TaskAssigneeNotFound);
    }
    if !ActiveTask(uow.db.table, r.task.value) {
      return Some(TaskNotFound);
    }
    var group := uow.db.table[TaskE(r.task.value)].groupId;
    if !ActiveGroup(uow.db.table, group) {
      return Some(GroupNotFound);
    }
    if r.status != Waiting {
      return Some(JoinRequestAlreadyHandled);
    }
    uow.UpdateJoinRequest(request, Approved);
    if (r.user, group) !in uow.db.members {
      var joined := uow.AddMembership(r.user, group);
      if !joined {
        return Some(IntegrityError);
      }
      uow.AddEvent(GroupJoin(caller, r.user, group));
    }
    var ok := uow.AddTaskAssignee(r.user, r.task.value);
    if !ok {
      return Some(IntegrityError);
    }
    uow.AddEvent(RequestApproved(caller, r.user, group));
    return None;
  }

  method RejectRequest(uow: UnitOfWork, caller: int, task: int, request: int) returns (raised: Option<Error>)
    modifies uow
    ensures Did(RejectTaskRequest(old(uow.db), caller, task, request), raised, old(uow.events), uow)
  {
    if request !in uow.db.requests || uow.db.requests[request].task != Some(task) {
      return Some(JoinRequestNotFound);
    }
    if !ActiveTask(uow.db.table, task) {
      return Some(TaskNotFound);
    }
    var group := uow.db.table[TaskE(task)].groupId;
    if !ActiveGroup(uow.db.table, group) {
      return Some(GroupNotFound);
    }
    if uow.db.table[GroupE(group)].adminId != caller {
      return Some(TaskAccessDenied);
    }
    uow.UpdateJoinRequest(request, Rejected);
    uow.AddEvent(RequestRejected(caller, uow.db.requests[request].user, group));
    return None;
  }

  method AddUser(uow: UnitOfWork, caller: int, task: int, user: int, listed: int) returns (raised: Option<Error>)
    modifies uow
    ensures Did(AddUserToTask(old(uow.db), caller, task, user, listed), raised, old(uow.events), uow)
  {
    if !TaskAccess(uow.db, caller, task, listed) {
      return Some(ForbiddenTaskAccess);
    }
    if (user, task) in uow.db.assignees {
      return Some(UserAlreadyInTask);
    }
    var ok := uow.AddTaskAssignee(user, task);
    if !ok {
      return Some(IntegrityError);
    }
    uow.AddEvent(TaskInvite(caller, user, task));
    return None;
  }
}
