/** The group transactions, step by step inside a unit of work. A raised error leaves the session half-written. */
module GroupTransactions {
  import opened Schema
  import opened Store
  import opened TransactionBase
  import opened Transactions
  import opened UnitOfWork
  import K = TaskTransactions

  /** The event types the group service's dispatcher knows. */
  predicate Handles(n: Notice) { !n.TaskInvite? }

  method DispatchEvents(notification: NotificationService, events: seq<Notice>)
    modifies notification
    ensures (forall n | n in events :: Handles(n)) ==> notification.sent == old(notification.sent) + events
  {
    for k := 0 to |events|
      invariant (forall n | n in events :: Handles(n)) ==> notification.sent == old(notification.sent) + events[..k]
    {
      if !events[k].TaskInvite? {
        notification.Notify(events[k]);
      }
      assert events[k] in events && events[..k + 1] == events[..k] + [events[k]];
    }
  }

  method CleanupRoleIfNoGroups(uow: UnitOfWork, user: int, role: RoleName) returns (ghost answer: int)
    modifies uow`db
    ensures RoleAnswer(old(uow.db), user, role, answer)
    ensures uow.db == Cleanup(old(uow.db), user, role, answer)
  {
    var remaining := if role == Member then HasMembership(uow.db.members, user) else HasAdminGroup(uow.db.table, user);
    var userRole := uow.FindUserRole(user, role);
    answer := if userRole.Some? then userRole.value else 0;
    if !remaining {
      if userRole.Some? {
        uow.DeleteUserRole(userRole.value);
      }
    }
  }

  method CreateMyGroup(uow: UnitOfWork, user: int, name: string, policy: JoinPolicy, parent: Option<int>, details: string) returns (raised: Option<Error>)
    modifies uow
    ensures Did(CreateGroup(old(uow.db), user, name, policy, parent, details), raised, old(uow.events), uow)
  {
    if OwnActiveGroupNamed(uow.db.table, name, user) {
      return Some(GroupNameConflict);
    }
    if !CanAddGroup(uow.db, name, user, parent) {
      return Some(IntegrityError);
    }
    var g := uow.db.next.group;
    uow.db := uow.db.(next := uow.db.next.(group := g + 1));
    uow.SaveRow(GroupE(g), GroupRow(name, user, policy, parent, details, true));
    if (user, g) !in uow.db.members {
      var ok := uow.AddMembership(user, g);
    }
    uow.AddOutbox(Created, GroupE(g));
    assert IsUser(uow.db.table, user);
    var granted := GrantRoleIfNotExists(uow, user, GroupAdmin, g);
    return None;
  }

  method UpdateMyGroup(uow: UnitOfWork, user: int, group: int, c: GroupChange) returns (raised: Option<Error>)
    modifies uow
    ensures Did(UpdateGroup(old(uow.db), user, group, c), raised, old(uow.events), uow)
  {
    if !MyGroup(uow.db.table, user, group) {
      return Some(ForbiddenGroupAccess);
    }
    if c.name.Some? && c.name.value != "" {
      if ActiveGroupNamed(uow.db.table, c.name.value, group) {
        return Some(GroupNameConflict);
      }
    }
    if c.name.Some? && GroupNamed(uow.db.table, c.name.value, group) {
      return Some(IntegrityError);
    }
    uow.SaveRow(GroupE(group), ChangedGroup(uow.db.table[GroupE(group)], c));
    uow.AddOutbox(Updated, GroupE(group));
    return None;
  }

  method DeleteMyGroup(uow: UnitOfWork, user: int, group: int) returns (raised: Option<Error>, ghost a: Answers)
    modifies uow
    ensures Possible(old(uow.db), TDeleteGroup(user, group), a)
    ensures Did(DeleteGroup(old(uow.db), user, group, a), raised, old(uow.events), uow)
  {
    a := Answers(0, 0);
    if !MyGroup(uow.db.table, user, group) {
      return Some(ForbiddenGroupAccess), a;
    }
    var userRole := uow.FindGroupRole(user, GroupAdmin, group);
    if userRole.None? {
      return Some(GroupNotFound), a;
    }
    uow.SaveRow(GroupE(group), Deactivated(uow.db.table[GroupE(group)]));
    uow.DeleteUserRole(userRole.value);
    uow.AddOutbox(Deleted, GroupE(group));
    assert uow.db == WithoutGroup(old(uow.db), group, Answers(userRole.value, 0));
    ghost var second := CleanupRoleIfNoGroups(uow, user, GroupAdmin);
    a := Answers(userRole.value, second);
    return None, a;
  }

  method AddMemberToGroup(uow: UnitOfWork, caller: int, group: int, user: int) returns (raised: Option<Error>)
    modifies uow
    ensures Did(AddMember(old(uow.db), caller, group, user), raised, old(uow.events), uow)
  {
    if !MyGroup(uow.db.table, caller, group) {
      return Some(ForbiddenGroupAccess);
    }
    if (user, group) in uow.db.members {
      return Some(MemberAlreadyExists);
    }
    var ok := uow.AddMembership(user, group);
    if !ok {
      return Some(IntegrityError);
    }
    uow.AddEvent(GroupInvite(caller, user, group));
    return None;
  }

  method RemoveMemberFromGroup(uow: UnitOfWork, caller: int, group: int, user: int) returns (raised: Option<Error>, ghost a: Answers)
    modifies uow
    ensures Possible(old(uow.db), TRemoveMember(caller, group, user), a)
    ensures Did(RemoveMember(old(uow.db), caller, group, user, a), raised, old(uow.events), uow)
  {
    if !MyGroup(uow.db.table, caller, group) {
      return Some(ForbiddenGroupAccess), Answers(0, 0);
    }
    raised, a := LeaveGroup(uow, group, user);
  }

  method LeaveGroup(uow: UnitOfWork, group: int, user: int) returns (raised: Option<Error>, ghost a: Answers)
    modifies uow
    ensures (user, group) in old(uow.db).members ==> RoleAnswer(old(uow.db), user, Member, a.first)
    ensures Did(ExitGroup(old(uow.db), group, user, a), raised, old(uow.events), uow)
  {
    if (user, group) !in uow.db.members {
      return Some(MemberNotFound), Answers(0, 0);
    }
    uow.DeleteMembership(user, group);
    ghost var answer := CleanupRoleIfNoGroups(uow, user, Member);
    return None, Answers(answer, 0);
  }

  method RequestToJoin(uow: UnitOfWork, group: int, user: int) returns (raised: Option<Error>)
    modifies uow
    ensures Did(CreateJoinRequest(old(uow.db), group, user), raised, old(uow.events), uow)
  {
    if HasRequest(uow.db, user, group) {
      return Some(JoinRequestAlreadyExists);
    }
    var ok := uow.AddJoinRequest(JoinRequest(user, group, None, Waiting));
    return if ok then None else Some(IntegrityError);
  }

  /** The task service's assignment: a unit of work of its own, committed and announced before this returns. */
  method AssignInOwnUnit(database: Database, notification: NotificationService, caller: int, task: int, user: int, listed: int)
      returns (raised: Option<Error>)
    modifies database, notification
    ensures match AddUserToTask(old(database.db), caller, task, user, listed)
      case Commit(db, notices) => raised.None? && database.db == db && notification.sent == old(notification.sent) + notices
      case Raise(e) => raised == Some(e) && database.db == old(database.db) && notification.sent == old(notification.sent)
  {
    var inner := new UnitOfWork(database, false);
    raised := K.AddUser(inner, caller, task, user, listed);
    inner.Exit(raised.Some?);
    if raised.None? {
      var events := inner.GetEvents();
      K.DispatchEvents(notification, events);
    }
  }

  /** The outcome of an approval: what has been sent already and what is recorded add up to its notices. */
  ghost predicate Approves(o: Outcome, raised: Option<Error>, before: Db, sent: seq<Notice>, uow: UnitOfWork, notification: NotificationService)
    reads uow, uow.database, notification
  {
    match o
    case Commit(db, notices) =>
      && raised.None? && uow.db == db && notification.sent + uow.events == sent + notices
      && forall n | n in uow.events :: Handles(n)
    case Raise(e) => raised == Some(e) && uow.database.db == before && notification.sent == sent
  }

  /** After the approval; `uow` comes to see what the assignment committed. */
  method HandleTaskJoin(uow: UnitOfWork, notification: NotificationService, caller: int, user: int, group: int, task: int, listed: int)
      returns (raised: Option<Error>)
    requires uow.events == [] && ActiveTask(uow.database.db.table, task)
    requires uow.db.table == uow.database.db.table && uow.db.assignees == uow.database.db.assignees
    modifies uow, uow.database, notification
    ensures Approves(AfterApproval(old(uow.database.db), old(uow.db), caller, user, group, task, listed), raised,
                     old(uow.database.db), old(notification.sent), uow, notification)
  {
    var home := uow.db.table[TaskE(task)].groupId;
    if (user, home) !in uow.db.members {
      var ok := uow.AddMembership(user, home);
      if !ok {
        return Some(IntegrityError);
      }
      if ActiveGroup(uow.db.table, home) {
        uow.AddEvent(GroupJoin(user, user, home));
      }
    }
    raised := AssignInOwnUnit(uow.database, notification, caller, task, user, listed);
    if raised.None? {
      uow.db := uow.db.(assignees := uow.database.db.assignees);
      uow.AddEvent(RequestApproved(caller, user, group));
    }
  }

  method ApproveRequest(uow: UnitOfWork, notification: NotificationService, caller: int, group: int, request: int, listed: int)
      returns (raised: Option<Error>)
    requires uow.events == [] && uow.db == uow.database.db
    modifies uow, uow.database, notification
    ensures Approves(ApproveJoinRequest(old(uow.db), caller, group, request, listed), raised,
                     old(uow.db), old(notification.sent), uow, notification)
  {
    if request !in uow.db.requests {
      return Some(JoinRequestNotFound);
    }
    var r := uow.db.requests[request];
    if r.group != group {
      return Some(JoinRequestNotFound);
    }
    if !ActiveGroup(uow.db.table, group) {
      return Some(GroupNotFound);
    }
    if uow.db.table[GroupE(group)].adminId != caller {
      return Some(MemberNotAdmin);
    }
    if r.status != Waiting {
      return Some(JoinRequestAlreadyHandled);
    }
    uow.UpdateJoinRequest(request, Approved);
    var ok := uow.AddMembership(r.user, group);
    if !ok {
      return Some(IntegrityError);
    }
    var granted := GrantRoleIfNotExists(uow, r.user, Member, group);
    if r.task.Some? && ActiveTask(uow.db.table, r.task.value) {
      raised := HandleTaskJoin(uow, notification, caller, r.user, group, r.task.value, listed);
    } else {
      uow.AddEvent(RequestApproved(caller, r.user, group));
      raised := None;
    }
  }

  method RejectRequest(uow: UnitOfWork, caller: int, request: int) returns (raised: Option<Error>)
    modifies uow
    ensures Did(RejectJoinRequest(old(uow.db), caller, request), raised, old(uow.events), uow)
  {
    if request !in uow.db.requests {
      return Some(JoinRequestNotFound);
    }
    var r := uow.db.requests[request];
    if !ActiveGroup(uow.db.table, r.group) {
      return Some(GroupNotFound);
    }
    if uow.db.table[GroupE(r.group)].adminId != caller {
      return Some(MemberNotAdmin);
    }
    uow.UpdateJoinRequest(request, Rejected);
    uow.AddEvent(RequestRejected(caller, r.user, r.group));
    return None;
  }

  method Join(uow: UnitOfWork, group: int, user: int) returns (raised: Option<Error>)
    modifies uow
    ensures Did(JoinGroup(old(uow.db), group, user), raised, old(uow.events), uow)
  {
    if (user, group) in uow.db.members {
      return Some(MemberAlreadyExists);
    }
    if !ActiveGroup(uow.db.table, group) {
      return Some(GroupNotFound);
    }
    if HasPending(uow.db, user, group) {
      return Some(JoinRequestAlreadyExists);
    }
    var admin := uow.db.table[GroupE(group)].adminId;
    if uow.db.table[GroupE(group)].joinPolicy == OpenJoin {
      var ok := uow.AddMembership(user, group);
      if !ok {
        return Some(IntegrityError);
      }
      var granted := GrantRoleIfNotExists(uow, user, Member, group);
      uow.AddEvent(GroupJoin(user, admin, group));
    } else {
      var ok := uow.AddJoinRequest(JoinRequest(user, group, None, Waiting));
      if !ok {
        return Some(IntegrityError);
      }
      uow.AddEvent(RequestCreated(user, admin, group));
    }
    return None;
  }
}
