/** What each transaction asks of the database and what it leaves there, said without the steps it takes. */
module TransactionLaws {
  import opened Schema
  import opened Store
  import opened Transactions
  import opened TransactionInvariants
  import R = TransactionRuns

  /** Everything but the parts named stays: the rows and their announcements, the links, the role rows, the requests. */
  predicate SameTables(db: Db, d: Db) { d.table == db.table && d.outbox == db.outbox }
  predicate SameLinks(db: Db, d: Db) { d.members == db.members && d.assignees == db.assignees }
  predicate SameRoles(db: Db, d: Db) { d.roles == db.roles }
  predicate SameRequests(db: Db, d: Db) { d.requests == db.requests }

  /** One row is stored, and announced. */
  predicate Stores(db: Db, d: Db, etype: EventType, e: Entity, row: Row) {
    d.table == db.table[e := row] && d.outbox == db.outbox + [Entry(etype, e)]
  }

  predicate AdminOf(db: Db, user: int, group: int) {
    GroupE(group) in db.table && db.table[GroupE(group)].GroupRow? && db.table[GroupE(group)].active && db.table[GroupE(group)].adminId == user
  }

  predicate ActiveIn(db: Db, task: int, group: int) {
    TaskE(task) in db.table && db.table[TaskE(task)].TaskRow? && db.table[TaskE(task)].active && db.table[TaskE(task)].groupId == group
  }

  /** The user has some role row in a group that is active. */
  ghost predicate HasAccess(db: Db, user: int, group: int) {
    && GroupE(group) in db.table && db.table[GroupE(group)].GroupRow? && db.table[GroupE(group)].active
    && exists id :: id in db.roles && db.roles[id].user == user && db.roles[id].group == Some(group)
  }

  // ---- groups -----------------------------------------------------------------------------------------

  lemma CreateGroupLaw(db: Db, user: int, name: string, policy: JoinPolicy, parent: Option<int>, details: string)
    requires Inv(db)
    ensures var o, g := CreateGroup(db, user, name, policy, parent, details), db.next.group;
      && (o.Commit? <==>
            && (forall e | e in db.table && db.table[e].GroupRow? :: db.table[e].name != name)
            && IsUser(db.table, user) && (parent.Some? ==> IsGroup(db.table, parent.value)))
      && (o.Commit? ==>
            && Stores(db, o.db, Created, GroupE(g), GroupRow(name, user, policy, parent, details, true))
            && o.db.members == db.members + {(user, g)} && o.db.assignees == db.assignees && SameRequests(db, o.db)
            && o.db.roles == db.roles[db.next.role := UserRole(user, GroupAdmin, Some(g), None)]
            && o.notices == [])
  {
    var g := db.next.group;
    assert forall e | e in db.table :: Issued(db.next, e) && RowFits(e.kind, db.table[e]);
    assert GroupE(g) !in db.table;
    assert !HasRole(db.roles, user, GroupAdmin, g);
  }

  lemma UpdateGroupLaw(db: Db, user: int, group: int, c: GroupChange)
    requires Inv(db)
    ensures var o := UpdateGroup(db, user, group, c);
      && (o.Commit? <==>
            && AdminOf(db, user, group)
            && (c.name.Some? ==> forall e | e in db.table && db.table[e].GroupRow? && db.table[e].name == c.name.value :: e == GroupE(group)))
      && (o.Commit? ==>
            var row, row' := db.table[GroupE(group)], o.db.table[GroupE(group)];
            && Stores(db, o.db, Updated, GroupE(group), row') && row'.GroupRow?
            && row'.name == (if c.name.Some? then c.name.value else row.name)
            && row'.joinPolicy == (if c.joinPolicy.Some? then c.joinPolicy.value else row.joinPolicy)
            && row'.details == (if c.details.Some? then c.details.value else row.details)
            && row'.adminId == row.adminId && row'.parentGroup == row.parentGroup && row'.active
            && SameLinks(db, o.db) && SameRoles(db, o.db) && SameRequests(db, o.db) && o.notices == [])
  {
    assert forall e | e in db.table :: Issued(db.next, e) && RowFits(e.kind, db.table[e]);
    if c.name.Some? && GroupNamed(db.table, c.name.value, group) {
      var e :| e in db.table && e.kind.GroupKind? && e.id != group && db.table[e].GroupRow? && db.table[e].name == c.name.value;
      assert e != GroupE(group);
    }
  }

  lemma DeleteGroupLaw(db: Db, user: int, group: int, a: Answers)
    requires Inv(db) && Possible(db, TDeleteGroup(user, group), a)
    ensures var o := DeleteGroup(db, user, group, a);
      && (o.Commit? <==> AdminOf(db, user, group))
      && (o.Commit? ==>
            var row := db.table[GroupE(group)];
            && Stores(db, o.db, Deleted, GroupE(group),
                      GroupRow(row.name, row.adminId, row.joinPolicy, row.parentGroup, row.details, false))
            && a.first in db.roles && db.roles[a.first] == UserRole(user, GroupAdmin, Some(group), None)
            && o.db.roles == db.roles - {a.first}
            && SameLinks(db, o.db) && SameRequests(db, o.db) && o.notices == [])
  {
    if AdminOf(db, user, group) {
      assert HasRole(db.roles, db.table[GroupE(group)].adminId, GroupAdmin, group);
      DeleteGroupCleansNothing(db, user, group, a);
    }
  }

  lemma AddMemberLaw(db: Db, caller: int, group: int, user: int)
    ensures var o := AddMember(db, caller, group, user);
      && (o.Commit? <==> AdminOf(db, caller, group) && (user, group) !in db.members && IsUser(db.table, user))
      && (o.Commit? ==>
            && o.db.members == db.members + {(user, group)} && o.db.assignees == db.assignees
            && SameTables(db, o.db) && SameRoles(db, o.db) && SameRequests(db, o.db)
            && o.notices == [GroupInvite(caller, user, group)])
  {
  }

  /** Leaving, or being taken out by the group's admin; at most one role row goes, one of MEMBER, if no membership is left. */
  lemma LeaveLaw(db: Db, group: int, user: int, a: Answers)
    ensures var o := ExitGroup(db, group, user, a);
      && (o.Commit? <==> (user, group) in db.members)
      && (o.Commit? ==>
            && o.db.members == db.members - {(user, group)} && o.db.assignees == db.assignees
            && SameTables(db, o.db) && SameRequests(db, o.db) && o.notices == []
            && (o.db.roles == db.roles ||
                (&& a.first in db.roles && db.roles[a.first].user == user && db.roles[a.first].role == Member
                 && o.db.roles == db.roles - {a.first} && forall g :: (user, g) !in o.db.members)))
  {
    var members := db.members - {(user, group)};
    forall g | (user, g) in members ensures HasMembership(members, user) {
      assert (user, g).0 == user;
    }
  }

  lemma RemoveMemberLaw(db: Db, caller: int, group: int, user: int, a: Answers)
    ensures var o := RemoveMember(db, caller, group, user, a);
      && (o.Commit? <==> AdminOf(db, caller, group) && (user, group) in db.members)
      && (o.Commit? ==> o == ExitGroup(db, group, user, a))
  {
    LeaveLaw(db, group, user, a);
  }

  /** A waiting request of the user for the group, under the next id. */
  predicate Asks(db: Db, d: Db, user: int, group: int, task: Option<int>) {
    d.requests == db.requests[db.next.request := JoinRequest(user, group, task, Waiting)]
  }

  lemma CreateJoinRequestLaw(db: Db, group: int, user: int)
    ensures var o := CreateJoinRequest(db, group, user);
      && (o.Commit? <==>
            && (forall id | id in db.requests && db.requests[id].user == user :: db.requests[id].group != group)
            && IsUser(db.table, user) && IsGroup(db.table, group))
      && (o.Commit? ==>
            && Asks(db, o.db, user, group, None)
            && SameTables(db, o.db) && SameLinks(db, o.db) && SameRoles(db, o.db) && o.notices == [])
  {
  }

  ghost predicate MayJoin(db: Db, group: int, user: int) {
    && (user, group) !in db.members && IsUser(db.table, user)
    && GroupE(group) in db.table && db.table[GroupE(group)].GroupRow? && db.table[GroupE(group)].active
    && forall id | id in db.requests && db.requests[id].user == user && db.requests[id].group == group :: db.requests[id].status != Waiting
  }

  /**
   Joining an open group makes the user a member, with one MEMBER row there, and asks nobody. Joining any
   other makes no member and grants nothing: it leaves a waiting request, and the admin is told.
   */
  lemma JoinGroupLaw(db: Db, group: int, user: int)
    requires Inv(db)
    ensures JoinGroup(db, group, user).Commit? <==> MayJoin(db, group, user)
    ensures JoinGroup(db, group, user).Commit? && db.table[GroupE(group)].joinPolicy == OpenJoin ==>
      var o, row := JoinGroup(db, group, user), UserRole(user, Member, Some(group), None);
      && o.db.members == db.members + {(user, group)} && o.db.assignees == db.assignees && SameRequests(db, o.db) && SameTables(db, o.db)
      && (exists id :: id in o.db.roles && o.db.roles[id] == row)
      && (forall x, y | x in o.db.roles && y in o.db.roles && o.db.roles[x] == o.db.roles[y] == row :: x == y)
      && (forall id | id in db.roles :: id in o.db.roles && o.db.roles[id] == db.roles[id])
      && (forall id | id in o.db.roles && id !in db.roles :: o.db.roles[id] == row)
      && o.notices == [GroupJoin(user, db.table[GroupE(group)].adminId, group)]
    ensures JoinGroup(db, group, user).Commit? && db.table[GroupE(group)].joinPolicy != OpenJoin ==>
      var o := JoinGroup(db, group, user);
      && SameLinks(db, o.db) && SameRoles(db, o.db) && SameTables(db, o.db) && Asks(db, o.db, user, group, None)
      && o.notices == [RequestCreated(user, db.table[GroupE(group)].adminId, group)]
  {
    GrantKeeps(db, user, Member, group);
    R.GrantedOnce(db, user, group);
  }

  /** When the request is approved, and who is told; what is stored is `ApproveAllOrNothing`. */
  lemma ApproveJoinRequestLaw(db: Db, caller: int, group: int, request: int, listed: int)
    ensures ApproveJoinRequest(db, caller, group, request, listed).Commit? <==>
      && request in db.requests && db.requests[request].group == group && db.requests[request].status == Waiting
      && AdminOf(db, caller, group)
      && (db.requests[request].user, group) !in db.members && IsUser(db.table, db.requests[request].user)
      && (db.requests[request].task.Some? && ActiveTask(db.table, db.requests[request].task.value) ==>
            var task, user := db.requests[request].task.value, db.requests[request].user;
            && HasAccess(db, caller, listed) && ActiveIn(db, task, listed) && (user, task) !in db.assignees)
    ensures ApproveJoinRequest(db, caller, group, request, listed).Commit? ==>
      var o, r := ApproveJoinRequest(db, caller, group, request, listed), db.requests[request];
      o.notices ==
        if r.task.None? || !ActiveTask(db.table, r.task.value) then [RequestApproved(caller, r.user, group)]
        else
          var home := db.table[TaskE(r.task.value)].groupId;
          [TaskInvite(caller, r.user, r.task.value)]
          + (if home == group || (r.user, home) in db.members then [] else [GroupJoin(r.user, r.user, home)])
          + [RequestApproved(caller, r.user, group)]
  {
  }

  lemma RejectionLaw(db: Db, tx: Tx, a: Answers)
    requires tx.TRejectJoinRequest? || tx.TRejectTaskRequest?
    ensures var o := Execute(db, tx, a);
      && (o.Commit? <==>
            && tx.request in db.requests
            && var r := db.requests[tx.request];
               if tx.TRejectJoinRequest? then AdminOf(db, tx.caller, r.group)
               else r.task == Some(tx.task) && ActiveTask(db.table, tx.task) && AdminOf(db, tx.caller, db.table[TaskE(tx.task)].groupId))
      && (o.Commit? ==>
            var r := db.requests[tx.request];
            && o.db.requests == db.requests[tx.request := JoinRequest(r.user, r.group, r.task, Rejected)]
            && SameTables(db, o.db) && SameLinks(db, o.db) && SameRoles(db, o.db)
            && o.notices == [RequestRejected(tx.caller, r.user,
                             if tx.TRejectJoinRequest? then r.group else db.table[TaskE(tx.task)].groupId)])
  {
  }

  // ---- tasks ------------------------------------------------------------------------------------------

  lemma CreateTaskCommits(db: Db, user: int, group: int, title: string, details: string)
    requires Inv(db)
    ensures CreateTask(db, user, group, title, details).Commit? <==>
      && HasAccess(db, user, group) && IsUser(db.table, user) && (user, db.next.task) !in db.assignees
      && (forall e | e in db.table && db.table[e].TaskRow? && db.table[e].active && db.table[e].groupId == group :: db.table[e].title != title)
  {
    assert forall e | e in db.table :: Issued(db.next, e) && RowFits(e.kind, db.table[e]);
    assert TaskE(db.next.task) !in db.table;
  }

  lemma CreateTaskLaw(db: Db, user: int, group: int, title: string, details: string)
    requires Inv(db)
    ensures CreateTask(db, user, group, title, details).Commit? ==>
      var o, t := CreateTask(db, user, group, title, details), db.next.task;
      && Stores(db, o.db, Created, TaskE(t), TaskRow(title, Todo, group, details, true))
      && o.db.members == db.members + {(user, group)} && o.db.assignees == db.assignees + {(user, t)} && SameRequests(db, o.db)
      && (forall id | id in db.roles :: id in o.db.roles && o.db.roles[id] == db.roles[id])
      && (exists id :: id in o.db.roles && o.db.roles[id] == UserRole(user, Assignee, Some(group), Some(t)))
      && (exists id :: id in o.db.roles && o.db.roles[id] == UserRole(user, Member, Some(group), None))
      && (forall id | id in o.db.roles && id !in db.roles ::
            o.db.roles[id] == UserRole(user, Assignee, Some(group), Some(t)) || o.db.roles[id] == UserRole(user, Member, Some(group), None))
      && o.notices == []
  {
    if CreateTask(db, user, group, title, details).Commit? {
      var d := AddRole(db, UserRole(user, Assignee, Some(group), Some(db.next.task)));
      MemberRolesAfterAssignee(db, d, user, group);
      R.GrantedOnce(d, user, group);
      GrantKeeps(d, user, Member, group);
      var roles := CreateTask(db, user, group, title, details).db.roles;
      assert roles == Grant(d, user, Member, group).roles;
      assert d.roles[db.next.role] == UserRole(user, Assignee, Some(group), Some(db.next.task));
      assert db.next.role in roles && roles[db.next.role] == d.roles[db.next.role];
    }
  }

  lemma MemberRolesAfterAssignee(db: Db, d: Db, user: int, group: int)
    requires RoleIds(db) && MemberRoles(db.roles) && d == AddRole(db, UserRole(user, Assignee, Some(group), Some(db.next.task)))
    ensures RoleIds(d) && MemberRoles(d.roles)
  {
  }

  lemma UpdateTaskLaw(db: Db, user: int, task: int, c: TaskChange, listed: int)
    ensures var o := UpdateTask(db, user, task, c, listed);
      && (o.Commit? <==> HasAccess(db, user, listed) && ActiveIn(db, task, listed))
      && (o.Commit? ==>
            var row, row' := db.table[TaskE(task)], o.db.table[TaskE(task)];
            && Stores(db, o.db, Updated, TaskE(task), row') && row'.TaskRow?
            && row'.title == (if c.title.Some? then c.title.value else row.title)
            && row'.status == (if c.status.Some? then c.status.value else row.status)
            && row'.details == (if c.details.Some? then c.details.value else row.details)
            && row'.active == (if c.active.Some? then c.active.value else row.active)
            && row'.groupId == row.groupId
            && SameLinks(db, o.db) && SameRoles(db, o.db) && SameRequests(db, o.db) && o.notices == [])
  {
  }

  lemma DeleteTaskLaw(db: Db, user: int, task: int, listed: int)
    ensures var o := DeleteTask(db, user, task, listed);
      && (o.Commit? <==> HasAccess(db, user, listed) && ActiveIn(db, task, listed))
      && (o.Commit? ==>
            var row := db.table[TaskE(task)];
            && Stores(db, o.db, Deleted, TaskE(task), TaskRow(row.title, row.status, row.groupId, row.details, false))
            && SameLinks(db, o.db) && SameRoles(db, o.db) && SameRequests(db, o.db) && o.notices == [])
  {
  }

  lemma UpdateTaskStatusLaw(db: Db, task: int, status: TaskStatus)
    ensures var o := UpdateTaskStatus(db, task, status);
      && (o.Commit? <==> ActiveTask(db.table, task) && db.table[TaskE(task)].status != status)
      && (o.Commit? ==>
            var row := db.table[TaskE(task)];
            && Stores(db, o.db, Updated, TaskE(task), TaskRow(row.title, status, row.groupId, row.details, true))
            && SameLinks(db, o.db) && SameRoles(db, o.db) && SameRequests(db, o.db) && o.notices == [])
  {
  }

  /** Joining a task of an open group assigns it; of any other it leaves a waiting request for the task. */
  lemma JoinTaskLaw(db: Db, task: int, user: int)
    requires Inv(db)
    ensures JoinTask(db, task, user).Commit? <==>
      && (user, task) !in db.assignees && ActiveTask(db.table, task) && IsUser(db.table, user)
      && ActiveGroup(db.table, db.table[TaskE(task)].groupId)
      && (forall id | id in db.requests && db.requests[id].user == user && db.requests[id].task == Some(task) ::
            && db.requests[id].status != Waiting
            && (db.table[GroupE(db.table[TaskE(task)].groupId)].joinPolicy != OpenJoin ==> db.requests[id].group != db.table[TaskE(task)].groupId))
    ensures JoinTask(db, task, user).Commit? ==>
      var o, group := JoinTask(db, task, user), db.table[TaskE(task)].groupId;
      var row := db.table[GroupE(group)];
      && SameTables(db, o.db) && SameRoles(db, o.db) && o.db.members == db.members
      && if row.joinPolicy == OpenJoin then
           o.db.assignees == db.assignees + {(user, task)} && SameRequests(db, o.db) && o.notices == []
         else
           o.db.assignees == db.assignees && Asks(db, o.db, user, group, Some(task)) && o.notices == [RequestCreated(user, row.adminId, group)]
  {
  }

  /** Approving makes the user an assignee and a member, whether or not a member before, and tells of what is new. */
  lemma ApproveTaskRequestLaw(db: Db, caller: int, request: int)
    ensures ApproveTaskRequest(db, caller, request).Commit? <==>
      && request in db.requests && db.requests[request].status == Waiting
      && db.requests[request].task.Some? && ActiveTask(db.table, db.requests[request].task.value)
      && ActiveGroup(db.table, db.table[TaskE(db.requests[request].task.value)].groupId)
      && (db.requests[request].user, db.requests[request].task.value) !in db.assignees && IsUser(db.table, db.requests[request].user)
    ensures ApproveTaskRequest(db, caller, request).Commit? ==>
      var o, r := ApproveTaskRequest(db, caller, request), db.requests[request];
      var group := db.table[TaskE(r.task.value)].groupId;
      && o.db.requests == db.requests[request := JoinRequest(r.user, r.group, r.task, Approved)]
      && o.db.assignees == db.assignees + {(r.user, r.task.value)} && o.db.members == db.members + {(r.user, group)}
      && SameTables(db, o.db) && SameRoles(db, o.db)
      && o.notices == (if (r.user, group) in db.members then [] else [GroupJoin(caller, r.user, group)]) + [RequestApproved(caller, r.user, group)]
  {
  }

  lemma AddUserToTaskLaw(db: Db, caller: int, task: int, user: int, listed: int)
    ensures var o := AddUserToTask(db, caller, task, user, listed);
      && (o.Commit? <==> HasAccess(db, caller, listed) && ActiveIn(db, task, listed) && (user, task) !in db.assignees && IsUser(db.table, user))
      && (o.Commit? ==>
            && o.db.assignees == db.assignees + {(user, task)} && o.db.members == db.members
            && SameTables(db, o.db) && SameRoles(db, o.db) && SameRequests(db, o.db) && o.notices == [TaskInvite(caller, user, task)])
  {
  }

  // ---- comments and users -------------------------------------------------------------------------------

  /** The stored comment has the author, task, text and parent asked for; a parent is a comment of the same task. */
  lemma CreateCommentLaw(db: Db, user: int, task: int, content: string, parent: Option<int>)
    ensures var o := CreateComment(db, user, task, content, parent);
      && (o.Commit? <==>
            && ActiveTask(db.table, task) && IsUser(db.table, user)
            && (parent.Some? ==> IsComment(db.table, parent.value) && db.table[CommentE(parent.value)].taskId == task))
      && (o.Commit? ==>
            && Stores(db, o.db, Created, CommentE(db.next.comment), CommentRow(task, user, content, parent))
            && SameLinks(db, o.db) && SameRoles(db, o.db) && SameRequests(db, o.db) && o.notices == [])
  {
  }

  lemma UpdateCommentLaw(db: Db, user: int, comment: int, content: string)
    ensures var o := UpdateComment(db, user, comment, content);
      && (o.Commit? <==> IsComment(db.table, comment) && db.table[CommentE(comment)].userId == user)
      && (o.Commit? ==>
            var row := db.table[CommentE(comment)];
            && Stores(db, o.db, Updated, CommentE(comment), CommentRow(row.taskId, user, content, row.parent))
            && SameLinks(db, o.db) && SameRoles(db, o.db) && SameRequests(db, o.db) && o.notices == [])
  {
  }

  lemma DeleteCommentLaw(db: Db, user: int, comment: int)
    requires Inv(db)
    ensures var o := DeleteComment(db, user, comment);
      && (o.Commit? <==>
            && IsComment(db.table, comment) && db.table[CommentE(comment)].userId == user
            && forall e | e in db.table && db.table[e].CommentRow? :: db.table[e].parent != Some(comment))
      && (o.Commit? ==>
            && o.db.table == db.table - {CommentE(comment)} && o.db.outbox == db.outbox + [Entry(Deleted, CommentE(comment))]
            && SameLinks(db, o.db) && SameRoles(db, o.db) && SameRequests(db, o.db) && o.notices == [])
  {
    assert forall e | e in db.table :: RowFits(e.kind, db.table[e]);
  }

  lemma RegisterLaw(db: Db, username: string, email: string, details: string)
    requires Inv(db)
    ensures var o := Register(db, username, email, details);
      && (o.Commit? <==> forall e | e in db.table && db.table[e].UserRow? :: db.table[e].username != username && db.table[e].email != email)
      && (o.Commit? ==>
            && Stores(db, o.db, Created, UserE(db.next.user), UserRow(username, email, details, true))
            && SameLinks(db, o.db) && SameRoles(db, o.db) && SameRequests(db, o.db) && o.notices == [])
  {
    assert forall e | e in db.table :: Issued(db.next, e) && RowFits(e.kind, db.table[e]);
  }

  /** The columns given replace the old ones, unless another user, or the same active one, has the value. */
  lemma UpdateProfileLaw(db: Db, user: int, c: UserChange)
    ensures UpdateProfile(db, user, c).Commit? ==>
      var o := UpdateProfile(db, user, c);
      && ActiveUser(db.table, user)
      && var row, row' := db.table[UserE(user)], o.db.table[UserE(user)];
         && Stores(db, o.db, Updated, UserE(user), row') && row'.UserRow?
         && row'.username == (if c.username.Some? then c.username.value else row.username)
         && row'.email == (if c.email.Some? then c.email.value else row.email)
         && row'.details == (if c.details.Some? then c.details.value else row.details)
         && row'.active
         && SameLinks(db, o.db) && SameRoles(db, o.db) && SameRequests(db, o.db) && o.notices == []
  {
  }

  lemma UpdateProfileCommits(db: Db, user: int, c: UserChange)
    requires Inv(db)
    ensures UpdateProfile(db, user, c).Commit? <==>
      && ActiveUser(db.table, user)
      && (c.email.Some? ==> forall e | e in db.table && db.table[e].UserRow? && db.table[e].email == c.email.value ::
            e == UserE(user) && c.email.value == "")
      && (c.username.Some? ==> forall e | e in db.table && db.table[e].UserRow? && db.table[e].username == c.username.value ::
            e == UserE(user) && c.username.value == "")
  {
    assert forall e | e in db.table :: Issued(db.next, e) && RowFits(e.kind, db.table[e]);
    if c.email.Some? && UserMailed(db.table, c.email.value, user, false) {
      var e :| e in db.table && e.kind.UserKind? && e.id != user && db.table[e].UserRow? && db.table[e].email == c.email.value;
      assert e != UserE(user);
    }
    if c.username.Some? && UserNamed(db.table, c.username.value, user, false) {
      var e :| e in db.table && e.kind.UserKind? && e.id != user && db.table[e].UserRow? && db.table[e].username == c.username.value;
      assert e != UserE(user);
    }
  }

  lemma DeleteProfileLaw(db: Db, user: int)
    ensures var o := DeleteProfile(db, user);
      && (o.Commit? <==> ActiveUser(db.table, user))
      && (o.Commit? ==>
            var row := db.table[UserE(user)];
            && Stores(db, o.db, Deleted, UserE(user), UserRow(row.username, row.email, row.details, false))
            && SameLinks(db, o.db) && SameRoles(db, o.db) && SameRequests(db, o.db) && o.notices == [])
  {
  }

  // ---- who becomes a member ------------------------------------------------------------------------------

  /** A committed transaction makes `user` a member of `group`, by an approval, the admin, or what the user does. */
  predicate Brings(db: Db, tx: Tx, user: int, group: int) {
    match tx
    case TCreateGroup(u, _, _, _, _) => u == user && group == db.next.group
    case TAddMember(_, g, u) => u == user && g == group
    case TApproveJoinRequest(_, g, request, _) =>
      && request in db.requests && db.requests[request].user == user
      && (g == group || (db.requests[request].task.Some? && ActiveIn(db, db.requests[request].task.value, group)))
    case TJoinGroup(g, u) => u == user && g == group && GroupE(g) in db.table && db.table[GroupE(g)].GroupRow? && db.table[GroupE(g)].joinPolicy == OpenJoin
    case TCreateTask(u, g, _, _) => u == user && g == group
    case TApproveTaskRequest(_, request) =>
      request in db.requests && db.requests[request].user == user && db.requests[request].task.Some? && ActiveIn(db, db.requests[request].task.value, group)
    case _ => false
  }

  predicate Takes(tx: Tx, user: int, group: int) {
    (tx.TExitGroup? || tx.TRemoveMember?) && tx.user == user && tx.group == group
  }

  predicate ChangesMembers(tx: Tx) {
    tx.TCreateGroup? || tx.TAddMember? || tx.TRemoveMember? || tx.TExitGroup? || tx.TApproveJoinRequest? || tx.TJoinGroup?
    || tx.TCreateTask? || tx.TApproveTaskRequest?
  }

  lemma OthersKeepMembers(db: Db, tx: Tx, a: Answers)
    requires !ChangesMembers(tx) && Execute(db, tx, a).Commit?
    ensures Execute(db, tx, a).db.members == db.members
  {
  }

  lemma JoiningLaw(db: Db, tx: Tx, a: Answers, user: int, group: int)
    requires Inv(db) && Execute(db, tx, a).Commit? && (tx.TJoinGroup? || tx.TApproveJoinRequest? || tx.TAddMember? || tx.TCreateGroup?)
    ensures (user, group) in Execute(db, tx, a).db.members <==> (user, group) in db.members || Brings(db, tx, user, group)
  {
    match tx
    case TCreateGroup(u, name, policy, parent, details) => CreateGroupLaw(db, u, name, policy, parent, details);
    case TAddMember(caller, g, u) => AddMemberLaw(db, caller, g, u);
    case TApproveJoinRequest(caller, g, request, listed) =>
      R.ApprovalAdds(db, caller, g, request, listed);
      ApprovalEffect(db, caller, g, request, listed);
    case TJoinGroup(g, u) => JoinGroupLaw(db, g, u);
  }

  lemma LeavingLaw(db: Db, tx: Tx, a: Answers, user: int, group: int)
    requires Execute(db, tx, a).Commit? && (tx.TExitGroup? || tx.TRemoveMember?)
    ensures (user, group) in Execute(db, tx, a).db.members <==> (user, group) in db.members && !Takes(tx, user, group)
  {
    LeaveLaw(db, tx.group, tx.user, a);
  }

  /** Over all transactions: exactly who is a member afterwards. */
  lemma MembershipLaw(db: Db, tx: Tx, a: Answers, user: int, group: int)
    requires Inv(db) && Execute(db, tx, a).Commit?
    ensures (user, group) in Execute(db, tx, a).db.members <==>
      ((user, group) in db.members && !Takes(tx, user, group)) || Brings(db, tx, user, group)
  {
    if tx.TExitGroup? || tx.TRemoveMember? {
      LeavingLaw(db, tx, a, user, group);
    } else if tx.TCreateTask? {
      CreateTaskLaw(db, tx.user, tx.group, tx.title, tx.details);
    } else if tx.TApproveTaskRequest? {
      ApproveTaskRequestLaw(db, tx.caller, tx.request);
    } else if ChangesMembers(tx) {
      JoiningLaw(db, tx, a, user, group);
    } else {
      OthersKeepMembers(db, tx, a);
    }
  }

  /**
   Into a group that asks for requests nobody comes by joining: only by an approval, the admin's doing,
   creating the group, or creating a task in it.
   */
  lemma ClosedGroupLaw(db: Db, tx: Tx, a: Answers, user: int, group: int)
    requires Inv(db) && GroupE(group) in db.table && db.table[GroupE(group)].GroupRow? && db.table[GroupE(group)].joinPolicy == RequestJoin
    requires (user, group) !in db.members && (user, group) in After(db, Execute(db, tx, a)).members
    ensures tx.TApproveJoinRequest? || tx.TApproveTaskRequest? || tx.TAddMember? || tx.TCreateTask?
  {
    MembershipLaw(db, tx, a, user, group);
    assert Issued(db.next, GroupE(group));
  }

  // ---- who is assigned -------------------------------------------------------------------------------------

  predicate Assigns(db: Db, tx: Tx, user: int, task: int) {
    match tx
    case TCreateTask(u, _, _, _) => u == user && task == db.next.task
    case TJoinTask(t, u) =>
      u == user && t == task && ActiveTask(db.table, t) && ActiveGroup(db.table, db.table[TaskE(t)].groupId)
      && db.table[GroupE(db.table[TaskE(t)].groupId)].joinPolicy == OpenJoin
    case TApproveTaskRequest(_, request) =>
      request in db.requests && db.requests[request].user == user && db.requests[request].task == Some(task)
    case TApproveJoinRequest(_, _, request, _) =>
      request in db.requests && db.requests[request].user == user && db.requests[request].task == Some(task) && ActiveTask(db.table, task)
    case TAddUserToTask(_, t, u, _) => u == user && t == task
    case _ => false
  }

  predicate ChangesAssignees(tx: Tx) {
    tx.TCreateTask? || tx.TJoinTask? || tx.TApproveTaskRequest? || tx.TApproveJoinRequest? || tx.TAddUserToTask?
  }

  lemma OthersKeepAssignees(db: Db, tx: Tx, a: Answers)
    requires !ChangesAssignees(tx) && Execute(db, tx, a).Commit?
    ensures Execute(db, tx, a).db.assignees == db.assignees
  {
  }

  lemma OnOpenTask(db: Db, task: int, user: int, u: int, t: int)
    requires Inv(db) && JoinTask(db, task, user).Commit?
    ensures (u, t) in JoinTask(db, task, user).db.assignees <==> (u, t) in db.assignees || Assigns(db, TJoinTask(task, user), u, t)
  {
    JoinTaskLaw(db, task, user);
  }

  lemma ApprovalAssigns(db: Db, tx: Tx, a: Answers, user: int, task: int)
    requires Execute(db, tx, a).Commit? && (tx.TApproveTaskRequest? || tx.TApproveJoinRequest?)
    ensures (user, task) in Execute(db, tx, a).db.assignees <==> (user, task) in db.assignees || Assigns(db, tx, user, task)
  {
    match tx
    case TApproveTaskRequest(caller, request) => ApproveTaskRequestLaw(db, caller, request);
    case TApproveJoinRequest(caller, g, request, listed) => R.ApprovalAdds(db, caller, g, request, listed);
  }

  /** Over all transactions: nobody is taken off a task, and exactly who comes to it. */
  lemma AssignmentLaw(db: Db, tx: Tx, a: Answers, user: int, task: int)
    requires Inv(db) && Execute(db, tx, a).Commit?
    ensures (user, task) in Execute(db, tx, a).db.assignees <==> (user, task) in db.assignees || Assigns(db, tx, user, task)
  {
    if tx.TCreateTask? {
      CreateTaskLaw(db, tx.user, tx.group, tx.title, tx.details);
    } else if tx.TJoinTask? {
      OnOpenTask(db, tx.task, tx.user, user, task);
    } else if tx.TAddUserToTask? {
      AddUserToTaskLaw(db, tx.caller, tx.task, tx.user, tx.listed);
    } else if tx.TApproveTaskRequest? || tx.TApproveJoinRequest? {
      ApprovalAssigns(db, tx, a, user, task);
    } else {
      OthersKeepAssignees(db, tx, a);
    }
  }
}
