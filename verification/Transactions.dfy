/** Every transaction as a function of the database: what it commits and announces, or the error it raises. */
module Transactions {
  import opened Schema
  import opened Store

  datatype Outcome = Commit(db: Db, notices: seq<Notice>) | Raise(error: Error)

  datatype GroupChange = GroupChange(name: Option<string>, joinPolicy: Option<JoinPolicy>, details: Option<string>)
  datatype TaskChange = TaskChange(title: Option<string>, status: Option<TaskStatus>, details: Option<string>, active: Option<bool>)
  datatype UserChange = UserChange(username: Option<string>, email: Option<string>, details: Option<string>)

  /** The rows the role queries of a transaction return first, in the order they are asked. */
  datatype Answers = Answers(first: int, second: int)

  function Get<T>(o: Option<T>, default: T): T { if o.Some? then o.value else default }

  // ---- groups -------------------------------------------------------------------------------

  function CreateGroup(db: Db, user: int, name: string, policy: JoinPolicy, parent: Option<int>, details: string): Outcome {
    if OwnActiveGroupNamed(db.table, name, user) then Raise(GroupNameConflict)
    else if !CanAddGroup(db, name, user, parent) then Raise(IntegrityError)
    else
      var g := db.next.group;
      var d1 := Announce(db, Created, GroupE(g), GroupRow(name, user, policy, parent, details, true));
      var d2 := d1.(members := d1.members + {(user, g)}, next := d1.next.(group := g + 1));
      Commit(Grant(d2, user, GroupAdmin, g), [])
  }

  function ChangedGroup(row: Row, c: GroupChange): Row
    requires row.GroupRow?
  {
    row.(name := Get(c.name, row.name), joinPolicy := Get(c.joinPolicy, row.joinPolicy), details := Get(c.details, row.details))
  }

  function UpdateGroup(db: Db, user: int, group: int, c: GroupChange): Outcome {
    if !MyGroup(db.table, user, group) then Raise(ForbiddenGroupAccess)
    else if c.name.Some? && c.name.value != "" && ActiveGroupNamed(db.table, c.name.value, group) then Raise(GroupNameConflict)
    else if c.name.Some? && GroupNamed(db.table, c.name.value, group) then Raise(IntegrityError)
    else Commit(Announce(db, Updated, GroupE(group), ChangedGroup(db.table[GroupE(group)], c)), [])
  }

  /** `a.first` answers the query for the group's admin row, `a.second` the one in the cleanup. */
  function DeleteGroup(db: Db, user: int, group: int, a: Answers): Outcome {
    if !MyGroup(db.table, user, group) then Raise(ForbiddenGroupAccess)
    else if !HasRole(db.roles, user, GroupAdmin, group) then Raise(GroupNotFound)
    else Commit(Cleanup(WithoutGroup(db, group, a), user, GroupAdmin, a.second), [])
  }

  function WithoutGroup(db: Db, group: int, a: Answers): Db
    requires ActiveGroup(db.table, group)
  {
    Announce(db, Deleted, GroupE(group), Deactivated(db.table[GroupE(group)])).(roles := db.roles - {a.first})
  }

  function AddMember(db: Db, caller: int, group: int, user: int): Outcome {
    if !MyGroup(db.table, caller, group) then Raise(ForbiddenGroupAccess)
    else if (user, group) in db.members then Raise(MemberAlreadyExists)
    else if !CanAddMember(db, user, group) then Raise(IntegrityError)
    else Commit(db.(members := db.members + {(user, group)}), [GroupInvite(caller, user, group)])
  }

  function RemoveMember(db: Db, caller: int, group: int, user: int, a: Answers): Outcome {
    if !MyGroup(db.table, caller, group) then Raise(ForbiddenGroupAccess)
    else ExitGroup(db, group, user, a)
  }

  function ExitGroup(db: Db, group: int, user: int, a: Answers): Outcome {
    if (user, group) !in db.members then Raise(MemberNotFound)
    else Commit(Cleanup(db.(members := db.members - {(user, group)}), user, Member, a.first), [])
  }

  function CreateJoinRequest(db: Db, group: int, user: int): Outcome {
    if HasRequest(db, user, group) then Raise(JoinRequestAlreadyExists)
    else if !CanAddRequest(db, JoinRequest(user, group, None, Waiting)) then Raise(IntegrityError)
    else Commit(AddRequest(db, JoinRequest(user, group, None, Waiting)), [])
  }

  /** `listed` is the group the task service's access query lists first, if the request names a task. */
  function ApproveJoinRequest(db: Db, caller: int, group: int, request: int, listed: int): Outcome {
    if request !in db.requests || db.requests[request].group != group then Raise(JoinRequestNotFound)
    else if !ActiveGroup(db.table, group) then Raise(GroupNotFound)
    else if db.table[GroupE(group)].adminId != caller then Raise(MemberNotAdmin)
    else if db.requests[request].status != Waiting then Raise(JoinRequestAlreadyHandled)
    else
      var user := db.requests[request].user;
      var d1 := SetStatus(db, request, Approved);
      if !CanAddMember(d1, user, group) then Raise(IntegrityError)
      else
        var d2 := Grant(d1.(members := d1.members + {(user, group)}), user, Member, group);
        var task := db.requests[request].task;
        if task.None? || !ActiveTask(db.table, task.value) then Commit(d2, [RequestApproved(caller, user, group)])
        else AfterApproval(db, d2, caller, user, group, task.value, listed)
  }

  /**
   An approved request that names an active task: membership of the task's group, then the assignment,
   which runs in a unit of work of its own and so sees `db`, the committed state.
   */
  function AfterApproval(db: Db, d: Db, caller: int, user: int, group: int, task: int, listed: int): Outcome
    requires ActiveTask(db.table, task)
  {
    var home := db.table[TaskE(task)].groupId;
    if (user, home) !in d.members && !CanAddMember(d, user, home) then Raise(IntegrityError)
    else
      match AddUserToTask(db, caller, task, user, listed)
      case Raise(e) => Raise(e)
      case Commit(inner, invites) =>
        var joined := if (user, home) in d.members || !ActiveGroup(d.table, home) then [] else [GroupJoin(user, user, home)];
        Commit(d.(members := d.members + {(user, home)}, assignees := inner.assignees),
               invites + joined + [RequestApproved(caller, user, group)])
  }

  function RejectJoinRequest(db: Db, caller: int, request: int): Outcome {
    if request !in db.requests then Raise(JoinRequestNotFound)
    else
      var group := db.requests[request].group;
      if !ActiveGroup(db.table, group) then Raise(GroupNotFound)
      else if db.table[GroupE(group)].adminId != caller then Raise(MemberNotAdmin)
      else Commit(SetStatus(db, request, Rejected), [RequestRejected(caller, db.requests[request].user, group)])
  }

  function JoinGroup(db: Db, group: int, user: int): Outcome {
    if (user, group) in db.members then Raise(MemberAlreadyExists)
    else if !ActiveGroup(db.table, group) then Raise(GroupNotFound)
    else if HasPending(db, user, group) then Raise(JoinRequestAlreadyExists)
    else if !IsUser(db.table, user) then Raise(IntegrityError)
    else
      var admin := db.table[GroupE(group)].adminId;
      if db.table[GroupE(group)].joinPolicy == OpenJoin then
        Commit(Grant(db.(members := db.members + {(user, group)}), user, Member, group), [GroupJoin(user, admin, group)])
      else
        Commit(AddRequest(db, JoinRequest(user, group, None, Waiting)), [RequestCreated(user, admin, group)])
  }

  // ---- tasks --------------------------------------------------------------------------------

  function CreateTask(db: Db, user: int, group: int, title: string, details: string): Outcome {
    if !AccessGroup(db, user, group) then Raise(ForbiddenGroupAccess)
    else if TitleTaken(db.table, group, title) then Raise(TaskTitleConflict)
    else if !IsUser(db.table, user) then Raise(IntegrityError)
    else
      var t := db.next.task;
      var d1 := db.(table := db.table[TaskE(t) := TaskRow(title, Todo, group, details, true)], next := db.next.(task := t + 1));
      var d2 := AddRole(d1, UserRole(user, Assignee, Some(group), Some(t)));
      if !CanAddAssignee(d2, user, t) then Raise(IntegrityError)
      else
        var d3 := d2.(assignees := d2.assignees + {(user, t)}, outbox := d2.outbox + [Entry(Created, TaskE(t))]);
        var d4 := d3.(members := d3.members + {(user, group)});
        Commit(Grant(d4, user, Member, group), [])
  }

  function ChangedTask(row: Row, c: TaskChange): Row
    requires row.TaskRow?
  {
    row.(title := Get(c.title, row.title), status := Get(c.status, row.status),
         details := Get(c.details, row.details), active := Get(c.active, row.active))
  }

  function UpdateTask(db: Db, user: int, task: int, c: TaskChange, first: int): Outcome {
    if !TaskAccess(db, user, task, first) then Raise(ForbiddenTaskAccess)
    else Commit(Announce(db, Updated, TaskE(task), ChangedTask(db.table[TaskE(task)], c)), [])
  }

  function DeleteTask(db: Db, user: int, task: int, first: int): Outcome {
    if !TaskAccess(db, user, task, first) then Raise(ForbiddenTaskAccess)
    else Commit(Announce(db, Deleted, TaskE(task), Deactivated(db.table[TaskE(task)])), [])
  }

  function UpdateTaskStatus(db: Db, task: int, status: TaskStatus): Outcome {
    if !ActiveTask(db.table, task) then Raise(TaskNotFound)
    else if db.table[TaskE(task)].status == status then Raise(TaskStatusAlreadySet)
    else Commit(Announce(db, Updated, TaskE(task), db.table[TaskE(task)].(status := status)), [])
  }

  function JoinTask(db: Db, task: int, user: int): Outcome {
    if (user, task) in db.assignees then Raise(UserAlreadyInTask)
    else if !ActiveTask(db.table, task) then Raise(TaskNotFound)
    else
      var group := db.table[TaskE(task)].groupId;
      if !ActiveGroup(db.table, group) then Raise(TaskNotInGroup)
      else if HasPendingForTask(db, user, task) then Raise(JoinRequestAlreadyExists)
      else if db.table[GroupE(group)].joinPolicy == OpenJoin then
        if !CanAddAssignee(db, user, task) then Raise(IntegrityError)
        else Commit(db.(assignees := db.assignees + {(user, task)}), [])
      else if !CanAddRequest(db, JoinRequest(user, group, Some(task), Waiting)) then Raise(IntegrityError)
      else
        Commit(AddRequest(db, JoinRequest(user, group, Some(task), Waiting)),
               [RequestCreated(user, db.table[GroupE(group)].adminId, group)])
  }

  /** Without a task id the task query is unfiltered; whatever row it finds, the call ends in an error. */
  function ApproveTaskRequest(db: Db, caller: int, request: int): Outcome {
    if request !in db.requests then Raise(JoinRequestNotFound)
    else
      var r := db.requests[request];
      if r.task.None? then Raise(TaskAssigneeNotFound)
      else if !ActiveTask(db.table, r.task.value) then Raise(TaskNotFound)
      else
        var group := db.table[TaskE(r.task.value)].groupId;
        if !ActiveGroup(db.table, group) then Raise(GroupNotFound)
        else if r.status != Waiting then Raise(JoinRequestAlreadyHandled)
        else if !CanAddAssignee(db, r.user, r.task.value) then Raise(IntegrityError)
        else
          var joined := if (r.user, group) in db.members then [] else [GroupJoin(caller, r.user, group)];
          Commit(SetStatus(db, request, Approved).(members := db.members + {(r.user, group)},
                                                   assignees := db.assignees + {(r.user, r.task.value)}),
                 joined + [RequestApproved(caller, r.user, group)])
  }

  function RejectTaskRequest(db: Db, caller: int, task: int, request: int): Outcome {
    if request !in db.requests || db.requests[request].task != Some(task) then Raise(JoinRequestNotFound)
    else if !ActiveTask(db.table, task) then Raise(TaskNotFound)
    else
      var group := db.table[TaskE(task)].groupId;
      if !ActiveGroup(db.table, group) then Raise(GroupNotFound)
      else if db.table[GroupE(group)].adminId != caller then Raise(TaskAccessDenied)
      else Commit(SetStatus(db, request, Rejected), [RequestRejected(caller, db.requests[request].user, group)])
  }

  function AddUserToTask(db: Db, caller: int, task: int, user: int, first: int): Outcome {
    if !TaskAccess(db, caller, task, first) then Raise(ForbiddenTaskAccess)
    else if (user, task) in db.assignees then Raise(UserAlreadyInTask)
    else if !CanAddAssignee(db, user, task) then Raise(IntegrityError)
    else Commit(db.(assignees := db.assignees + {(user, task)}), [TaskInvite(caller, user, task)])
  }

  // ---- comments -----------------------------------------------------------------------------

  function CreateComment(db: Db, user: int, task: int, content: string, parent: Option<int>): Outcome {
    if !ActiveTask(db.table, task) then Raise(TaskNotFound)
    else if parent.Some? && (!IsComment(db.table, parent.value) || db.table[CommentE(parent.value)].taskId != task) then Raise(NotFoundParent)
    else if !IsUser(db.table, user) then Raise(IntegrityError)
    else
      var c := db.next.comment;
      var d1 := Announce(db, Created, CommentE(c), CommentRow(task, user, content, parent));
      Commit(d1.(next := d1.next.(comment := c + 1)), [])
  }

  function UpdateComment(db: Db, user: int, comment: int, content: string): Outcome {
    if !IsComment(db.table, comment) then Raise(CommentNotFound)
    else if db.table[CommentE(comment)].userId != user then Raise(CommentForbidden)
    else Commit(Announce(db, Updated, CommentE(comment), db.table[CommentE(comment)].(content := content)), [])
  }

  function DeleteComment(db: Db, user: int, comment: int): Outcome {
    if !IsComment(db.table, comment) then Raise(CommentNotFound)
    else if db.table[CommentE(comment)].userId != user then Raise(CommentForbidden)
    else if HasReply(db.table, comment) then Raise(IntegrityError)
    else Commit(db.(table := db.table - {CommentE(comment)}, outbox := db.outbox + [Entry(Deleted, CommentE(comment))]), [])
  }

  // ---- users --------------------------------------------------------------------------------

  function Register(db: Db, username: string, email: string, details: string): Outcome {
    if UserNamed(db.table, username, -1, false) || UserMailed(db.table, email, -1, false) then Raise(UserAlreadyExists)
    else
      var u := db.next.user;
      var d1 := Announce(db, Created, UserE(u), UserRow(username, email, details, true));
      Commit(d1.(next := d1.next.(user := u + 1)), [])
  }

  function ChangedUser(row: Row, c: UserChange): Row
    requires row.UserRow?
  {
    row.(username := Get(c.username, row.username), email := Get(c.email, row.email), details := Get(c.details, row.details))
  }

  /** The two queries for a conflict do not leave the user out, although they are asked to. */
  function UpdateProfile(db: Db, user: int, c: UserChange): Outcome {
    if !ActiveUser(db.table, user) then Raise(UserNotFound)
    else if c.email.Some? && c.email.value != "" && UserMailed(db.table, c.email.value, -1, true) then Raise(UserEmailConflict)
    else if c.username.Some? && c.username.value != "" && UserNamed(db.table, c.username.value, -1, true) then Raise(UserUsernameConflict)
    else if c.email.Some? && UserMailed(db.table, c.email.value, user, false) then Raise(IntegrityError)
    else if c.username.Some? && UserNamed(db.table, c.username.value, user, false) then Raise(IntegrityError)
    else Commit(Announce(db, Updated, UserE(user), ChangedUser(db.table[UserE(user)], c)), [])
  }

  function DeleteProfile(db: Db, user: int): Outcome {
    if !ActiveUser(db.table, user) then Raise(UserNotFound)
    else Commit(Announce(db, Deleted, UserE(user), Deactivated(db.table[UserE(user)])), [])
  }

  // ---- one transaction ----------------------------------------------------------------------

  datatype Tx =
    | TCreateGroup(user: int, name: string, policy: JoinPolicy, parent: Option<int>, details: string)
    | TUpdateGroup(user: int, group: int, groupChange: GroupChange)
    | TDeleteGroup(user: int, group: int)
    | TAddMember(caller: int, group: int, user: int)
    | TRemoveMember(caller: int, group: int, user: int)
    | TExitGroup(group: int, user: int)
    | TCreateJoinRequest(group: int, user: int)
    | TApproveJoinRequest(caller: int, group: int, request: int, listed: int)
    | TRejectJoinRequest(caller: int, request: int)
    | TJoinGroup(group: int, user: int)
    | TCreateTask(user: int, group: int, title: string, details: string)
    | TUpdateTask(user: int, task: int, taskChange: TaskChange, listed: int)
    | TDeleteTask(user: int, task: int, listed: int)
    | TUpdateTaskStatus(task: int, status: TaskStatus)
    | TJoinTask(task: int, user: int)
    | TApproveTaskRequest(caller: int, request: int)
    | TRejectTaskRequest(caller: int, task: int, request: int)
    | TAddUserToTask(caller: int, task: int, user: int, listed: int)
    | TCreateComment(user: int, task: int, content: string, parent: Option<int>)
    | TUpdateComment(user: int, comment: int, content: string)
    | TDeleteComment(user: int, comment: int)
    | TRegister(username: string, email: string, details: string)
    | TUpdateProfile(user: int, userChange: UserChange)
    | TDeleteProfile(user: int)

  function Execute(db: Db, tx: Tx, a: Answers): Outcome {
    match tx
    case TCreateGroup(user, name, policy, parent, details) => CreateGroup(db, user, name, policy, parent, details)
    case TUpdateGroup(user, group, c) => UpdateGroup(db, user, group, c)
    case TDeleteGroup(user, group) => DeleteGroup(db, user, group, a)
    case TAddMember(caller, group, user) => AddMember(db, caller, group, user)
    case TRemoveMember(caller, group, user) => RemoveMember(db, caller, group, user, a)
    case TExitGroup(group, user) => ExitGroup(db, group, user, a)
    case TCreateJoinRequest(group, user) => CreateJoinRequest(db, group, user)
    case TApproveJoinRequest(caller, group, request, listed) => ApproveJoinRequest(db, caller, group, request, listed)
    case TRejectJoinRequest(caller, request) => RejectJoinRequest(db, caller, request)
    case TJoinGroup(group, user) => JoinGroup(db, group, user)
    case TCreateTask(user, group, title, details) => CreateTask(db, user, group, title, details)
    case TUpdateTask(user, task, c, first) => UpdateTask(db, user, task, c, first)
    case TDeleteTask(user, task, first) => DeleteTask(db, user, task, first)
    case TUpdateTaskStatus(task, status) => UpdateTaskStatus(db, task, status)
    case TJoinTask(task, user) => JoinTask(db, task, user)
    case TApproveTaskRequest(caller, request) => ApproveTaskRequest(db, caller, request)
    case TRejectTaskRequest(caller, task, request) => RejectTaskRequest(db, caller, task, request)
    case TAddUserToTask(caller, task, user, first) => AddUserToTask(db, caller, task, user, first)
    case TCreateComment(user, task, content, parent) => CreateComment(db, user, task, content, parent)
    case TUpdateComment(user, comment, content) => UpdateComment(db, user, comment, content)
    case TDeleteComment(user, comment) => DeleteComment(db, user, comment)
    case TRegister(username, email, details) => Register(db, username, email, details)
    case TUpdateProfile(user, c) => UpdateProfile(db, user, c)
    case TDeleteProfile(user) => DeleteProfile(db, user)
  }

  /** The answers are ones the database can give. */
  ghost predicate Possible(db: Db, tx: Tx, a: Answers) {
    match tx
    case TDeleteGroup(user, group) =>
      MyGroup(db.table, user, group) && HasRole(db.roles, user, GroupAdmin, group) ==>
        && HoldsRole(db.roles, user, GroupAdmin, a.first) && db.roles[a.first].group == Some(group)
        && RoleAnswer(WithoutGroup(db, group, a), user, GroupAdmin, a.second)
    case TRemoveMember(caller, group, user) => MyGroup(db.table, caller, group) && (user, group) in db.members ==> RoleAnswer(db, user, Member, a.first)
    case TExitGroup(group, user) => (user, group) in db.members ==> RoleAnswer(db, user, Member, a.first)
    case _ => true
  }

  function After(db: Db, o: Outcome): Db { if o.Commit? then o.db else db }

  function Notices(o: Outcome): seq<Notice> { if o.Commit? then o.notices else [] }
}
