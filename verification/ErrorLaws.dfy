/** What each error tells the caller about the database, over all transactions. */
module ErrorLaws {
  import opened Schema
  import opened Store
  import opened Transactions
  import opened TransactionInvariants
  import opened TransactionLaws

  // ---- what a call is about -----------------------------------------------------------------------------

  predicate NamesRequest(tx: Tx) { tx.TApproveJoinRequest? || tx.TRejectJoinRequest? || tx.TApproveTaskRequest? || tx.TRejectTaskRequest? }

  /** The task a call is about, by its own or its request's naming. */
  function TaskOf(db: Db, tx: Tx): Option<int> {
    if tx.TApproveTaskRequest? || tx.TApproveJoinRequest? then
      if tx.request in db.requests then db.requests[tx.request].task else None
    else if tx.TUpdateTask? || tx.TDeleteTask? || tx.TUpdateTaskStatus? || tx.TJoinTask? || tx.TRejectTaskRequest? || tx.TAddUserToTask? || tx.TCreateComment?
      then Some(tx.task)
    else None
  }

  function HomeOf(db: Db, tx: Tx): Option<int> {
    var task := TaskOf(db, tx);
    if task.Some? && ActiveTask(db.table, task.value) then Some(db.table[TaskE(task.value)].groupId) else None
  }

  /** The group whose admin, or whose being active, a call depends on. */
  function GroupOf(db: Db, tx: Tx): Option<int> {
    if tx.TApproveJoinRequest? || tx.TRejectJoinRequest? then
      if tx.request in db.requests then Some(db.requests[tx.request].group) else None
    else if tx.TJoinTask? || tx.TApproveTaskRequest? || tx.TRejectTaskRequest? then HomeOf(db, tx)
    else if tx.TUpdateGroup? || tx.TDeleteGroup? || tx.TAddMember? || tx.TRemoveMember? || tx.TJoinGroup? || tx.TCreateTask? then Some(tx.group)
    else None
  }

  function CallerOf(tx: Tx): int {
    match tx
    case TAddMember(caller, _, _) => caller
    case TRemoveMember(caller, _, _) => caller
    case TApproveJoinRequest(caller, _, _, _) => caller
    case TRejectJoinRequest(caller, _) => caller
    case TRejectTaskRequest(caller, _, _) => caller
    case TAddUserToTask(caller, _, _, _) => caller
    case TUpdateGroup(user, _, _) => user
    case TDeleteGroup(user, _) => user
    case TCreateTask(user, _, _, _) => user
    case TUpdateTask(user, _, _, _) => user
    case TDeleteTask(user, _, _) => user
    case TUpdateComment(user, _, _) => user
    case TDeleteComment(user, _) => user
    case _ => 0
  }

  /** The user a call would make a member or an assignee. */
  function SubjectOf(db: Db, tx: Tx): Option<int> {
    if tx.TApproveJoinRequest? || tx.TApproveTaskRequest? then
      if tx.request in db.requests then Some(db.requests[tx.request].user) else None
    else if tx.TAddMember? || tx.TRemoveMember? || tx.TExitGroup? || tx.TJoinGroup? || tx.TJoinTask? || tx.TAddUserToTask? then Some(tx.user)
    else None
  }

  // ---- what an error means ------------------------------------------------------------------------------

  ghost predicate RowWhere(t: Table, p: Row -> bool) { exists e :: e in t && p(t[e]) }

  ghost predicate RequestWhere(db: Db, p: JoinRequest -> bool) { exists id :: id in db.requests && p(db.requests[id]) }

  predicate NotAdmin(db: Db, tx: Tx) { GroupOf(db, tx).Some? && !AdminOf(db, CallerOf(tx), GroupOf(db, tx).value) }

  predicate AlreadyIn(pairs: set<(int, int)>, subject: Option<int>, target: Option<int>) {
    subject.Some? && target.Some? && (subject.value, target.value) in pairs
  }

  ghost predicate Conflict(db: Db, tx: Tx, e: Error) {
    match e
    case GroupNameConflict =>
      if tx.TCreateGroup? then RowWhere(db.table, (r: Row) => r.GroupRow? && r.active && r.name == tx.name && r.adminId == tx.user)
      else
        tx.TUpdateGroup? && tx.groupChange.name.Some? && RowWhere(db.table, (r: Row) => r.GroupRow? && r.active && r.name == tx.groupChange.name.value)
    case TaskTitleConflict =>
      tx.TCreateTask? && RowWhere(db.table, (r: Row) => r.TaskRow? && r.active && r.groupId == tx.group && r.title == tx.title)
    case UserAlreadyExists =>
      tx.TRegister? && RowWhere(db.table, (r: Row) => r.UserRow? && (r.username == tx.username || r.email == tx.email))
    case UserEmailConflict =>
      tx.TUpdateProfile? && RowWhere(db.table, (r: Row) => r.UserRow? && r.active && Some(r.email) == tx.userChange.email)
    case UserUsernameConflict =>
      tx.TUpdateProfile? && RowWhere(db.table, (r: Row) => r.UserRow? && r.active && Some(r.username) == tx.userChange.username)
    case JoinRequestAlreadyExists =>
      if tx.TCreateJoinRequest? then RequestWhere(db, (r: JoinRequest) => r.user == tx.user && r.group == tx.group)
      else if tx.TJoinGroup? then RequestWhere(db, (r: JoinRequest) => r.user == tx.user && r.group == tx.group && r.status == Waiting)
      else tx.TJoinTask? && RequestWhere(db, (r: JoinRequest) => r.user == tx.user && r.task == Some(tx.task) && r.status == Waiting)
    case _ => false
  }

  ghost predicate Refused(db: Db, tx: Tx, e: Error) {
    match e
    case ForbiddenGroupAccess =>
      if tx.TCreateTask? then !HasAccess(db, tx.user, tx.group)
      else (tx.TUpdateGroup? || tx.TDeleteGroup? || tx.TAddMember? || tx.TRemoveMember?) && NotAdmin(db, tx)
    case ForbiddenTaskAccess =>
      && (tx.TUpdateTask? || tx.TDeleteTask? || tx.TAddUserToTask? || tx.TApproveJoinRequest?)
      && TaskOf(db, tx).Some? && !(HasAccess(db, CallerOf(tx), tx.listed) && ActiveIn(db, TaskOf(db, tx).value, tx.listed))
    case MemberNotAdmin => (tx.TApproveJoinRequest? || tx.TRejectJoinRequest?) && NotAdmin(db, tx)
    case TaskAccessDenied => tx.TRejectTaskRequest? && NotAdmin(db, tx)
    case CommentForbidden =>
      (tx.TUpdateComment? || tx.TDeleteComment?) && IsComment(db.table, tx.comment) && db.table[CommentE(tx.comment)].userId != tx.user
    case _ => false
  }

  predicate Missing(db: Db, tx: Tx, e: Error) {
    match e
    case GroupNotFound => (tx.TJoinGroup? || NamesRequest(tx)) && GroupOf(db, tx).Some? && !ActiveGroup(db.table, GroupOf(db, tx).value)
    case TaskNotInGroup => tx.TJoinTask? && HomeOf(db, tx).Some? && !ActiveGroup(db.table, HomeOf(db, tx).value)
    case TaskNotFound =>
      && (tx.TUpdateTaskStatus? || tx.TJoinTask? || tx.TCreateComment? || tx.TApproveTaskRequest? || tx.TRejectTaskRequest?)
      && TaskOf(db, tx).Some? && !ActiveTask(db.table, TaskOf(db, tx).value)
    case TaskAssigneeNotFound => tx.TApproveTaskRequest? && TaskOf(db, tx).None?
    case MemberNotFound => (tx.TExitGroup? || tx.TRemoveMember?) && (tx.user, tx.group) !in db.members
    case JoinRequestNotFound =>
      && NamesRequest(tx)
      && (tx.request in db.requests ==>
            || (tx.TApproveJoinRequest? && db.requests[tx.request].group != tx.group)
            || (tx.TRejectTaskRequest? && db.requests[tx.request].task != Some(tx.task)))
    case CommentNotFound => (tx.TUpdateComment? || tx.TDeleteComment?) && !IsComment(db.table, tx.comment)
    case NotFoundParent =>
      tx.TCreateComment? && tx.parent.Some? && (IsComment(db.table, tx.parent.value) ==> db.table[CommentE(tx.parent.value)].taskId != tx.task)
    case UserNotFound => (tx.TUpdateProfile? || tx.TDeleteProfile?) && !ActiveUser(db.table, tx.user)
    case _ => false
  }

  predicate Done(db: Db, tx: Tx, e: Error) {
    match e
    case MemberAlreadyExists => (tx.TAddMember? || tx.TJoinGroup?) && AlreadyIn(db.members, SubjectOf(db, tx), GroupOf(db, tx))
    case UserAlreadyInTask => (tx.TJoinTask? || tx.TAddUserToTask? || tx.TApproveJoinRequest?) && AlreadyIn(db.assignees, SubjectOf(db, tx), TaskOf(db, tx))
    case JoinRequestAlreadyHandled =>
      (tx.TApproveJoinRequest? || tx.TApproveTaskRequest?) && tx.request in db.requests && db.requests[tx.request].status != Waiting
    case TaskStatusAlreadySet => tx.TUpdateTaskStatus? && ActiveTask(db.table, tx.task) && db.table[TaskE(tx.task)].status == tx.status
    case _ => false
  }

  predicate Waits(db: Db, request: int) { request in db.requests && db.requests[request].status == Waiting }

  /** A row the call would write is refused by a constraint, and no check of the service came first. */
  ghost predicate Violated(db: Db, tx: Tx) {
    match tx
    case TCreateGroup(user, name, _, parent, _) =>
      && !Conflict(db, tx, GroupNameConflict)
      && (RowWhere(db.table, (r: Row) => r.GroupRow? && r.name == name) || !IsUser(db.table, user) || (parent.Some? && !IsGroup(db.table, parent.value)))
    case TUpdateGroup(user, group, c) => AdminOf(db, user, group) && c.name.Some? && RowWhere(db.table, (r: Row) => r.GroupRow? && r.name == c.name.value)
    case TAddMember(_, group, user) => !NotAdmin(db, tx) && (user, group) !in db.members && !IsUser(db.table, user)
    case TCreateJoinRequest(group, user) => !Conflict(db, tx, JoinRequestAlreadyExists) && (!IsUser(db.table, user) || !IsGroup(db.table, group))
    case TJoinGroup(group, user) =>
      (user, group) !in db.members && ActiveGroup(db.table, group) && !Conflict(db, tx, JoinRequestAlreadyExists) && !IsUser(db.table, user)
    case TApproveJoinRequest(_, group, request, _) =>
      && Waits(db, request) && !NotAdmin(db, tx)
      && (AlreadyIn(db.members, SubjectOf(db, tx), Some(group)) || !IsUser(db.table, db.requests[request].user)
          || (HomeOf(db, tx).Some? && !IsGroup(db.table, HomeOf(db, tx).value)))
    case TCreateTask(user, group, _, _) =>
      HasAccess(db, user, group) && !Conflict(db, tx, TaskTitleConflict) && (!IsUser(db.table, user) || (user, db.next.task) in db.assignees)
    case TJoinTask(task, user) =>
      && (user, task) !in db.assignees && HomeOf(db, tx).Some? && ActiveGroup(db.table, HomeOf(db, tx).value)
      && !Conflict(db, tx, JoinRequestAlreadyExists)
      && (!IsUser(db.table, user) ||
          RequestWhere(db, (r: JoinRequest) => r.user == user && Some(r.group) == HomeOf(db, tx) && r.task == Some(task)))
    case TApproveTaskRequest(_, request) =>
      Waits(db, request) && (AlreadyIn(db.assignees, SubjectOf(db, tx), TaskOf(db, tx)) || !IsUser(db.table, db.requests[request].user))
    case TAddUserToTask(_, task, user, _) => (user, task) !in db.assignees && !IsUser(db.table, user)
    case TCreateComment(user, task, _, _) => ActiveTask(db.table, task) && !Missing(db, tx, NotFoundParent) && !IsUser(db.table, user)
    case TDeleteComment(user, comment) => !Refused(db, tx, CommentForbidden) && RowWhere(db.table, (r: Row) => r.CommentRow? && r.parent == Some(comment))
    case TUpdateProfile(user, c) =>
      && ActiveUser(db.table, user)
      && (RowWhere(db.table, (r: Row) => r.UserRow? && Some(r.email) == c.email)
          || RowWhere(db.table, (r: Row) => r.UserRow? && Some(r.username) == c.username))
    case _ => false
  }

  ghost predicate Tells(db: Db, tx: Tx, e: Error) {
    (e == IntegrityError && Violated(db, tx)) || Conflict(db, tx, e) || Refused(db, tx, e) || Missing(db, tx, e) || Done(db, tx, e)
  }

  lemma GroupErrorsTell(db: Db, tx: Tx, a: Answers)
    requires Inv(db) && Execute(db, tx, a).Raise? && (tx.TAddMember? || tx.TRemoveMember? || tx.TExitGroup? || tx.TDeleteGroup? || tx.TUpdateGroup?)
    ensures Tells(db, tx, Execute(db, tx, a).error)
  {
  }

  lemma JoinErrorsTell(db: Db, tx: Tx, a: Answers)
    requires Typed(db.table) && Execute(db, tx, a).Raise? && (tx.TCreateGroup? || tx.TCreateJoinRequest? || tx.TJoinGroup? || tx.TJoinTask?)
    ensures Tells(db, tx, Execute(db, tx, a).error)
  {
  }

  lemma ApprovalErrorsTell(db: Db, tx: Tx, a: Answers)
    requires Execute(db, tx, a).Raise? && (tx.TApproveJoinRequest? || tx.TApproveTaskRequest?)
    ensures Tells(db, tx, Execute(db, tx, a).error)
  {
  }

  lemma RejectionErrorsTell(db: Db, tx: Tx, a: Answers)
    requires Execute(db, tx, a).Raise? && (tx.TRejectJoinRequest? || tx.TRejectTaskRequest?)
    ensures Tells(db, tx, Execute(db, tx, a).error)
  {
  }

  lemma TaskErrorsTell(db: Db, tx: Tx, a: Answers)
    requires Typed(db.table) && Execute(db, tx, a).Raise?
    requires tx.TCreateTask? || tx.TUpdateTask? || tx.TDeleteTask? || tx.TUpdateTaskStatus? || tx.TAddUserToTask?
    ensures Tells(db, tx, Execute(db, tx, a).error)
  {
  }

  lemma CommentErrorsTell(db: Db, tx: Tx, a: Answers)
    requires Execute(db, tx, a).Raise? && WritesComment(tx)
    ensures Tells(db, tx, Execute(db, tx, a).error)
  {
  }

  lemma UserErrorsTell(db: Db, tx: Tx, a: Answers)
    requires Execute(db, tx, a).Raise? && WritesUser(tx)
    ensures Tells(db, tx, Execute(db, tx, a).error)
  {
  }

  /** Any error a transaction ends in says what its name says; a violated constraint is what no check has caught. */
  lemma ErrorsTell(db: Db, tx: Tx, a: Answers)
    requires Inv(db) && Execute(db, tx, a).Raise?
    ensures Tells(db, tx, Execute(db, tx, a).error)
  {
    if tx.TApproveJoinRequest? || tx.TApproveTaskRequest? {
      ApprovalErrorsTell(db, tx, a);
    } else if NamesRequest(tx) {
      RejectionErrorsTell(db, tx, a);
    } else if WritesComment(tx) {
      CommentErrorsTell(db, tx, a);
    } else if WritesUser(tx) {
      UserErrorsTell(db, tx, a);
    } else if tx.TCreateGroup? || tx.TCreateJoinRequest? || tx.TJoinGroup? || tx.TJoinTask? {
      JoinErrorsTell(db, tx, a);
    } else if tx.TCreateTask? || tx.TUpdateTask? || tx.TDeleteTask? || tx.TUpdateTaskStatus? || tx.TAddUserToTask? {
      TaskErrorsTell(db, tx, a);
    } else {
      GroupErrorsTell(db, tx, a);
    }
  }
}
