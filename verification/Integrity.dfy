/** What the foreign keys and unique constraints are for: it holds in every state the service reaches. */
module Integrity {
  import opened Schema
  import opened Store
  import opened Transactions
  import opened TransactionInvariants
  import opened TransactionLaws
  import R = TransactionRuns

  // ---- references ---------------------------------------------------------------------------------------

  predicate LinksExist(t: Table, members: set<(int, int)>, assignees: set<(int, int)>) {
    && (forall p | p in members :: IsUser(t, p.0) && IsGroup(t, p.1))
    && (forall p | p in assignees :: IsUser(t, p.0) && IsTask(t, p.1))
  }

  predicate RoleExists(t: Table, r: UserRole) {
    IsUser(t, r.user) && (r.group.Some? ==> IsGroup(t, r.group.value)) && (r.task.Some? ==> IsTask(t, r.task.value))
  }

  predicate RolesExist(t: Table, roles: map<int, UserRole>) { forall id | id in roles :: RoleExists(t, roles[id]) }

  predicate RequestExists(t: Table, r: JoinRequest) {
    IsUser(t, r.user) && IsGroup(t, r.group) && (r.task.Some? ==> IsTask(t, r.task.value))
  }

  predicate RequestsExist(t: Table, requests: map<int, JoinRequest>) { forall id | id in requests :: RequestExists(t, requests[id]) }

  /** What a row refers to exists. */
  predicate RowExists(t: Table, row: Row) {
    match row
    case UserRow(_, _, _, _) => true
    case GroupRow(_, admin, _, parent, _, _) => IsUser(t, admin) && (parent.Some? ==> IsGroup(t, parent.value))
    case TaskRow(_, _, group, _, _) => IsGroup(t, group)
    case CommentRow(task, user, _, parent) => IsTask(t, task) && IsUser(t, user) && (parent.Some? ==> IsComment(t, parent.value))
  }

  predicate RowsExist(t: Table) { forall e | e in t :: RowExists(t, t[e]) }

  predicate References(db: Db) {
    LinksExist(db.table, db.members, db.assignees) && RolesExist(db.table, db.roles) && RequestsExist(db.table, db.requests) && RowsExist(db.table)
  }

  // ---- uniqueness ---------------------------------------------------------------------------------------

  /** Group names, user names and addresses are each held once, whether active or not. */
  predicate NamesUnique(t: Table) {
    && (forall e, f | e in t && f in t && t[e].GroupRow? && t[f].GroupRow? && t[e].name == t[f].name :: e == f)
    && (forall e, f | e in t && f in t && t[e].UserRow? && t[f].UserRow? && t[e].username == t[f].username :: e == f)
    && (forall e, f | e in t && f in t && t[e].UserRow? && t[f].UserRow? && t[e].email == t[f].email :: e == f)
  }

  /** A user has at most one request for a task in a group, whatever its status. */
  predicate TaskRequestsUnique(requests: map<int, JoinRequest>) {
    forall x, y | x in requests && y in requests && requests[x].task.Some?
      && requests[x].user == requests[y].user && requests[x].group == requests[y].group && requests[x].task == requests[y].task :: x == y
  }

  ghost predicate Sound(db: Db) { References(db) && NamesUnique(db.table) && TaskRequestsUnique(db.requests) }

  // ---- the tables ---------------------------------------------------------------------------------------

  /** Users, groups and tasks stay; the rows that stay keep what they are. */
  ghost predicate Keeps(t: Table, t': Table) {
    && (forall x | IsUser(t, x) :: IsUser(t', x))
    && (forall x | IsGroup(t, x) :: IsGroup(t', x))
    && (forall x | IsTask(t, x) :: IsTask(t', x))
  }

  lemma OneWriteKeeps(db: Db, db': Db)
    requires Typed(db.table) && Typed(db'.table) && OneWrite(db, db')
    requires |db'.outbox| > |db.outbox| && db'.outbox[|db.outbox|].entity !in db'.table ==> db'.outbox[|db.outbox|].entity.kind.CommentKind?
    ensures Keeps(db.table, db'.table)
  {
  }

  lemma OnlyCommentsVanish(db: Db, tx: Tx, a: Answers)
    requires Execute(db, tx, a).Commit? && (WritesGroup(tx) || WritesTask(tx) || WritesUser(tx))
    ensures |Execute(db, tx, a).db.outbox| > |db.outbox|
    ensures Execute(db, tx, a).db.outbox[|db.outbox|].entity in Execute(db, tx, a).db.table
  {
  }

  lemma TablesKeep(db: Db, tx: Tx, a: Answers)
    requires Inv(db) && Possible(db, tx, a) && Execute(db, tx, a).Commit?
    ensures Keeps(db.table, Execute(db, tx, a).db.table)
  {
    TransactionWritesOnce(db, tx, a);
    TransactionKeepsInv(db, tx, a);
    if WritesComment(tx) {
      CommentEntry(db, tx, a);
    } else if WritesGroup(tx) || WritesTask(tx) || WritesUser(tx) {
      OnlyCommentsVanish(db, tx, a);
    } else {
      OthersWriteNothing(db, tx, a);
    }
    OneWriteKeeps(db, Execute(db, tx, a).db);
  }

  // ---- links --------------------------------------------------------------------------------------------

  lemma BringsExisting(db: Db, tx: Tx, a: Answers, user: int, group: int)
    requires Inv(db) && References(db) && Execute(db, tx, a).Commit? && Brings(db, tx, user, group)
    ensures IsUser(db.table, user) && (IsGroup(db.table, group) || (tx.TCreateGroup? && group == db.next.group))
  {
    match tx
    case TCreateGroup(u, name, policy, parent, details) => CreateGroupLaw(db, u, name, policy, parent, details);
    case TAddMember(caller, g, u) => AddMemberLaw(db, caller, g, u);
    case TApproveJoinRequest(caller, g, request, listed) => ApproveJoinRequestLaw(db, caller, g, request, listed);
    case TJoinGroup(g, u) => JoinGroupLaw(db, g, u);
    case TCreateTask(u, g, title, details) => CreateTaskCommits(db, u, g, title, details);
    case TApproveTaskRequest(caller, request) => ApproveTaskRequestLaw(db, caller, request);
  }

  lemma AssignsExisting(db: Db, tx: Tx, a: Answers, user: int, task: int)
    requires Inv(db) && References(db) && Execute(db, tx, a).Commit? && Assigns(db, tx, user, task)
    ensures IsUser(db.table, user) && (IsTask(db.table, task) || (tx.TCreateTask? && task == db.next.task))
  {
    match tx
    case TCreateTask(u, g, title, details) => CreateTaskCommits(db, u, g, title, details);
    case TJoinTask(t, u) => JoinTaskLaw(db, t, u);
    case TApproveTaskRequest(caller, request) => ApproveTaskRequestLaw(db, caller, request);
    case TApproveJoinRequest(caller, g, request, listed) => ApproveJoinRequestLaw(db, caller, g, request, listed);
    case TAddUserToTask(caller, t, u, listed) => AddUserToTaskLaw(db, caller, t, u, listed);
  }

  lemma CreatedExists(db: Db, tx: Tx, a: Answers)
    requires Inv(db) && Execute(db, tx, a).Commit?
    ensures tx.TCreateGroup? ==> IsGroup(Execute(db, tx, a).db.table, db.next.group)
    ensures tx.TCreateTask? ==> IsTask(Execute(db, tx, a).db.table, db.next.task)
  {
    if tx.TCreateGroup? {
      CreateGroupLaw(db, tx.user, tx.name, tx.policy, tx.parent, tx.details);
    } else if tx.TCreateTask? {
      CreateTaskLaw(db, tx.user, tx.group, tx.title, tx.details);
    }
  }

  lemma KeepsLinks(db: Db, tx: Tx, a: Answers)
    requires Inv(db) && References(db) && Possible(db, tx, a) && Execute(db, tx, a).Commit?
    ensures var d := Execute(db, tx, a).db; LinksExist(d.table, d.members, d.assignees)
  {
    var d := Execute(db, tx, a).db;
    TablesKeep(db, tx, a);
    CreatedExists(db, tx, a);
    forall p | p in d.members ensures IsUser(d.table, p.0) && IsGroup(d.table, p.1) {
      MembershipLaw(db, tx, a, p.0, p.1);
      if Brings(db, tx, p.0, p.1) {
        BringsExisting(db, tx, a, p.0, p.1);
      }
    }
    forall p | p in d.assignees ensures IsUser(d.table, p.0) && IsTask(d.table, p.1) {
      AssignmentLaw(db, tx, a, p.0, p.1);
      if Assigns(db, tx, p.0, p.1) {
        AssignsExisting(db, tx, a, p.0, p.1);
      }
    }
  }

  // ---- role rows ------------------------------------------------------------------------------------------

  lemma GrantExists(db: Db, d: Db, user: int, group: int)
    requires RolesExist(db.table, db.roles) && IsUser(db.table, user) && IsGroup(db.table, group) && Keeps(db.table, d.table)
    requires d.roles == db.roles || d.roles == Grant(db, user, Member, group).roles
    ensures RolesExist(d.table, d.roles)
  {
  }

  lemma FewerExist(db: Db, d: Db)
    requires RolesExist(db.table, db.roles) && Keeps(db.table, d.table)
    requires forall id | id in d.roles :: id in db.roles && d.roles[id] == db.roles[id]
    ensures RolesExist(d.table, d.roles)
  {
  }

  /** The two rows a new task brings. */
  lemma TaskRolesExist(db: Db, d: Db, user: int, group: int)
    requires RolesExist(db.table, db.roles) && Keeps(db.table, d.table)
    requires IsUser(db.table, user) && IsGroup(db.table, group) && IsTask(d.table, db.next.task)
    requires d.roles == Grant(AddRole(db, UserRole(user, Assignee, Some(group), Some(db.next.task))), user, Member, group).roles
    ensures RolesExist(d.table, d.roles)
  {
  }

  lemma CreateTaskRoles(db: Db, user: int, group: int, title: string, details: string)
    requires CreateTask(db, user, group, title, details).Commit?
    ensures CreateTask(db, user, group, title, details).db.roles
      == Grant(AddRole(db, UserRole(user, Assignee, Some(group), Some(db.next.task))), user, Member, group).roles
  {
  }

  lemma GroupRoleExists(db: Db, d: Db, user: int, group: int)
    requires RolesExist(db.table, db.roles) && Keeps(db.table, d.table) && IsUser(db.table, user) && IsGroup(d.table, group)
    requires d.roles == db.roles[db.next.role := UserRole(user, GroupAdmin, Some(group), None)]
    ensures RolesExist(d.table, d.roles)
  {
  }

  lemma LeavingKeepsRoles(db: Db, tx: Tx, a: Answers)
    requires Inv(db) && References(db) && Possible(db, tx, a) && Execute(db, tx, a).Commit?
    requires tx.TDeleteGroup? || tx.TExitGroup? || tx.TRemoveMember?
    ensures var d := Execute(db, tx, a).db; RolesExist(d.table, d.roles)
  {
    TablesKeep(db, tx, a);
    if tx.TDeleteGroup? {
      DeleteGroupLaw(db, tx.user, tx.group, a);
    } else {
      LeaveLaw(db, tx.group, tx.user, a);
    }
    FewerExist(db, Execute(db, tx, a).db);
  }

  lemma CreatingKeepsRoles(db: Db, tx: Tx, a: Answers)
    requires Inv(db) && References(db) && Possible(db, tx, a) && Execute(db, tx, a).Commit? && (tx.TCreateGroup? || tx.TCreateTask?)
    ensures var d := Execute(db, tx, a).db; RolesExist(d.table, d.roles)
  {
    var d := Execute(db, tx, a).db;
    TablesKeep(db, tx, a);
    CreatedExists(db, tx, a);
    if tx.TCreateGroup? {
      CreateGroupLaw(db, tx.user, tx.name, tx.policy, tx.parent, tx.details);
      GroupRoleExists(db, d, tx.user, db.next.group);
    } else {
      CreateTaskCommits(db, tx.user, tx.group, tx.title, tx.details);
      CreateTaskRoles(db, tx.user, tx.group, tx.title, tx.details);
      TaskRolesExist(db, d, tx.user, tx.group);
    }
  }

  lemma JoiningKeepsRoles(db: Db, tx: Tx, a: Answers)
    requires Inv(db) && References(db) && Possible(db, tx, a) && Execute(db, tx, a).Commit? && (tx.TJoinGroup? || tx.TApproveJoinRequest?)
    ensures var d := Execute(db, tx, a).db; RolesExist(d.table, d.roles)
  {
    var d := Execute(db, tx, a).db;
    TablesKeep(db, tx, a);
    if tx.TJoinGroup? {
      JoinGroupLaw(db, tx.group, tx.user);
      JoinRoles(db, tx, a, tx.user);
      GrantExists(db, d, tx.user, tx.group);
    } else {
      ApproveJoinRequestLaw(db, tx.caller, tx.group, tx.request, tx.listed);
      ApprovalEffect(db, tx.caller, tx.group, tx.request, tx.listed);
      GrantExists(db, d, db.requests[tx.request].user, tx.group);
    }
  }

  lemma KeepsRoles(db: Db, tx: Tx, a: Answers)
    requires Inv(db) && References(db) && Possible(db, tx, a) && Execute(db, tx, a).Commit?
    ensures var d := Execute(db, tx, a).db; RolesExist(d.table, d.roles)
  {
    if tx.TDeleteGroup? || tx.TExitGroup? || tx.TRemoveMember? {
      LeavingKeepsRoles(db, tx, a);
    } else if tx.TCreateGroup? || tx.TCreateTask? {
      CreatingKeepsRoles(db, tx, a);
    } else if tx.TJoinGroup? || tx.TApproveJoinRequest? {
      JoiningKeepsRoles(db, tx, a);
    } else {
      TablesKeep(db, tx, a);
      OthersLeaveRoles(db, tx, a);
      FewerExist(db, Execute(db, tx, a).db);
    }
  }

  // ---- requests -------------------------------------------------------------------------------------------

  lemma AskedIsSound(db: Db, d: Db, user: int, group: int, task: Option<int>)
    requires RequestsExist(db.table, db.requests) && TaskRequestsUnique(db.requests) && d.table == db.table && Asks(db, d, user, group, task)
    requires RequestExists(db.table, JoinRequest(user, group, task, Waiting))
    requires task.Some? ==> forall id | id in db.requests && db.requests[id].user == user && db.requests[id].task == task :: db.requests[id].group != group
    ensures RequestsExist(d.table, d.requests) && TaskRequestsUnique(d.requests)
  {
  }

  lemma SetIsSound(db: Db, d: Db, request: int, status: RequestStatus)
    requires RequestsExist(db.table, db.requests) && TaskRequestsUnique(db.requests) && Keeps(db.table, d.table)
    requires request in db.requests && d.requests == db.requests[request := db.requests[request].(status := status)]
    ensures RequestsExist(d.table, d.requests) && TaskRequestsUnique(d.requests)
  {
  }

  lemma SameIsSound(db: Db, d: Db)
    requires RequestsExist(db.table, db.requests) && Keeps(db.table, d.table) && SameRequests(db, d)
    ensures RequestsExist(d.table, d.requests)
  {
  }

  lemma JoinTaskRequests(db: Db, task: int, user: int)
    requires Inv(db) && Sound(db) && JoinTask(db, task, user).Commit?
    ensures var d := JoinTask(db, task, user).db; RequestsExist(d.table, d.requests) && TaskRequestsUnique(d.requests)
  {
    JoinTaskLaw(db, task, user);
    var d, group := JoinTask(db, task, user).db, db.table[TaskE(task)].groupId;
    if db.table[GroupE(group)].joinPolicy != OpenJoin {
      AskedIsSound(db, d, user, group, Some(task));
    }
  }

  lemma JoinGroupRequests(db: Db, group: int, user: int)
    requires Inv(db) && Sound(db) && JoinGroup(db, group, user).Commit?
    ensures var d := JoinGroup(db, group, user).db; RequestsExist(d.table, d.requests) && TaskRequestsUnique(d.requests)
  {
    JoinGroupLaw(db, group, user);
    if db.table[GroupE(group)].joinPolicy != OpenJoin {
      AskedIsSound(db, JoinGroup(db, group, user).db, user, group, None);
    }
  }

  lemma AskingRequests(db: Db, group: int, user: int)
    requires Sound(db) && CreateJoinRequest(db, group, user).Commit?
    ensures var d := CreateJoinRequest(db, group, user).db; RequestsExist(d.table, d.requests) && TaskRequestsUnique(d.requests)
  {
    CreateJoinRequestLaw(db, group, user);
    AskedIsSound(db, CreateJoinRequest(db, group, user).db, user, group, None);
  }

  lemma AddingKeepsRequests(db: Db, tx: Tx, a: Answers)
    requires Inv(db) && Sound(db) && Execute(db, tx, a).Commit? && AddsRequest(tx)
    ensures var d := Execute(db, tx, a).db; RequestsExist(d.table, d.requests) && TaskRequestsUnique(d.requests)
  {
    match tx
    case TCreateJoinRequest(g, u) => AskingRequests(db, g, u);
    case TJoinGroup(g, u) => JoinGroupRequests(db, g, u);
    case TJoinTask(t, u) => JoinTaskRequests(db, t, u);
  }

  lemma KeepsRequests(db: Db, tx: Tx, a: Answers)
    requires Inv(db) && Sound(db) && Possible(db, tx, a) && Execute(db, tx, a).Commit?
    ensures var d := Execute(db, tx, a).db; RequestsExist(d.table, d.requests) && TaskRequestsUnique(d.requests)
  {
    if AddsRequest(tx) {
      AddingKeepsRequests(db, tx, a);
    } else {
      TablesKeep(db, tx, a);
      var d := Execute(db, tx, a).db;
      if SetsRequest(tx) {
        SetsOneRequest(db, tx, a);
        SetIsSound(db, d, tx.request, d.requests[tx.request].status);
      } else {
        OthersLeaveRequests(db, tx, a);
        SameIsSound(db, d);
      }
    }
  }

  // ---- rows -----------------------------------------------------------------------------------------------

  /** No other row has a name the stored one has. */
  predicate OwnNames(t: Table, e: Entity, row: Row) {
    forall f | f in t && f != e ::
      && (row.GroupRow? && t[f].GroupRow? ==> t[f].name != row.name)
      && (row.UserRow? && t[f].UserRow? ==> t[f].username != row.username && t[f].email != row.email)
  }

  lemma StoreKeepsReferences(t: Table, e: Entity, row: Row)
    requires RowsExist(t) && Typed(t) && RowFits(e.kind, row) && RowExists(t, row)
    ensures RowsExist(t[e := row])
  {
    var t' := t[e := row];
    forall f | f in t' ensures RowExists(t', t'[f]) {
      assert RowExists(t, if f == e then row else t[f]);
    }
  }

  lemma StoreKeepsNames(t: Table, e: Entity, row: Row)
    requires NamesUnique(t) && OwnNames(t, e, row)
    ensures NamesUnique(t[e := row])
  {
  }

  /** The stored row refers to what exists and has names of its own; no other row loses what it refers to. */
  lemma StoreKeepsRows(db: Db, d: Db, etype: EventType, e: Entity, row: Row)
    requires RowsExist(db.table) && NamesUnique(db.table) && Stores(db, d, etype, e, row) && RowFits(e.kind, row) && Typed(db.table)
    requires RowExists(db.table, row) && OwnNames(db.table, e, row)
    ensures RowsExist(d.table) && NamesUnique(d.table)
  {
    StoreKeepsReferences(db.table, e, row);
    StoreKeepsNames(db.table, e, row);
  }

  /** A row changed in place that keeps its references and its names. */
  lemma ChangeKeepsRows(db: Db, d: Db, etype: EventType, e: Entity, row: Row)
    requires Inv(db) && Sound(db) && Stores(db, d, etype, e, row) && e in db.table && RowFits(e.kind, row)
    requires match row
      case UserRow(n, m, _, _) => n == db.table[e].username && m == db.table[e].email
      case GroupRow(n, admin, _, parent, _, _) => n == db.table[e].name && admin == db.table[e].adminId && parent == db.table[e].parentGroup
      case TaskRow(_, _, g, _, _) => g == db.table[e].groupId
      case CommentRow(t, u, _, parent) => t == db.table[e].taskId && u == db.table[e].userId && parent == db.table[e].parent
    ensures RowsExist(d.table) && NamesUnique(d.table)
  {
    StoreKeepsRows(db, d, etype, e, row);
  }

  lemma CreateGroupRows(db: Db, user: int, name: string, policy: JoinPolicy, parent: Option<int>, details: string)
    requires Inv(db) && Sound(db) && CreateGroup(db, user, name, policy, parent, details).Commit?
    ensures var t := CreateGroup(db, user, name, policy, parent, details).db.table; RowsExist(t) && NamesUnique(t)
  {
    CreateGroupLaw(db, user, name, policy, parent, details);
    StoreKeepsRows(db, CreateGroup(db, user, name, policy, parent, details).db, Created, GroupE(db.next.group),
                   GroupRow(name, user, policy, parent, details, true));
  }

  lemma UpdateGroupRows(db: Db, user: int, group: int, c: GroupChange)
    requires Inv(db) && Sound(db) && UpdateGroup(db, user, group, c).Commit?
    ensures var t := UpdateGroup(db, user, group, c).db.table; RowsExist(t) && NamesUnique(t)
  {
    UpdateGroupLaw(db, user, group, c);
    var d := UpdateGroup(db, user, group, c).db;
    assert RowExists(db.table, db.table[GroupE(group)]);
    StoreKeepsRows(db, d, Updated, GroupE(group), d.table[GroupE(group)]);
  }

  lemma DeleteGroupRows(db: Db, user: int, group: int, a: Answers)
    requires Inv(db) && Sound(db) && Possible(db, TDeleteGroup(user, group), a) && DeleteGroup(db, user, group, a).Commit?
    ensures var t := DeleteGroup(db, user, group, a).db.table; RowsExist(t) && NamesUnique(t)
  {
    DeleteGroupLaw(db, user, group, a);
    var d := DeleteGroup(db, user, group, a).db;
    ChangeKeepsRows(db, d, Deleted, GroupE(group), d.table[GroupE(group)]);
  }

  lemma CreateTaskRows(db: Db, user: int, group: int, title: string, details: string)
    requires Inv(db) && Sound(db) && CreateTask(db, user, group, title, details).Commit?
    ensures var t := CreateTask(db, user, group, title, details).db.table; RowsExist(t) && NamesUnique(t)
  {
    CreateTaskCommits(db, user, group, title, details);
    CreateTaskLaw(db, user, group, title, details);
    StoreKeepsRows(db, CreateTask(db, user, group, title, details).db, Created, TaskE(db.next.task), TaskRow(title, Todo, group, details, true));
  }

  lemma TaskRowsChange(db: Db, tx: Tx, a: Answers)
    requires Inv(db) && Sound(db) && Execute(db, tx, a).Commit? && (tx.TUpdateTask? || tx.TDeleteTask? || tx.TUpdateTaskStatus?)
    ensures var t := Execute(db, tx, a).db.table; RowsExist(t) && NamesUnique(t)
  {
    var d := Execute(db, tx, a).db;
    match tx
    case TUpdateTask(u, t, c, listed) =>
      UpdateTaskLaw(db, u, t, c, listed);
      ChangeKeepsRows(db, d, Updated, TaskE(t), d.table[TaskE(t)]);
    case TDeleteTask(u, t, listed) =>
      DeleteTaskLaw(db, u, t, listed);
      ChangeKeepsRows(db, d, Deleted, TaskE(t), d.table[TaskE(t)]);
    case TUpdateTaskStatus(t, status) =>
      UpdateTaskStatusLaw(db, t, status);
      ChangeKeepsRows(db, d, Updated, TaskE(t), d.table[TaskE(t)]);
  }

  lemma CreateCommentRows(db: Db, user: int, task: int, content: string, parent: Option<int>)
    requires Inv(db) && Sound(db) && CreateComment(db, user, task, content, parent).Commit?
    ensures var t := CreateComment(db, user, task, content, parent).db.table; RowsExist(t) && NamesUnique(t)
  {
    CreateCommentLaw(db, user, task, content, parent);
    StoreKeepsRows(db, CreateComment(db, user, task, content, parent).db, Created, CommentE(db.next.comment),
                   CommentRow(task, user, content, parent));
  }

  lemma UpdateCommentRows(db: Db, user: int, comment: int, content: string)
    requires Inv(db) && Sound(db) && UpdateComment(db, user, comment, content).Commit?
    ensures var t := UpdateComment(db, user, comment, content).db.table; RowsExist(t) && NamesUnique(t)
  {
    UpdateCommentLaw(db, user, comment, content);
    var d := UpdateComment(db, user, comment, content).db;
    ChangeKeepsRows(db, d, Updated, CommentE(comment), d.table[CommentE(comment)]);
  }

  /** A comment nobody replied to is nobody's reference. */
  lemma VanishedIsUnused(t: Table, comment: int)
    requires RowsExist(t) && Typed(t) && !HasReply(t, comment)
    ensures RowsExist(t - {CommentE(comment)})
  {
    var t' := t - {CommentE(comment)};
    forall e | e in t' ensures RowExists(t', t'[e]) {
      assert RowExists(t, t[e]) && RowFits(e.kind, t[e]) && t'[e] == t[e];
    }
  }

  lemma FewerNames(t: Table, t': Table)
    requires NamesUnique(t) && forall e | e in t' :: e in t && t'[e] == t[e]
    ensures NamesUnique(t')
  {
  }

  lemma DeleteCommentRows(db: Db, user: int, comment: int)
    requires Inv(db) && Sound(db) && DeleteComment(db, user, comment).Commit?
    ensures var t := DeleteComment(db, user, comment).db.table; RowsExist(t) && NamesUnique(t)
  {
    VanishedIsUnused(db.table, comment);
    FewerNames(db.table, DeleteComment(db, user, comment).db.table);
  }

  lemma RegisterRows(db: Db, username: string, email: string, details: string)
    requires Inv(db) && Sound(db) && Register(db, username, email, details).Commit?
    ensures var t := Register(db, username, email, details).db.table; RowsExist(t) && NamesUnique(t)
  {
    RegisterLaw(db, username, email, details);
    StoreKeepsRows(db, Register(db, username, email, details).db, Created, UserE(db.next.user), UserRow(username, email, details, true));
  }

  lemma UpdateProfileRows(db: Db, user: int, c: UserChange)
    requires Inv(db) && Sound(db) && UpdateProfile(db, user, c).Commit?
    ensures var t := UpdateProfile(db, user, c).db.table; RowsExist(t) && NamesUnique(t)
  {
    UpdateProfileLaw(db, user, c);
    UpdateProfileCommits(db, user, c);
    var d := UpdateProfile(db, user, c).db;
    StoreKeepsRows(db, d, Updated, UserE(user), d.table[UserE(user)]);
  }

  lemma DeleteProfileRows(db: Db, user: int)
    requires Inv(db) && Sound(db) && DeleteProfile(db, user).Commit?
    ensures var t := DeleteProfile(db, user).db.table; RowsExist(t) && NamesUnique(t)
  {
    DeleteProfileLaw(db, user);
    var d := DeleteProfile(db, user).db;
    ChangeKeepsRows(db, d, Deleted, UserE(user), d.table[UserE(user)]);
  }

  lemma GroupRowsKept(db: Db, tx: Tx, a: Answers)
    requires Inv(db) && Sound(db) && Possible(db, tx, a) && Execute(db, tx, a).Commit? && WritesGroup(tx)
    ensures var t := Execute(db, tx, a).db.table; RowsExist(t) && NamesUnique(t)
  {
    match tx
    case TCreateGroup(u, name, policy, parent, details) => CreateGroupRows(db, u, name, policy, parent, details);
    case TUpdateGroup(u, g, c) => UpdateGroupRows(db, u, g, c);
    case TDeleteGroup(u, g) => DeleteGroupRows(db, u, g, a);
  }

  lemma CommentRowsKept(db: Db, tx: Tx, a: Answers)
    requires Inv(db) && Sound(db) && Execute(db, tx, a).Commit? && WritesComment(tx)
    ensures var t := Execute(db, tx, a).db.table; RowsExist(t) && NamesUnique(t)
  {
    match tx
    case TCreateComment(u, t, content, parent) => CreateCommentRows(db, u, t, content, parent);
    case TUpdateComment(u, c, content) => UpdateCommentRows(db, u, c, content);
    case TDeleteComment(u, c) => DeleteCommentRows(db, u, c);
  }

  lemma UserRowsKept(db: Db, tx: Tx, a: Answers)
    requires Inv(db) && Sound(db) && Execute(db, tx, a).Commit? && WritesUser(tx)
    ensures var t := Execute(db, tx, a).db.table; RowsExist(t) && NamesUnique(t)
  {
    match tx
    case TRegister(username, email, details) => RegisterRows(db, username, email, details);
    case TUpdateProfile(u, c) => UpdateProfileRows(db, u, c);
    case TDeleteProfile(u) => DeleteProfileRows(db, u);
  }

  lemma KeepsRows(db: Db, tx: Tx, a: Answers)
    requires Inv(db) && Sound(db) && Possible(db, tx, a) && Execute(db, tx, a).Commit?
    ensures var t := Execute(db, tx, a).db.table; RowsExist(t) && NamesUnique(t)
  {
    if WritesGroup(tx) {
      GroupRowsKept(db, tx, a);
    } else if tx.TCreateTask? {
      CreateTaskRows(db, tx.user, tx.group, tx.title, tx.details);
    } else if WritesTask(tx) {
      TaskRowsChange(db, tx, a);
    } else if WritesComment(tx) {
      CommentRowsKept(db, tx, a);
    } else if WritesUser(tx) {
      UserRowsKept(db, tx, a);
    } else {
      OthersWriteNothing(db, tx, a);
    }
  }

  // ---- over whole runs --------------------------------------------------------------------------------------

  lemma TransactionKeepsSound(db: Db, tx: Tx, a: Answers)
    requires Inv(db) && Sound(db) && Possible(db, tx, a) && Execute(db, tx, a).Commit?
    ensures Sound(Execute(db, tx, a).db)
  {
    KeepsLinks(db, tx, a);
    KeepsRoles(db, tx, a);
    KeepsRequests(db, tx, a);
    KeepsRows(db, tx, a);
  }

  /**
   In every reachable state each link, role row, request and row refers to what is stored, and the names,
   addresses and task requests the tables declare unique are.
   */
  lemma {:induction false} EveryRunIsSound(calls: seq<R.Call>)
    requires R.Legal(R.START, calls)
    ensures Sound(R.Run(R.START, calls).db)
  {
    if calls != [] {
      var front, last := calls[..|calls| - 1], calls[|calls| - 1];
      EveryRunIsSound(front);
      R.EveryRunKeepsInv(front);
      var db := R.Run(R.START, front).db;
      if Execute(db, last.tx, last.answers).Commit? {
        TransactionKeepsSound(db, last.tx, last.answers);
      }
    }
  }
}
