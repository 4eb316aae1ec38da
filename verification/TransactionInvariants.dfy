/** What every transaction keeps, and what follows for every run. */
module TransactionInvariants {
  import opened Schema
  import opened Store
  import opened Transactions

  // ---- the invariant ------------------------------------------------------------------------

  predicate RowFits(kind: Kind, row: Row) {
    match kind
    case UserKind => row.UserRow?
    case GroupKind => row.GroupRow?
    case TaskKind => row.TaskRow?
    case CommentKind => row.CommentRow?
    case OtherKind(_) => false
  }

  predicate Typed(t: Table) { forall e | e in t :: RowFits(e.kind, t[e]) }

  function NextId(next: Sequences, kind: Kind): nat {
    match kind
    case UserKind => next.user
    case GroupKind => next.group
    case TaskKind => next.task
    case CommentKind => next.comment
    case OtherKind(_) => 0
  }

  predicate Issued(next: Sequences, e: Entity) { Indexed(e.kind) && 0 <= e.id < NextId(next, e.kind) }

  /** Ids in use, in a table or in an outbox row, have been handed out before. */
  predicate Fresh(db: Db) {
    && (forall e | e in db.table :: Issued(db.next, e))
    && (forall i | 0 <= i < |db.outbox| :: Issued(db.next, db.outbox[i].entity))
    && (forall id | id in db.roles :: id < db.next.role)
    && (forall id | id in db.requests :: id < db.next.request)
  }

  /** GROUP_ADMIN rows and active groups correspond one to one, row's user = group's admin. */
  ghost predicate AdminRoles(t: Table, roles: map<int, UserRole>) {
    && (forall id | id in roles && roles[id].role == GroupAdmin ::
          roles[id].group.Some? && roles[id].task.None? && MyGroup(t, roles[id].user, roles[id].group.value))
    && (forall x, y | x in roles && y in roles && roles[x].role == GroupAdmin && roles[y].role == GroupAdmin && roles[x].group == roles[y].group :: x == y)
    && (forall g | ActiveGroup(t, g) :: HasRole(roles, t[GroupE(g)].adminId, GroupAdmin, g))
  }

  /** At most one MEMBER row for a user in a group, and none outside a group. */
  predicate MemberRoles(roles: map<int, UserRole>) {
    && (forall id | id in roles && roles[id].role == Member :: roles[id].group.Some? && roles[id].task.None?)
    && (forall x, y | x in roles && y in roles && roles[x].role == Member && roles[x] == roles[y] :: x == y)
  }

  predicate SameTarget(a: JoinRequest, b: JoinRequest) {
    a.user == b.user && a.task == b.task && (a.task.None? ==> a.group == b.group)
  }

  /** At most one waiting request per (user, group) without a task, and per (user, task) with one. */
  predicate PendingUnique(requests: map<int, JoinRequest>) {
    forall x, y | x in requests && y in requests && requests[x].status == Waiting && requests[y].status == Waiting
      && SameTarget(requests[x], requests[y]) :: x == y
  }

  /** A parent exists, is older, and belongs to the same task. */
  predicate Forest(t: Table) {
    forall e | e in t && e.kind.CommentKind? && t[e].CommentRow? && t[e].parent.Some? ::
      IsComment(t, t[e].parent.value) && t[e].parent.value < e.id && t[CommentE(t[e].parent.value)].taskId == t[e].taskId
  }

  ghost predicate Inv(db: Db) {
    Typed(db.table) && Fresh(db) && AdminRoles(db.table, db.roles) && MemberRoles(db.roles) && PendingUnique(db.requests) && Forest(db.table)
  }

  // ---- one row, one outbox row ------------------------------------------------------------------

  /**
   What a committed transaction does to the indexed tables: nothing, with no outbox row; or one row,
   announced by exactly one outbox row of the matching type. Only a fresh id is created and only a
   live row is written; a delete leaves the row dead or removes it.
   */
  ghost predicate OneWrite(db: Db, db': Db) {
    && (forall k :: NextId(db.next, k) <= NextId(db'.next, k)) && db.next.role <= db'.next.role && db.next.request <= db'.next.request
    && if db'.outbox == db.outbox then db'.table == db.table
       else
         && |db'.outbox| == |db.outbox| + 1 && db'.outbox[..|db.outbox|] == db.outbox
         && var Entry(etype, e) := db'.outbox[|db.outbox|];
            && (etype != Created ==> e in db.table && Alive(db.table[e]))
            && (etype == Created ==> e !in db.table && Indexed(e.kind) && e.id == NextId(db.next, e.kind) && e.id < NextId(db'.next, e.kind))
            && (if e in db'.table then
                  && db'.table == db.table[e := db'.table[e]] && RowFits(e.kind, db'.table[e])
                  && (etype == Deleted ==> !Alive(db'.table[e]))
                else etype == Deleted && db'.table == db.table - {e})
  }

  predicate WritesGroup(tx: Tx) { tx.TCreateGroup? || tx.TUpdateGroup? || tx.TDeleteGroup? }
  predicate WritesTask(tx: Tx) { tx.TCreateTask? || tx.TUpdateTask? || tx.TDeleteTask? || tx.TUpdateTaskStatus? }
  predicate WritesComment(tx: Tx) { tx.TCreateComment? || tx.TUpdateComment? || tx.TDeleteComment? }
  predicate WritesUser(tx: Tx) { tx.TRegister? || tx.TUpdateProfile? || tx.TDeleteProfile? }

  lemma CreateGroupWrites(db: Db, user: int, name: string, policy: JoinPolicy, parent: Option<int>, details: string)
    requires Fresh(db) && CreateGroup(db, user, name, policy, parent, details).Commit?
    ensures OneWrite(db, CreateGroup(db, user, name, policy, parent, details).db)
  {
    assert GroupE(db.next.group) !in db.table;
  }

  lemma DeleteGroupWrites(db: Db, user: int, group: int, a: Answers)
    requires DeleteGroup(db, user, group, a).Commit?
    ensures OneWrite(db, DeleteGroup(db, user, group, a).db)
  {
  }

  lemma GroupWrites(db: Db, tx: Tx, a: Answers)
    requires Typed(db.table) && Fresh(db) && WritesGroup(tx) && Execute(db, tx, a).Commit?
    ensures OneWrite(db, Execute(db, tx, a).db)
  {
    if tx.TCreateGroup? {
      CreateGroupWrites(db, tx.user, tx.name, tx.policy, tx.parent, tx.details);
    } else if tx.TDeleteGroup? {
      DeleteGroupWrites(db, tx.user, tx.group, a);
    }
  }

  lemma CreateTaskWrites(db: Db, user: int, group: int, title: string, details: string)
    requires Fresh(db) && CreateTask(db, user, group, title, details).Commit?
    ensures OneWrite(db, CreateTask(db, user, group, title, details).db)
  {
    assert TaskE(db.next.task) !in db.table;
  }

  lemma TaskWrites(db: Db, tx: Tx, a: Answers)
    requires Typed(db.table) && Fresh(db) && WritesTask(tx) && Execute(db, tx, a).Commit?
    ensures OneWrite(db, Execute(db, tx, a).db)
  {
    if tx.TCreateTask? {
      CreateTaskWrites(db, tx.user, tx.group, tx.title, tx.details);
    }
  }

  lemma CommentWrites(db: Db, tx: Tx, a: Answers)
    requires Typed(db.table) && Fresh(db) && WritesComment(tx) && Execute(db, tx, a).Commit?
    ensures OneWrite(db, Execute(db, tx, a).db)
  {
    assert CommentE(db.next.comment) !in db.table;
  }

  lemma UserWrites(db: Db, tx: Tx, a: Answers)
    requires Typed(db.table) && Fresh(db) && WritesUser(tx) && Execute(db, tx, a).Commit?
    ensures OneWrite(db, Execute(db, tx, a).db)
  {
    assert UserE(db.next.user) !in db.table;
  }

  predicate SameRows(db: Db, db': Db) {
    && db'.table == db.table && db'.outbox == db.outbox
    && db.next.role <= db'.next.role && db.next.request <= db'.next.request
    && db'.next == db.next.(role := db'.next.role, request := db'.next.request)
  }

  /** What an approval does outside the members and assignees it adds. */
  lemma ApprovalEffect(db: Db, caller: int, group: int, request: int, listed: int)
    requires ApproveJoinRequest(db, caller, group, request, listed).Commit?
    ensures request in db.requests && db.requests[request].status == Waiting
    ensures var d, u := ApproveJoinRequest(db, caller, group, request, listed).db, db.requests[request].user;
      && SameRows(db, d)
      && d.requests == SetStatus(db, request, Approved).requests && d.next.request == db.next.request
      && d.roles == Grant(db, u, Member, group).roles && d.next.role == Grant(db, u, Member, group).next.role
      && db.members <= d.members && (u, group) in d.members
  {
  }

  lemma RequestsWriteNothing(db: Db, tx: Tx, a: Answers)
    requires TouchesRequests(tx) && Execute(db, tx, a).Commit?
    ensures SameRows(db, Execute(db, tx, a).db)
  {
    if tx.TApproveJoinRequest? {
      ApprovalEffect(db, tx.caller, tx.group, tx.request, tx.listed);
    }
  }

  lemma OthersWriteNothing(db: Db, tx: Tx, a: Answers)
    requires !WritesGroup(tx) && !WritesTask(tx) && !WritesComment(tx) && !WritesUser(tx) && Execute(db, tx, a).Commit?
    ensures SameRows(db, Execute(db, tx, a).db)
  {
    if TouchesRequests(tx) {
      RequestsWriteNothing(db, tx, a);
    }
  }

  lemma SameRowsIsOneWrite(db: Db, db': Db)
    requires SameRows(db, db')
    ensures OneWrite(db, db')
  {
  }

  /** Every committed transaction writes at most one indexed row, and announces exactly that. */
  lemma TransactionWritesOnce(db: Db, tx: Tx, a: Answers)
    requires Typed(db.table) && Fresh(db) && Execute(db, tx, a).Commit?
    ensures OneWrite(db, Execute(db, tx, a).db)
  {
    if WritesGroup(tx) {
      GroupWrites(db, tx, a);
    } else if WritesTask(tx) {
      TaskWrites(db, tx, a);
    } else if WritesComment(tx) {
      CommentWrites(db, tx, a);
    } else if WritesUser(tx) {
      UserWrites(db, tx, a);
    } else {
      OthersWriteNothing(db, tx, a);
      SameRowsIsOneWrite(db, Execute(db, tx, a).db);
    }
  }

  // ---- role rows ------------------------------------------------------------------------------

  predicate TouchesRoles(tx: Tx) {
    tx.TCreateGroup? || tx.TDeleteGroup? || tx.TRemoveMember? || tx.TExitGroup? || tx.TApproveJoinRequest? || tx.TJoinGroup? || tx.TCreateTask?
  }

  lemma OthersLeaveRoles(db: Db, tx: Tx, a: Answers)
    requires !TouchesRoles(tx) && Execute(db, tx, a).Commit?
    ensures Execute(db, tx, a).db.roles == db.roles && Execute(db, tx, a).db.next.role == db.next.role
    ensures db.members <= Execute(db, tx, a).db.members
  {
  }

  predicate RoleIds(db: Db) { forall id | id in db.roles :: id < db.next.role }

  /** Role rows only ever appear under fresh ids or disappear: no row is rewritten. */
  predicate RowsKept(db: Db, db': Db) {
    && db.next.role <= db'.next.role && RoleIds(db')
    && forall id | id in db'.roles && id in db.roles :: db'.roles[id] == db.roles[id]
  }

  lemma GrantKeeps(db: Db, user: int, role: RoleName, group: int)
    requires RoleIds(db)
    ensures RowsKept(db, Grant(db, user, role, group))
    ensures forall id | id in db.roles :: id in Grant(db, user, role, group).roles
    ensures forall id | id in Grant(db, user, role, group).roles && id !in db.roles ::
      Grant(db, user, role, group).roles[id] == UserRole(user, role, Some(group), None)
    ensures MemberRoles(db.roles) ==> MemberRoles(Grant(db, user, role, group).roles)
  {
  }

  lemma CreateTaskRoles(db: Db, user: int, group: int, title: string, details: string)
    requires RoleIds(db) && CreateTask(db, user, group, title, details).Commit?
    ensures var db' := CreateTask(db, user, group, title, details).db;
      && RowsKept(db, db')
      && (forall id | id in db.roles :: id in db'.roles)
      && (forall id | id in db'.roles && id !in db.roles :: db'.roles[id].user == user && db'.roles[id].role != GroupAdmin)
      && (MemberRoles(db.roles) ==> MemberRoles(db'.roles))
      && db'.members == db.members + {(user, group)}
  {
  }

  lemma JoinRoles(db: Db, tx: Tx, a: Answers, user: int)
    requires RoleIds(db) && Execute(db, tx, a).Commit?
    requires (tx.TJoinGroup? && user == tx.user) || (tx.TApproveJoinRequest? && user == db.requests[tx.request].user)
    ensures Execute(db, tx, a).db.roles == db.roles || Execute(db, tx, a).db.roles == Grant(db, user, Member, tx.group).roles
    ensures RowsKept(db, Execute(db, tx, a).db) && db.members <= Execute(db, tx, a).db.members
    ensures Execute(db, tx, a).db.roles != db.roles ==> (user, tx.group) in Execute(db, tx, a).db.members
  {
    if tx.TApproveJoinRequest? {
      ApprovalEffect(db, tx.caller, tx.group, tx.request, tx.listed);
    }
  }

  lemma LeaveRoles(db: Db, tx: Tx, a: Answers)
    requires RoleIds(db) && (tx.TExitGroup? || tx.TRemoveMember?) && Execute(db, tx, a).Commit?
    ensures Execute(db, tx, a).db == Cleanup(db.(members := db.members - {(tx.user, tx.group)}), tx.user, Member, a.first)
    ensures RowsKept(db, Execute(db, tx, a).db)
  {
  }

  lemma GroupRoles(db: Db, tx: Tx, a: Answers)
    requires RoleIds(db) && (tx.TCreateGroup? || tx.TDeleteGroup?) && Execute(db, tx, a).Commit?
    ensures RowsKept(db, Execute(db, tx, a).db)
    ensures forall id | id in Execute(db, tx, a).db.roles && id !in db.roles :: Execute(db, tx, a).db.roles[id].role == GroupAdmin
  {
  }

  lemma KeepsRows(db: Db, tx: Tx, a: Answers)
    requires RoleIds(db) && Execute(db, tx, a).Commit?
    ensures RowsKept(db, Execute(db, tx, a).db)
  {
    if tx.TCreateTask? {
      CreateTaskRoles(db, tx.user, tx.group, tx.title, tx.details);
    } else if tx.TJoinGroup? {
      JoinRoles(db, tx, a, tx.user);
    } else if tx.TApproveJoinRequest? {
      JoinRoles(db, tx, a, db.requests[tx.request].user);
    } else if tx.TExitGroup? || tx.TRemoveMember? {
      LeaveRoles(db, tx, a);
    } else if tx.TCreateGroup? || tx.TDeleteGroup? {
      GroupRoles(db, tx, a);
    } else {
      OthersLeaveRoles(db, tx, a);
    }
  }

  lemma KeepsMemberRoles(db: Db, tx: Tx, a: Answers)
    requires RoleIds(db) && MemberRoles(db.roles) && Execute(db, tx, a).Commit?
    ensures MemberRoles(Execute(db, tx, a).db.roles)
  {
    if tx.TCreateTask? {
      CreateTaskRoles(db, tx.user, tx.group, tx.title, tx.details);
    } else if tx.TJoinGroup? {
      JoinRoles(db, tx, a, tx.user);
      GrantKeeps(db, tx.user, Member, tx.group);
    } else if tx.TApproveJoinRequest? {
      JoinRoles(db, tx, a, db.requests[tx.request].user);
      GrantKeeps(db, db.requests[tx.request].user, Member, tx.group);
    } else if tx.TExitGroup? || tx.TRemoveMember? {
      LeaveRoles(db, tx, a);
    } else if tx.TCreateGroup? || tx.TDeleteGroup? {
      GroupRoles(db, tx, a);
    } else {
      OthersLeaveRoles(db, tx, a);
    }
  }

  // ---- GROUP_ADMIN rows -----------------------------------------------------------------------

  lemma CreateGroupKeepsAdminRoles(db: Db, user: int, name: string, policy: JoinPolicy, parent: Option<int>, details: string)
    requires Fresh(db) && AdminRoles(db.table, db.roles) && CreateGroup(db, user, name, policy, parent, details).Commit?
    ensures AdminRoles(CreateGroup(db, user, name, policy, parent, details).db.table, CreateGroup(db, user, name, policy, parent, details).db.roles)
  {
    var db' := CreateGroup(db, user, name, policy, parent, details).db;
    var g, row := db.next.group, UserRole(user, GroupAdmin, Some(db.next.group), None);
    assert !ActiveGroup(db.table, g) && !HasRole(db.roles, user, GroupAdmin, g);
    assert db'.roles == db.roles[db.next.role := row] && db'.roles[db.next.role] == row;
    forall x | ActiveGroup(db'.table, x) ensures HasRole(db'.roles, db'.table[GroupE(x)].adminId, GroupAdmin, x) {
      if x != g {
        AdminRowStays(db.table, db.roles, db'.roles, x);
      }
    }
  }

  /** The admin row of a group is found again in any table of roles that kept it. */
  lemma AdminRowStays(t: Table, roles: map<int, UserRole>, roles': map<int, UserRole>, g: int)
    requires ActiveGroup(t, g) && HasRole(roles, t[GroupE(g)].adminId, GroupAdmin, g)
    requires forall id | id in roles && roles[id].role == GroupAdmin && roles[id].group == Some(g) :: id in roles' && roles'[id] == roles[id]
    ensures HasRole(roles', t[GroupE(g)].adminId, GroupAdmin, g)
  {
  }

  /** The cleanup that ends a group deletion finds no row left to delete. */
  lemma DeleteGroupCleansNothing(db: Db, user: int, group: int, a: Answers)
    requires Inv(db) && Possible(db, TDeleteGroup(user, group), a) && DeleteGroup(db, user, group, a).Commit?
    ensures DeleteGroup(db, user, group, a).db == WithoutGroup(db, group, a)
    ensures AdminRoles(DeleteGroup(db, user, group, a).db.table, DeleteGroup(db, user, group, a).db.roles)
  {
    var mid := WithoutGroup(db, group, a);
    assert forall x | x != group :: ActiveGroup(mid.table, x) <==> ActiveGroup(db.table, x);
    forall g | ActiveGroup(mid.table, g) ensures HasRole(mid.roles, mid.table[GroupE(g)].adminId, GroupAdmin, g) {
      AdminRowStays(db.table, db.roles, mid.roles, g);
    }
    forall id | HoldsRole(mid.roles, user, GroupAdmin, id) ensures HasAdminGroup(mid.table, user) {
      assert MyGroup(mid.table, user, mid.roles[id].group.value);
      assert GroupE(mid.roles[id].group.value) in mid.table;
    }
  }

  /** The group's admin and activity survive whatever else the transaction writes. */
  ghost predicate SameGroups(t: Table, t': Table) {
    forall g :: (ActiveGroup(t', g) <==> ActiveGroup(t, g)) && (ActiveGroup(t, g) ==> t'[GroupE(g)].adminId == t[GroupE(g)].adminId)
  }

  lemma OtherWriteKeepsGroups(db: Db, db': Db)
    requires OneWrite(db, db')
    requires |db'.outbox| > |db.outbox| ==> !db'.outbox[|db.outbox|].entity.kind.GroupKind?
    ensures SameGroups(db.table, db'.table)
  {
  }

  lemma UpdateKeepsGroups(db: Db, user: int, group: int, c: GroupChange)
    requires UpdateGroup(db, user, group, c).Commit?
    ensures SameGroups(db.table, UpdateGroup(db, user, group, c).db.table)
  {
  }

  lemma OthersKeepGroups(db: Db, tx: Tx, a: Answers)
    requires Typed(db.table) && Fresh(db) && Execute(db, tx, a).Commit? && !tx.TCreateGroup? && !tx.TDeleteGroup?
    ensures SameGroups(db.table, Execute(db, tx, a).db.table)
  {
    if tx.TUpdateGroup? {
      UpdateKeepsGroups(db, tx.user, tx.group, tx.groupChange);
    } else {
      TransactionWritesOnce(db, tx, a);
      if WritesTask(tx) {
        TaskEntry(db, tx, a);
      } else if WritesComment(tx) {
        CommentEntry(db, tx, a);
      } else if WritesUser(tx) {
        UserEntry(db, tx, a);
      } else {
        OthersWriteNothing(db, tx, a);
      }
      OtherWriteKeepsGroups(db, Execute(db, tx, a).db);
    }
  }

  lemma TaskEntry(db: Db, tx: Tx, a: Answers)
    requires WritesTask(tx) && Execute(db, tx, a).Commit?
    ensures |Execute(db, tx, a).db.outbox| > |db.outbox| && Execute(db, tx, a).db.outbox[|db.outbox|].entity.kind.TaskKind?
  {
  }

  lemma CommentEntry(db: Db, tx: Tx, a: Answers)
    requires WritesComment(tx) && Execute(db, tx, a).Commit?
    ensures |Execute(db, tx, a).db.outbox| > |db.outbox| && Execute(db, tx, a).db.outbox[|db.outbox|].entity.kind.CommentKind?
  {
  }

  lemma UserEntry(db: Db, tx: Tx, a: Answers)
    requires WritesUser(tx) && Execute(db, tx, a).Commit?
    ensures |Execute(db, tx, a).db.outbox| > |db.outbox| && Execute(db, tx, a).db.outbox[|db.outbox|].entity.kind.UserKind?
  {
  }

  lemma GroupEntry(db: Db, tx: Tx, a: Answers)
    requires WritesGroup(tx) && Execute(db, tx, a).Commit?
    ensures |Execute(db, tx, a).db.outbox| > |db.outbox| && Execute(db, tx, a).db.outbox[|db.outbox|].entity.kind.GroupKind?
  {
  }

  predicate SameAdminRows(roles: map<int, UserRole>, roles': map<int, UserRole>) {
    && (forall id | id in roles && roles[id].role == GroupAdmin :: id in roles' && roles'[id] == roles[id])
    && (forall id | id in roles' && roles'[id].role == GroupAdmin :: id in roles && roles'[id] == roles[id])
  }

  lemma OthersKeepAdminRows(db: Db, tx: Tx, a: Answers)
    requires RoleIds(db) && Execute(db, tx, a).Commit? && !tx.TCreateGroup? && !tx.TDeleteGroup?
    ensures SameAdminRows(db.roles, Execute(db, tx, a).db.roles)
  {
    if tx.TCreateTask? {
      CreateTaskRoles(db, tx.user, tx.group, tx.title, tx.details);
    } else if tx.TJoinGroup? {
      JoinRoles(db, tx, a, tx.user);
      GrantKeeps(db, tx.user, Member, tx.group);
    } else if tx.TApproveJoinRequest? {
      JoinRoles(db, tx, a, db.requests[tx.request].user);
      GrantKeeps(db, db.requests[tx.request].user, Member, tx.group);
    } else if tx.TExitGroup? || tx.TRemoveMember? {
      LeaveRoles(db, tx, a);
    } else {
      OthersLeaveRoles(db, tx, a);
    }
  }

  lemma SameKeepsAdminRoles(db: Db, db': Db)
    requires AdminRoles(db.table, db.roles) && SameGroups(db.table, db'.table) && SameAdminRows(db.roles, db'.roles)
    ensures AdminRoles(db'.table, db'.roles)
  {
    forall g | ActiveGroup(db'.table, g) ensures HasRole(db'.roles, db'.table[GroupE(g)].adminId, GroupAdmin, g) {
      AdminRowStays(db.table, db.roles, db'.roles, g);
    }
  }

  lemma KeepsAdminRoles(db: Db, tx: Tx, a: Answers)
    requires Inv(db) && Possible(db, tx, a) && Execute(db, tx, a).Commit?
    ensures AdminRoles(Execute(db, tx, a).db.table, Execute(db, tx, a).db.roles)
  {
    if tx.TCreateGroup? {
      CreateGroupKeepsAdminRoles(db, tx.user, tx.name, tx.policy, tx.parent, tx.details);
    } else if tx.TDeleteGroup? {
      DeleteGroupCleansNothing(db, tx.user, tx.group, a);
    } else {
      OthersKeepGroups(db, tx, a);
      OthersKeepAdminRows(db, tx, a);
      SameKeepsAdminRoles(db, Execute(db, tx, a).db);
    }
  }

  // ---- join requests --------------------------------------------------------------------------

  predicate TouchesRequests(tx: Tx) { AddsRequest(tx) || SetsRequest(tx) }
  predicate AddsRequest(tx: Tx) { tx.TCreateJoinRequest? || tx.TJoinGroup? || tx.TJoinTask? }
  predicate SetsRequest(tx: Tx) { tx.TApproveJoinRequest? || tx.TRejectJoinRequest? || tx.TApproveTaskRequest? || tx.TRejectTaskRequest? }

  predicate RequestIds(db: Db) { forall id | id in db.requests :: id < db.next.request }

  lemma OthersLeaveRequests(db: Db, tx: Tx, a: Answers)
    requires !TouchesRequests(tx) && Execute(db, tx, a).Commit?
    ensures Execute(db, tx, a).db.requests == db.requests && Execute(db, tx, a).db.next.request == db.next.request
  {
  }

  /** A new request is waiting, under a fresh id, and no waiting request has the same target. */
  lemma AddsOneRequest(db: Db, tx: Tx, a: Answers)
    requires AddsRequest(tx) && Execute(db, tx, a).Commit?
    ensures var db' := Execute(db, tx, a).db;
      (db'.requests == db.requests && db'.next.request == db.next.request) ||
      exists r :: && db'.requests == db.requests[db.next.request := r] && db'.next.request == db.next.request + 1 && r.status == Waiting
                  && forall id | id in db.requests && db.requests[id].status == Waiting :: !SameTarget(db.requests[id], r)
  {
  }

  /** A decided request moves to a status of higher rank, approval only from waiting. */
  lemma SetsOneRequest(db: Db, tx: Tx, a: Answers)
    requires SetsRequest(tx) && Execute(db, tx, a).Commit?
    ensures var db' := Execute(db, tx, a).db;
      && tx.request in db.requests && db'.next.request == db.next.request
      && (db'.requests == db.requests[tx.request := db.requests[tx.request].(status := Rejected)] ||
          (db.requests[tx.request].status == Waiting && db'.requests == db.requests[tx.request := db.requests[tx.request].(status := Approved)]))
  {
    if tx.TApproveJoinRequest? {
      ApprovalEffect(db, tx.caller, tx.group, tx.request, tx.listed);
    }
  }

  lemma KeepsPendingUnique(db: Db, tx: Tx, a: Answers)
    requires RequestIds(db) && PendingUnique(db.requests) && Execute(db, tx, a).Commit?
    ensures RequestIds(Execute(db, tx, a).db) && PendingUnique(Execute(db, tx, a).db.requests)
  {
    if AddsRequest(tx) {
      AddsOneRequest(db, tx, a);
    } else if SetsRequest(tx) {
      SetsOneRequest(db, tx, a);
    } else {
      OthersLeaveRequests(db, tx, a);
    }
  }

  // ---- comment threads ------------------------------------------------------------------------

  lemma CreateCommentKeepsForest(db: Db, tx: Tx, a: Answers)
    requires Typed(db.table) && Fresh(db) && Forest(db.table) && tx.TCreateComment? && Execute(db, tx, a).Commit?
    ensures Forest(Execute(db, tx, a).db.table)
  {
  }

  lemma UpdateCommentKeepsForest(db: Db, tx: Tx, a: Answers)
    requires Forest(db.table) && tx.TUpdateComment? && Execute(db, tx, a).Commit?
    ensures Forest(Execute(db, tx, a).db.table)
  {
  }

  lemma DeleteCommentKeepsForest(db: Db, tx: Tx, a: Answers)
    requires Forest(db.table) && tx.TDeleteComment? && Execute(db, tx, a).Commit?
    ensures Forest(Execute(db, tx, a).db.table)
  {
  }

  /** A write to a row that is no comment leaves every thread as it was. */
  lemma OtherWriteKeepsForest(db: Db, db': Db)
    requires Forest(db.table) && OneWrite(db, db')
    requires |db'.outbox| > |db.outbox| ==> !db'.outbox[|db.outbox|].entity.kind.CommentKind?
    ensures Forest(db'.table)
  {
  }

  lemma KeepsForest(db: Db, tx: Tx, a: Answers)
    requires Typed(db.table) && Fresh(db) && Forest(db.table) && Execute(db, tx, a).Commit?
    ensures Forest(Execute(db, tx, a).db.table)
  {
    if tx.TCreateComment? {
      CreateCommentKeepsForest(db, tx, a);
    } else if tx.TUpdateComment? {
      UpdateCommentKeepsForest(db, tx, a);
    } else if tx.TDeleteComment? {
      DeleteCommentKeepsForest(db, tx, a);
    } else {
      TransactionWritesOnce(db, tx, a);
      if WritesGroup(tx) {
        GroupEntry(db, tx, a);
      } else if WritesTask(tx) {
        TaskEntry(db, tx, a);
      } else if WritesUser(tx) {
        UserEntry(db, tx, a);
      } else {
        OthersWriteNothing(db, tx, a);
      }
      OtherWriteKeepsForest(db, Execute(db, tx, a).db);
    }
  }

  // ---- all together ---------------------------------------------------------------------------

  lemma OneWriteKeepsTyped(db: Db, db': Db)
    requires Typed(db.table) && Fresh(db) && OneWrite(db, db')
    ensures Typed(db'.table)
    ensures forall e | e in db'.table :: Issued(db'.next, e)
    ensures forall i | 0 <= i < |db'.outbox| :: Issued(db'.next, db'.outbox[i].entity)
  {
  }

  /** Every transaction, committed or not, keeps the invariant. */
  lemma TransactionKeepsInv(db: Db, tx: Tx, a: Answers)
    requires Inv(db) && Possible(db, tx, a)
    ensures Inv(After(db, Execute(db, tx, a)))
  {
    if Execute(db, tx, a).Commit? {
      CommitKeepsInv(db, tx, a, Execute(db, tx, a).db);
    }
  }

  lemma CommitKeepsInv(db: Db, tx: Tx, a: Answers, db': Db)
    requires Inv(db) && Possible(db, tx, a) && Execute(db, tx, a).Commit? && db' == Execute(db, tx, a).db
    ensures Inv(db')
  {
    TransactionWritesOnce(db, tx, a);
    OneWriteKeepsTyped(db, db');
    KeepsRows(db, tx, a);
    KeepsPendingUnique(db, tx, a);
    KeepsAdminRoles(db, tx, a);
    KeepsMemberRoles(db, tx, a);
    KeepsForest(db, tx, a);
  }
}
