/** The database the transactions work on: indexed tables, link tables, role rows, join requests, outbox. */
module Store {
  import opened Schema

  datatype RoleName = GroupAdmin | Member | Assignee

  datatype UserRole = UserRole(user: int, role: RoleName, group: Option<int>, task: Option<int>)

  datatype RequestStatus = Waiting | Approved | Rejected

  datatype JoinRequest = JoinRequest(user: int, group: int, task: Option<int>, status: RequestStatus)

  /** An outbox row as a transaction writes it. */
  datatype Entry = Entry(etype: EventType, entity: Entity)

  /** The next id each table will hand out. */
  datatype Sequences = Sequences(user: nat, group: nat, task: nat, comment: nat, role: nat, request: nat)

  /** Pairs with a unique constraint are sets: memberships are (user, group), assignees (user, task). */
  datatype Db = Db(
    table: Table,
    members: set<(int, int)>,
    assignees: set<(int, int)>,
    roles: map<int, UserRole>,
    requests: map<int, JoinRequest>,
    outbox: seq<Entry>,
    next: Sequences)

  const EMPTY := Db(map[], {}, {}, map[], map[], [], Sequences(1, 1, 1, 1, 1, 1))

  datatype Error =
    | GroupNameConflict | ForbiddenGroupAccess | GroupNotFound
    | MemberNotFound | MemberAlreadyExists | MemberNotAdmin
    | JoinRequestNotFound | JoinRequestAlreadyExists | JoinRequestAlreadyHandled
    | TaskNotFound | TaskNotInGroup | TaskAccessDenied | ForbiddenTaskAccess | TaskTitleConflict
    | TaskStatusAlreadySet | UserAlreadyInTask | TaskAssigneeNotFound
    | CommentNotFound | CommentForbidden | NotFoundParent
    | UserNotFound | UserAlreadyExists | UserEmailConflict | UserUsernameConflict
    | IntegrityError

  datatype Notice =
    | GroupJoin(requester: int, user: int, group: int)
    | GroupInvite(inviter: int, invitee: int, group: int)
    | RequestCreated(requester: int, admin: int, group: int)
    | RequestApproved(admin: int, user: int, group: int)
    | RequestRejected(admin: int, user: int, group: int)
    | TaskInvite(inviter: int, invitee: int, task: int)

  // ---- reading ------------------------------------------------------------------------------

  function UserE(id: int): Entity { Entity(UserKind, id) }
  function GroupE(id: int): Entity { Entity(GroupKind, id) }
  function TaskE(id: int): Entity { Entity(TaskKind, id) }
  function CommentE(id: int): Entity { Entity(CommentKind, id) }

  predicate IsUser(t: Table, id: int) { UserE(id) in t && t[UserE(id)].UserRow? }
  predicate IsGroup(t: Table, id: int) { GroupE(id) in t && t[GroupE(id)].GroupRow? }
  predicate IsTask(t: Table, id: int) { TaskE(id) in t && t[TaskE(id)].TaskRow? }
  predicate IsComment(t: Table, id: int) { CommentE(id) in t && t[CommentE(id)].CommentRow? }

  predicate ActiveUser(t: Table, id: int) { IsUser(t, id) && t[UserE(id)].active }
  predicate ActiveGroup(t: Table, id: int) { IsGroup(t, id) && t[GroupE(id)].active }
  predicate ActiveTask(t: Table, id: int) { IsTask(t, id) && t[TaskE(id)].active }

  predicate MyGroup(t: Table, user: int, group: int) { ActiveGroup(t, group) && t[GroupE(group)].adminId == user }

  predicate HasRole(roles: map<int, UserRole>, user: int, role: RoleName, group: int) {
    exists id :: id in roles && roles[id].user == user && roles[id].role == role && roles[id].group == Some(group)
  }

  predicate HoldsRole(roles: map<int, UserRole>, user: int, role: RoleName, id: int) {
    id in roles && roles[id].user == user && roles[id].role == role
  }

  /** The access check of the task service: any role row of the user in an active group. */
  predicate AccessGroup(db: Db, user: int, group: int) {
    ActiveGroup(db.table, group) && exists id :: id in db.roles && db.roles[id].user == user && db.roles[id].group == Some(group)
  }

  /** `first` is the group the access query lists first; only that one is compared with the task's group. */
  predicate TaskAccess(db: Db, user: int, task: int, first: int) {
    AccessGroup(db, user, first) && ActiveTask(db.table, task) && db.table[TaskE(task)].groupId == first
  }

  predicate HasPending(db: Db, user: int, group: int) {
    exists id :: id in db.requests && db.requests[id].user == user && db.requests[id].group == group && db.requests[id].status == Waiting
  }

  predicate HasPendingForTask(db: Db, user: int, task: int) {
    exists id :: id in db.requests && db.requests[id].user == user && db.requests[id].task == Some(task) && db.requests[id].status == Waiting
  }

  predicate HasRequest(db: Db, user: int, group: int) {
    exists id :: id in db.requests && db.requests[id].user == user && db.requests[id].group == group
  }

  predicate GroupNamed(t: Table, name: string, except: int) {
    exists e :: e in t && e.kind.GroupKind? && e.id != except && t[e].GroupRow? && t[e].name == name
  }

  predicate ActiveGroupNamed(t: Table, name: string, except: int) {
    exists e :: e in t && e.kind.GroupKind? && e.id != except && t[e].GroupRow? && t[e].name == name && t[e].active
  }

  predicate OwnActiveGroupNamed(t: Table, name: string, admin: int) {
    exists e :: e in t && e.kind.GroupKind? && t[e].GroupRow? && t[e].name == name && t[e].active && t[e].adminId == admin
  }

  predicate HasAdminGroup(t: Table, user: int) {
    exists e :: e in t && e.kind.GroupKind? && t[e].GroupRow? && t[e].active && t[e].adminId == user
  }

  predicate HasMembership(members: set<(int, int)>, user: int) {
    exists m :: m in members && m.0 == user
  }

  predicate TitleTaken(t: Table, group: int, title: string) {
    exists e :: e in t && e.kind.TaskKind? && t[e].TaskRow? && t[e].active && t[e].groupId == group && t[e].title == title
  }

  predicate HasReply(t: Table, comment: int) {
    exists e :: e in t && e.kind.CommentKind? && t[e].CommentRow? && t[e].parent == Some(comment)
  }

  predicate UserNamed(t: Table, name: string, except: int, activeOnly: bool) {
    exists e :: e in t && e.kind.UserKind? && e.id != except && t[e].UserRow? && t[e].username == name && (activeOnly ==> t[e].active)
  }

  predicate UserMailed(t: Table, mail: string, except: int, activeOnly: bool) {
    exists e :: e in t && e.kind.UserKind? && e.id != except && t[e].UserRow? && t[e].email == mail && (activeOnly ==> t[e].active)
  }

  // ---- constraints --------------------------------------------------------------------------

  predicate CanAddMember(db: Db, user: int, group: int) {
    (user, group) !in db.members && IsUser(db.table, user) && IsGroup(db.table, group)
  }

  predicate CanAddAssignee(db: Db, user: int, task: int) {
    (user, task) !in db.assignees && IsUser(db.table, user) && IsTask(db.table, task)
  }

  /** The unique constraint on (user, group, task) lets any number of rows without a task through. */
  predicate CanAddRequest(db: Db, r: JoinRequest) {
    && IsUser(db.table, r.user) && IsGroup(db.table, r.group)
    && (r.task.Some? ==>
          IsTask(db.table, r.task.value) &&
          forall id | id in db.requests :: db.requests[id].user != r.user || db.requests[id].group != r.group || db.requests[id].task != r.task)
  }

  predicate CanAddGroup(db: Db, name: string, admin: int, parent: Option<int>) {
    !GroupNamed(db.table, name, -1) && IsUser(db.table, admin) && (parent.Some? ==> IsGroup(db.table, parent.value))
  }

  // ---- writing ------------------------------------------------------------------------------

  /** Storing a row together with the outbox row that announces it. */
  function Announce(db: Db, etype: EventType, e: Entity, row: Row): Db {
    db.(table := db.table[e := row], outbox := db.outbox + [Entry(etype, e)])
  }

  function AddRole(db: Db, r: UserRole): Db {
    db.(roles := db.roles[db.next.role := r], next := db.next.(role := db.next.role + 1))
  }

  function AddRequest(db: Db, r: JoinRequest): Db {
    db.(requests := db.requests[db.next.request := r], next := db.next.(request := db.next.request + 1))
  }

  function SetStatus(db: Db, id: int, status: RequestStatus): Db
    requires id in db.requests
  {
    db.(requests := db.requests[id := db.requests[id].(status := status)])
  }

  /** `_grant_role_if_not_exists` for a group role. */
  function Grant(db: Db, user: int, role: RoleName, group: int): Db {
    if HasRole(db.roles, user, role, group) then db else AddRole(db, UserRole(user, role, Some(group), None))
  }

  /** `_cleanup_role_if_no_groups`: `answer` is the row the role query returns first, if any matches. */
  function Cleanup(db: Db, user: int, role: RoleName, answer: int): Db {
    var remaining := if role == Member then HasMembership(db.members, user) else HasAdminGroup(db.table, user);
    if remaining || !HoldsRole(db.roles, user, role, answer) then db else db.(roles := db.roles - {answer})
  }

  /** What the database may answer to a query for one role row of the user. */
  ghost predicate RoleAnswer(db: Db, user: int, role: RoleName, answer: int) {
    (exists id :: HoldsRole(db.roles, user, role, id)) ==> HoldsRole(db.roles, user, role, answer)
  }
}
