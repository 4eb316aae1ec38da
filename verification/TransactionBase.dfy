/** What the transaction services share: notifications, what a body promises, and granting a role. */
module TransactionBase {
  import opened Schema
  import opened Store
  import opened Transactions
  import opened UnitOfWork

  class NotificationService {
    var sent: seq<Notice>

    constructor ()
      ensures sent == []
    {
      sent := [];
    }

    method Notify(n: Notice)
      modifies this
      ensures sent == old(sent) + [n]
    {
      sent := sent + [n];
    }
  }

  /** What a body that ran inside `uow` did: raised what the outcome raises, or left what it commits. */
  ghost predicate Did(o: Outcome, raised: Option<Error>, events: seq<Notice>, uow: UnitOfWork)
    reads uow
  {
    match o
    case Commit(db, notices) => raised.None? && uow.db == db && uow.events == events + notices
    case Raise(e) => raised == Some(e)
  }

  /** The insert violates the foreign key if there is no such user. */
  method GrantRoleIfNotExists(uow: UnitOfWork, user: int, role: RoleName, group: int) returns (ok: bool)
    modifies uow`db
    ensures ok <==> HasRole(old(uow.db).roles, user, role, group) || IsUser(old(uow.db).table, user)
    ensures uow.db == if ok then Grant(old(uow.db), user, role, group) else old(uow.db)
  {
    var existing := uow.FindGroupRole(user, role, group);
    ok := true;
    if existing.None? {
      ok := uow.AddUserRole(UserRole(user, role, Some(group), None));
    }
  }
}
