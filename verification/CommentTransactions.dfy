/** The comment transactions, and the ones on user profiles. */
module CommentTransactions {
  import opened Schema
  import opened Store
  import opened TransactionBase
  import opened Transactions
  import opened UnitOfWork

  method Create(uow: UnitOfWork, user: int, task: int, content: string, parent: Option<int>) returns (raised: Option<Error>)
    modifies uow
    ensures Did(CreateComment(old(uow.db), user, task, content, parent), raised, old(uow.events), uow)
  {
    if !ActiveTask(uow.db.table, task) {
      return Some(TaskNotFound);
    }
    if parent.Some? {
      if !IsComment(uow.db.table, parent.value) {
        return Some(NotFoundParent);
      }
      if uow.db.table[CommentE(parent.value)].taskId != task {
        return Some(NotFoundParent);
      }
    }
    if !IsUser(uow.db.table, user) {
      return Some(IntegrityError);
    }
    var c := uow.db.next.comment;
    uow.db := uow.db.(next := uow.db.next.(comment := c + 1));
    uow.SaveRow(CommentE(c), CommentRow(task, user, content, parent));
    uow.AddOutbox(Created, CommentE(c));
    return None;
  }

  method Update(uow: UnitOfWork, user: int, comment: int, content: string) returns (raised: Option<Error>)
    modifies uow
    ensures Did(UpdateComment(old(uow.db), user, comment, content), raised, old(uow.events), uow)
  {
    if !IsComment(uow.db.table, comment) {
      return Some(CommentNotFound);
    }
    if uow.db.table[CommentE(comment)].userId != user {
      return Some(CommentForbidden);
    }
    uow.SaveRow(CommentE(comment), uow.db.table[CommentE(comment)].(content := content));
    uow.AddOutbox(Updated, CommentE(comment));
    return None;
  }

  /** The foreign key from replies to their parent refuses the delete while a reply exists. */
  method Delete(uow: UnitOfWork, user: int, comment: int) returns (raised: Option<Error>)
    modifies uow
    ensures Did(DeleteComment(old(uow.db), user, comment), raised, old(uow.events), uow)
  {
    if !IsComment(uow.db.table, comment) {
      return Some(CommentNotFound);
    }
    if uow.db.table[CommentE(comment)].userId != user {
      return Some(CommentForbidden);
    }
    if HasReply(uow.db.table, comment) {
      return Some(IntegrityError);
    }
    uow.db := uow.db.(table := uow.db.table - {CommentE(comment)});
    uow.AddOutbox(Deleted, CommentE(comment));
    return None;
  }

  method RegisterUser(uow: UnitOfWork, username: string, email: string, details: string) returns (raised: Option<Error>)
    modifies uow
    ensures Did(Register(old(uow.db), username, email, details), raised, old(uow.events), uow)
  {
    if UserNamed(uow.db.table, username, -1, false) || UserMailed(uow.db.table, email, -1, false) {
      return Some(UserAlreadyExists);
    }
    var u := uow.db.next.user;
    uow.db := uow.db.(next := uow.db.next.(user := u + 1));
    uow.SaveRow(UserE(u), UserRow(username, email, details, true));
    uow.AddOutbox(Created, UserE(u));
    return None;
  }

  method UpdateMyProfile(uow: UnitOfWork, user: int, c: UserChange) returns (raised: Option<Error>)
    modifies uow
    ensures Did(UpdateProfile(old(uow.db), user, c), raised, old(uow.events), uow)
  {
    if !ActiveUser(uow.db.table, user) {
      return Some(UserNotFound);
    }
    if c.email.Some? && c.email.value != "" && UserMailed(uow.db.table, c.email.value, -1, true) {
      return Some(UserEmailConflict);
    }
    if c.username.Some? && c.username.value != "" && UserNamed(uow.db.table, c.username.value, -1, true) {
      return Some(UserUsernameConflict);
    }
    if (c.email.Some? && UserMailed(uow.db.table, c.email.value, user, false)) ||
       (c.username.Some? && UserNamed(uow.db.table, c.username.value, user, false)) {
      return Some(IntegrityError);
    }
    uow.SaveRow(UserE(user), ChangedUser(uow.db.table[UserE(user)], c));
    uow.AddOutbox(Updated, UserE(user));
    return None;
  }

  method DeleteMyProfile(uow: UnitOfWork, user: int) returns (raised: Option<Error>)
    modifies uow
    ensures Did(DeleteProfile(old(uow.db), user), raised, old(uow.events), uow)
  {
    if !ActiveUser(uow.db.table, user) {
      return Some(UserNotFound);
    }
    uow.SaveRow(UserE(user), Deactivated(uow.db.table[UserE(user)]));
    uow.AddOutbox(Deleted, UserE(user));
    return None;
  }
}
