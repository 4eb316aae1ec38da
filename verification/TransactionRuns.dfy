/** Runs of serial transactions from an empty database, and what holds along every one of them. */
module TransactionRuns {
  import opened Schema
  import opened Store
  import opened Transactions
  import opened TransactionInvariants

  datatype Call = Call(tx: Tx, answers: Answers)

  /** The committed database and the notifications handed to the notification service so far. */
  datatype System = System(db: Db, sent: seq<Notice>)

  const START := System(EMPTY, [])

  function Perform(s: System, c: Call): System {
    var o := Execute(s.db, c.tx, c.answers);
    System(After(s.db, o), s.sent + Notices(o))
  }

  function Run(s: System, calls: seq<Call>): System {
    if calls == [] then s else Perform(Run(s, calls[..|calls| - 1]), calls[|calls| - 1])
  }

  ghost predicate Legal(s: System, calls: seq<Call>) {
    calls == [] ||
    (Legal(s, calls[..|calls| - 1]) && Possible(Run(s, calls[..|calls| - 1]).db, calls[|calls| - 1].tx, calls[|calls| - 1].answers))
  }

  lemma {:induction false} EveryRunKeepsInv(calls: seq<Call>)
    requires Legal(START, calls)
    ensures Inv(Run(START, calls).db)
  {
    if calls != [] {
      var front, last := calls[..|calls| - 1], calls[|calls| - 1];
      EveryRunKeepsInv(front);
      TransactionKeepsInv(Run(START, front).db, last.tx, last.answers);
    }
  }

  // ---- commit and rollback ---------------------------------------------------------------------

  /** The calls of a run that commit, in order. */
  function Committed(s: System, calls: seq<Call>): seq<Call> {
    if calls == [] then []
    else
      var front, last := calls[..|calls| - 1], calls[|calls| - 1];
      Committed(s, front) + if Execute(Run(s, front).db, last.tx, last.answers).Commit? then [last] else []
  }

  predicate AllCommit(s: System, calls: seq<Call>) {
    calls == [] ||
    (AllCommit(s, calls[..|calls| - 1]) &&
     Execute(Run(s, calls[..|calls| - 1]).db, calls[|calls| - 1].tx, calls[|calls| - 1].answers).Commit?)
  }

  /** A raised error changes neither the database nor what is sent: only the committed calls count. */
  lemma {:induction false} OnlyCommittedCount(s: System, calls: seq<Call>)
    ensures Run(s, Committed(s, calls)) == Run(s, calls)
    ensures AllCommit(s, Committed(s, calls))
  {
    if calls != [] {
      var front, last := calls[..|calls| - 1], calls[|calls| - 1];
      OnlyCommittedCount(s, front);
      if Execute(Run(s, front).db, last.tx, last.answers).Commit? {
        var all := Committed(s, front) + [last];
        assert all[..|all| - 1] == Committed(s, front);
      } else {
        assert Committed(s, calls) == Committed(s, front);
      }
    }
  }

  /** The notices of a run's calls, one call after the other. */
  function NoticesOf(s: System, calls: seq<Call>): seq<Notice> {
    if calls == [] then []
    else
      var front, last := calls[..|calls| - 1], calls[|calls| - 1];
      NoticesOf(s, front) + Notices(Execute(Run(s, front).db, last.tx, last.answers))
  }

  lemma Append(a: seq<Notice>, b: seq<Notice>, c: seq<Notice>)
    ensures (a + b) + c == a + (b + c)
  {
  }

  lemma {:induction false} SentInOrder(s: System, calls: seq<Call>)
    ensures Run(s, calls).sent == s.sent + NoticesOf(s, calls)
  {
    if calls != [] {
      var front, last := calls[..|calls| - 1], calls[|calls| - 1];
      SentInOrder(s, front);
      Append(s.sent, NoticesOf(s, front), Notices(Execute(Run(s, front).db, last.tx, last.answers)));
    }
  }

  // ---- join requests --------------------------------------------------------------------------

  function Rank(s: RequestStatus): nat {
    match s
    case Waiting => 0
    case Approved => 1
    case Rejected => 2
  }

  /** Requests keep who they are about, never step back, and are approved only from waiting. */
  predicate RequestsAdvance(a: map<int, JoinRequest>, b: map<int, JoinRequest>) {
    forall id | id in a ::
      && id in b && b[id].user == a[id].user && b[id].group == a[id].group && b[id].task == a[id].task
      && Rank(a[id].status) <= Rank(b[id].status)
      && (b[id].status == Approved ==> a[id].status == Waiting || a[id].status == Approved)
  }

  lemma StepAdvancesRequests(db: Db, tx: Tx, a: Answers)
    requires RequestIds(db)
    ensures RequestsAdvance(db.requests, After(db, Execute(db, tx, a)).requests)
  {
    if Execute(db, tx, a).Commit? {
      if AddsRequest(tx) {
        AddsOneRequest(db, tx, a);
      } else if SetsRequest(tx) {
        SetsOneRequest(db, tx, a);
      } else {
        OthersLeaveRequests(db, tx, a);
      }
    }
  }

  lemma {:induction false} EveryRunAdvancesRequests(calls: seq<Call>, n: nat)
    requires Legal(START, calls) && n <= |calls|
    ensures RequestsAdvance(Run(START, calls[..n]).db.requests, Run(START, calls).db.requests)
    decreases |calls|
  {
    if n == |calls| {
      assert calls[..n] == calls;
    } else {
      var front, last := calls[..|calls| - 1], calls[|calls| - 1];
      assert calls[..n] == front[..n];
      EveryRunAdvancesRequests(front, n);
      EveryRunKeepsInv(front);
      StepAdvancesRequests(Run(START, front).db, last.tx, last.answers);
    }
  }

  lemma ApprovalAdds(db: Db, caller: int, group: int, request: int, listed: int)
    requires ApproveJoinRequest(db, caller, group, request, listed).Commit?
    ensures var o, r := ApproveJoinRequest(db, caller, group, request, listed), db.requests[request];
      && r.group == group && MyGroup(db.table, caller, group) && (r.user, group) !in db.members
      && (if r.task.Some? && ActiveTask(db.table, r.task.value) then
            && (r.user, r.task.value) !in db.assignees
            && o.db.assignees == db.assignees + {(r.user, r.task.value)}
            && o.db.members == db.members + {(r.user, group), (r.user, db.table[TaskE(r.task.value)].groupId)}
          else o.db.assignees == db.assignees && o.db.members == db.members + {(r.user, group)})
      && o.notices != [] && o.notices[|o.notices| - 1] == RequestApproved(caller, r.user, group)
  {
  }

  lemma GrantedOnce(db: Db, user: int, group: int)
    requires RoleIds(db) && MemberRoles(db.roles)
    ensures var roles := Grant(db, user, Member, group).roles;
      && (exists id :: id in roles && roles[id] == UserRole(user, Member, Some(group), None))
      && (forall x, y | x in roles && y in roles && roles[x] == roles[y] == UserRole(user, Member, Some(group), None) :: x == y)
  {
    GrantKeeps(db, user, Member, group);
    var roles := Grant(db, user, Member, group).roles;
    if HasRole(db.roles, user, Member, group) {
      var id :| id in db.roles && db.roles[id].user == user && db.roles[id].role == Member && db.roles[id].group == Some(group);
      assert roles[id] == UserRole(user, Member, Some(group), None);
    } else {
      assert roles[db.next.role] == UserRole(user, Member, Some(group), None);
    }
  }

  /**
   Approving a group request is all or nothing. On success the request was waiting, the user was no
   member, and now is one with exactly one MEMBER row there. If the request names an active task, the
   user also becomes its assignee and a member of its group; nothing else moves.
   */
  lemma ApproveAllOrNothing(db: Db, caller: int, group: int, request: int, listed: int)
    requires Inv(db)
    ensures var o := ApproveJoinRequest(db, caller, group, request, listed);
      o.Raise? ==> After(db, o) == db && Notices(o) == []
    ensures var o := ApproveJoinRequest(db, caller, group, request, listed);
      o.Commit? ==>
        var r := db.requests[request];
        && r.group == group && r.status == Waiting && MyGroup(db.table, caller, group) && (r.user, group) !in db.members
        && o.db.requests == db.requests[request := r.(status := Approved)]
        && o.db.table == db.table && o.db.outbox == db.outbox
        && (if r.task.Some? && ActiveTask(db.table, r.task.value) then
              && (r.user, r.task.value) !in db.assignees
              && o.db.assignees == db.assignees + {(r.user, r.task.value)}
              && o.db.members == db.members + {(r.user, group), (r.user, db.table[TaskE(r.task.value)].groupId)}
            else o.db.assignees == db.assignees && o.db.members == db.members + {(r.user, group)})
        && (forall id | id in db.roles :: id in o.db.roles && o.db.roles[id] == db.roles[id])
        && (exists id :: id in o.db.roles && o.db.roles[id] == UserRole(r.user, Member, Some(group), None))
        && (forall x, y | x in o.db.roles && y in o.db.roles && o.db.roles[x] == o.db.roles[y] == UserRole(r.user, Member, Some(group), None) :: x == y)
        && (forall id | id in o.db.roles && id !in db.roles :: o.db.roles[id] == UserRole(r.user, Member, Some(group), None))
        && o.notices != [] && o.notices[|o.notices| - 1] == RequestApproved(caller, r.user, group)
  {
    if ApproveJoinRequest(db, caller, group, request, listed).Commit? {
      ApprovalEffect(db, caller, group, request, listed);
      ApprovalAdds(db, caller, group, request, listed);
      GrantedOnce(db, db.requests[request].user, group);
    }
  }

  // ---- MEMBER rows and memberships --------------------------------------------------------------

  ghost predicate HasMemberRow(db: Db, user: int) { exists id :: HoldsRole(db.roles, user, Member, id) }

  ghost predicate TwoMemberRows(db: Db, user: int) {
    exists x, y :: x != y && HoldsRole(db.roles, user, Member, x) && HoldsRole(db.roles, user, Member, y)
  }

  /** A user with a MEMBER row is a member of some group. */
  ghost predicate Backed(db: Db, user: int) { HasMemberRow(db, user) ==> HasMembership(db.members, user) }

  /** A MEMBER row disappears only in a step that leaves its user in no group at all. */
  lemma MemberRowGoesWithLastMembership(db: Db, tx: Tx, a: Answers, id: int)
    requires Inv(db) && Possible(db, tx, a)
    requires id in db.roles && db.roles[id].role == Member && id !in After(db, Execute(db, tx, a)).roles
    ensures HasMembership(db.members, db.roles[id].user) && !HasMembership(After(db, Execute(db, tx, a)).members, db.roles[id].user)
  {
    var db' := After(db, Execute(db, tx, a));
    if tx.TExitGroup? || tx.TRemoveMember? {
      LeaveRoles(db, tx, a);
      assert (tx.user, tx.group) in db.members;
      assert id == a.first && db.roles[id].user == tx.user;
    } else if tx.TDeleteGroup? {
      DeleteGroupCleansNothing(db, tx.user, tx.group, a);
      assert false;
    } else {
      MemberRowsStay(db, tx, a);
      assert false;
    }
  }

  lemma MemberRowsStay(db: Db, tx: Tx, a: Answers)
    requires RoleIds(db) && Execute(db, tx, a).Commit? && !tx.TExitGroup? && !tx.TRemoveMember? && !tx.TDeleteGroup?
    ensures forall id | id in db.roles :: id in Execute(db, tx, a).db.roles
  {
    if tx.TCreateTask? {
      CreateTaskRoles(db, tx.user, tx.group, tx.title, tx.details);
    } else if tx.TJoinGroup? {
      JoinRoles(db, tx, a, tx.user);
      GrantKeeps(db, tx.user, Member, tx.group);
    } else if tx.TApproveJoinRequest? {
      JoinRoles(db, tx, a, db.requests[tx.request].user);
      GrantKeeps(db, db.requests[tx.request].user, Member, tx.group);
    } else if !tx.TCreateGroup? {
      OthersLeaveRoles(db, tx, a);
    }
  }

  /** A new MEMBER row comes with a membership, and nobody else's membership is taken away. */
  lemma OthersKeepMemberRows(db: Db, tx: Tx, a: Answers, user: int)
    requires RoleIds(db) && Execute(db, tx, a).Commit? && !((tx.TExitGroup? || tx.TRemoveMember?) && tx.user == user)
    ensures forall m | m in db.members && m.0 == user :: m in Execute(db, tx, a).db.members
    ensures forall id | HoldsRole(Execute(db, tx, a).db.roles, user, Member, id) ::
      HoldsRole(db.roles, user, Member, id) || exists g :: (user, g) in Execute(db, tx, a).db.members
  {
    if tx.TCreateTask? {
      CreateTaskRoles(db, tx.user, tx.group, tx.title, tx.details);
      assert (tx.user, tx.group) in Execute(db, tx, a).db.members;
    } else if tx.TJoinGroup? {
      JoinRoles(db, tx, a, tx.user);
      GrantKeeps(db, tx.user, Member, tx.group);
    } else if tx.TApproveJoinRequest? {
      JoinRoles(db, tx, a, db.requests[tx.request].user);
      GrantKeeps(db, db.requests[tx.request].user, Member, tx.group);
    } else if tx.TExitGroup? || tx.TRemoveMember? {
      LeaveRoles(db, tx, a);
    } else if tx.TCreateGroup? || tx.TDeleteGroup? {
      GroupRoles(db, tx, a);
    } else {
      OthersLeaveRoles(db, tx, a);
    }
  }

  /** The user leaves or is taken out of a group, and it is the only one. */
  ghost predicate LosesLastGroup(db: Db, tx: Tx, user: int) {
    && (tx.TExitGroup? || (tx.TRemoveMember? && MyGroup(db.table, tx.caller, tx.group)))
    && tx.user == user && (user, tx.group) in db.members
    && forall m | m in db.members && m.0 == user :: m.1 == tx.group
  }

  lemma LosesIffNoneLeft(db: Db, tx: Tx, a: Answers, user: int)
    requires (tx.TExitGroup? || tx.TRemoveMember?) && tx.user == user && Execute(db, tx, a).Commit?
    ensures LosesLastGroup(db, tx, user) <==> !HasMembership(Execute(db, tx, a).db.members, user)
    ensures HasMembership(db.members, user)
  {
    var members := Execute(db, tx, a).db.members;
    assert (user, tx.group) in db.members && members == db.members - {(user, tx.group)};
    if m :| m in db.members && m.0 == user && m.1 != tx.group {
      assert m in members;
    }
  }

  /**
   The cleanup deletes one row. So the rule that MEMBER rows are backed by a membership is lost
   exactly when a user with two of them leaves the only group.
   */
  lemma BackedUnlessTwoRows(db: Db, tx: Tx, a: Answers, user: int)
    requires Inv(db) && Possible(db, tx, a) && Backed(db, user)
    ensures !Backed(After(db, Execute(db, tx, a)), user) <==> TwoMemberRows(db, user) && LosesLastGroup(db, tx, user)
  {
    var o := Execute(db, tx, a);
    if o.Commit? {
      if (tx.TExitGroup? || tx.TRemoveMember?) && tx.user == user {
        LosesIffNoneLeft(db, tx, a, user);
        LastExit(db, tx.group, user, a);
      } else {
        OthersKeepMemberRows(db, tx, a, user);
        if HasMembership(db.members, user) {
          var m :| m in db.members && m.0 == user;
          assert m in o.db.members;
        }
      }
    }
  }

  lemma LastExit(db: Db, group: int, user: int, a: Answers)
    requires Inv(db) && ExitGroup(db, group, user, a).Commit? && RoleAnswer(db, user, Member, a.first) && Backed(db, user)
    ensures var db' := ExitGroup(db, group, user, a).db;
      !Backed(db', user) <==> TwoMemberRows(db, user) && !HasMembership(db'.members, user)
    ensures HasMembership(db.members, user)
  {
    var db' := ExitGroup(db, group, user, a).db;
    assert (user, group) in db.members;
    if !HasMembership(db'.members, user) {
      if x, y :| x != y && HoldsRole(db.roles, user, Member, x) && HoldsRole(db.roles, user, Member, y) {
        assert HoldsRole(db'.roles, user, Member, if x == a.first then y else x);
      }
      if id :| HoldsRole(db'.roles, user, Member, id) {
        assert HoldsRole(db.roles, user, Member, id) && id != a.first;
      }
    }
  }

  /**
   Leaving a group does not take its MEMBER row away: the row stays exactly if the user is still in some
   other group, or the one row the cleanup deletes is another group's.
   */
  lemma RoleSurvivesLeaving(db: Db, group: int, user: int, a: Answers)
    requires Inv(db) && ExitGroup(db, group, user, a).Commit? && RoleAnswer(db, user, Member, a.first)
    ensures HasRole(ExitGroup(db, group, user, a).db.roles, user, Member, group) <==>
      && HasRole(db.roles, user, Member, group)
      && ((exists m :: m in db.members && m.0 == user && m.1 != group) ||
          Lookup(db.roles, a.first) != Some(UserRole(user, Member, Some(group), None)))
  {
    var db' := ExitGroup(db, group, user, a).db;
    LosesIffNoneLeft(db, TExitGroup(group, user), a, user);
    if id :| id in db.roles && HoldsRole(db.roles, user, Member, id) && db.roles[id].group == Some(group) {
      assert db.roles[id] == UserRole(user, Member, Some(group), None);
      if id in db'.roles {
        assert db'.roles[id] == db.roles[id];
      }
    }
  }

  /** Leaving undoes joining, for a user who was nowhere a member: only a role id has been used up. */
  lemma LeavingUndoesJoining(db: Db, group: int, user: int, a: Answers)
    requires Inv(db) && JoinGroup(db, group, user).Commit? && db.table[GroupE(group)].joinPolicy == OpenJoin
    requires !HasMembership(db.members, user) && !HasMemberRow(db, user)
    requires RoleAnswer(JoinGroup(db, group, user).db, user, Member, a.first)
    ensures ExitGroup(JoinGroup(db, group, user).db, group, user, a) == Commit(db.(next := db.next.(role := db.next.role + 1)), [])
  {
    var joined := JoinGroup(db, group, user).db;
    assert !HasRole(db.roles, user, Member, group) by {
      if id :| id in db.roles && db.roles[id].user == user && db.roles[id].role == Member && db.roles[id].group == Some(group) {
        assert HoldsRole(db.roles, user, Member, id);
      }
    }
    assert db.next.role !in db.roles;
    assert HoldsRole(joined.roles, user, Member, db.next.role);
    assert forall id | HoldsRole(joined.roles, user, Member, id) && id != db.next.role :: HoldsRole(db.roles, user, Member, id);
    assert a.first == db.next.role;
    assert joined.roles - {db.next.role} == db.roles;
    assert joined.members - {(user, group)} == db.members by {
      assert (user, group) !in db.members;
    }
  }

  /** Along a run in which a user never holds two MEMBER rows, a MEMBER row means membership. */
  lemma {:induction false} EveryRunBacked(calls: seq<Call>, user: int)
    requires Legal(START, calls)
    requires forall n | 0 <= n <= |calls| :: !TwoMemberRows(Run(START, calls[..n]).db, user)
    ensures Backed(Run(START, calls).db, user)
  {
    if calls != [] {
      var front, last := calls[..|calls| - 1], calls[|calls| - 1];
      forall n | 0 <= n <= |front| ensures !TwoMemberRows(Run(START, front[..n]).db, user) {
        assert front[..n] == calls[..n];
      }
      EveryRunBacked(front, user);
      EveryRunKeepsInv(front);
      assert calls[..|front|] == front;
      BackedUnlessTwoRows(Run(START, front).db, last.tx, last.answers, user);
    }
  }

  const ANYONE := Answers(1, 1)

  /** Two users, two open groups of the first; the second joins both and leaves both. */
  const REGISTERED := [Call(TRegister("ann", "ann@x", ""), ANYONE)] + [Call(TRegister("bob", "bob@x", ""), ANYONE)]
  const GROUPED := REGISTERED + [Call(TCreateGroup(1, "g", OpenJoin, None, ""), ANYONE)] + [Call(TCreateGroup(1, "h", OpenJoin, None, ""), ANYONE)]
  const JOINED := GROUPED + [Call(TJoinGroup(1, 2), ANYONE)] + [Call(TJoinGroup(2, 2), ANYONE)]
  const JOIN_TWICE_LEAVE_TWICE := JOINED + [Call(TExitGroup(1, 2), Answers(3, 3))] + [Call(TExitGroup(2, 2), Answers(3, 3))]

  lemma LegalSnoc(s: System, calls: seq<Call>, c: Call)
    ensures Run(s, calls + [c]) == Perform(Run(s, calls), c)
    ensures Legal(s, calls + [c]) <==> Legal(s, calls) && Possible(Run(s, calls).db, c.tx, c.answers)
  {
  }

  /** One more call, given what it does to the database the earlier calls left. */
  lemma CallStep(calls: seq<Call>, c: Call, before: Db, o: Outcome)
    requires Legal(START, calls) && Run(START, calls).db == before
    requires Possible(before, c.tx, c.answers) && Execute(before, c.tx, c.answers) == o
    ensures Legal(START, calls + [c]) && Run(START, calls + [c]).db == After(before, o)
  {
    LegalSnoc(START, calls, c);
  }

  const ANN := UserRow("ann", "ann@x", "", true)
  const BOB := UserRow("bob", "bob@x", "", true)
  const G := GroupRow("g", 1, OpenJoin, None, "", true)
  const H := GroupRow("h", 1, OpenJoin, None, "", true)

  const TWO_USERS := Db(
    map[UserE(1) := ANN, UserE(2) := BOB], {}, {}, map[], map[],
    [Entry(Created, UserE(1)), Entry(Created, UserE(2))], Sequences(3, 1, 1, 1, 1, 1))

  const TWO_GROUPS := Db(
    TWO_USERS.table[GroupE(1) := G][GroupE(2) := H], {(1, 1), (1, 2)}, {},
    map[1 := UserRole(1, GroupAdmin, Some(1), None), 2 := UserRole(1, GroupAdmin, Some(2), None)], map[],
    TWO_USERS.outbox + [Entry(Created, GroupE(1)), Entry(Created, GroupE(2))], Sequences(3, 3, 1, 1, 3, 1))

  const JOINED_BOTH := TWO_GROUPS.(
    members := {(1, 1), (1, 2), (2, 1), (2, 2)},
    roles := TWO_GROUPS.roles[3 := UserRole(2, Member, Some(1), None)][4 := UserRole(2, Member, Some(2), None)],
    next := Sequences(3, 3, 1, 1, 5, 1))

  lemma RegisterBoth(d: Db)
    requires Register(EMPTY, "ann", "ann@x", "") == Commit(d, [])
    ensures Register(d, "bob", "bob@x", "") == Commit(TWO_USERS, [])
  {
    assert d.outbox == [Entry(Created, UserE(1))];
    assert d.outbox + [Entry(Created, UserE(2))] == TWO_USERS.outbox;
  }

  lemma CreateBoth(d: Db)
    requires CreateGroup(TWO_USERS, 1, "g", OpenJoin, None, "") == Commit(d, [])
    ensures CreateGroup(d, 1, "h", OpenJoin, None, "") == Commit(TWO_GROUPS, [])
  {
    assert d.outbox + [Entry(Created, GroupE(2))] == TWO_GROUPS.outbox;
    assert d.members + {(1, 2)} == TWO_GROUPS.members;
    assert d.table == TWO_USERS.table[GroupE(1) := G];
  }

  lemma JoinBoth(d: Db)
    requires JoinGroup(TWO_GROUPS, 1, 2) == Commit(d, [GroupJoin(2, 1, 1)])
    ensures JoinGroup(d, 2, 2) == Commit(JOINED_BOTH, [GroupJoin(2, 1, 2)])
  {
    assert d.members + {(2, 2)} == JOINED_BOTH.members;
  }

  lemma FirstCallsCommit()
    ensures Register(EMPTY, "ann", "ann@x", "").Commit? && Register(EMPTY, "ann", "ann@x", "").notices == []
    ensures CreateGroup(TWO_USERS, 1, "g", OpenJoin, None, "").Commit? && CreateGroup(TWO_USERS, 1, "g", OpenJoin, None, "").notices == []
    ensures JoinGroup(TWO_GROUPS, 1, 2).Commit? && JoinGroup(TWO_GROUPS, 1, 2).notices == [GroupJoin(2, 1, 1)]
  {
  }

  lemma LeaveBoth(d: Db, d': Db)
    requires ExitGroup(JOINED_BOTH, 1, 2, Answers(3, 3)) == Commit(d, [])
    requires ExitGroup(d, 2, 2, Answers(3, 3)) == Commit(d', [])
    ensures RoleAnswer(d, 2, Member, 3) && !Backed(d', 2)
  {
    assert (2, 2) in d.members && d.roles == JOINED_BOTH.roles;
    assert HoldsRole(d'.roles, 2, Member, 4);
  }

  lemma LeavesCommit(d: Db)
    ensures ExitGroup(JOINED_BOTH, 1, 2, Answers(3, 3)).Commit? && ExitGroup(JOINED_BOTH, 1, 2, Answers(3, 3)).notices == []
    ensures ExitGroup(JOINED_BOTH, 1, 2, Answers(3, 3)) == Commit(d, []) ==>
      ExitGroup(d, 2, 2, Answers(3, 3)).Commit? && ExitGroup(d, 2, 2, Answers(3, 3)).notices == []
  {
  }

  lemma UsersStage()
    ensures Legal(START, REGISTERED) && Run(START, REGISTERED).db == TWO_USERS
  {
    FirstCallsCommit();
    var c, o := Call(TRegister("ann", "ann@x", ""), ANYONE), Register(EMPTY, "ann", "ann@x", "");
    CallStep([], c, EMPTY, o);
    assert [] + [c] == [c];
    RegisterBoth(o.db);
    CallStep([c], Call(TRegister("bob", "bob@x", ""), ANYONE), o.db, Commit(TWO_USERS, []));
  }

  lemma GroupsStage()
    ensures Legal(START, GROUPED) && Run(START, GROUPED).db == TWO_GROUPS
  {
    UsersStage();
    FirstCallsCommit();
    var c, o := Call(TCreateGroup(1, "g", OpenJoin, None, ""), ANYONE), CreateGroup(TWO_USERS, 1, "g", OpenJoin, None, "");
    CallStep(REGISTERED, c, TWO_USERS, o);
    CreateBoth(o.db);
    CallStep(REGISTERED + [c], Call(TCreateGroup(1, "h", OpenJoin, None, ""), ANYONE), o.db, Commit(TWO_GROUPS, []));
  }

  lemma JoinedStage()
    ensures Legal(START, JOINED) && Run(START, JOINED).db == JOINED_BOTH
  {
    GroupsStage();
    FirstCallsCommit();
    var c, o := Call(TJoinGroup(1, 2), ANYONE), JoinGroup(TWO_GROUPS, 1, 2);
    CallStep(GROUPED, c, TWO_GROUPS, o);
    JoinBoth(o.db);
    CallStep(GROUPED + [c], Call(TJoinGroup(2, 2), ANYONE), o.db, Commit(JOINED_BOTH, [GroupJoin(2, 1, 2)]));
  }

  /** The rule can be lost: this run ends with a MEMBER row of a user who is in no group. */
  lemma UnbackedIsReachable()
    ensures Legal(START, JOIN_TWICE_LEAVE_TWICE)
    ensures !Backed(Run(START, JOIN_TWICE_LEAVE_TWICE).db, 2)
  {
    JoinedStage();
    var o := ExitGroup(JOINED_BOTH, 1, 2, Answers(3, 3));
    LeavesCommit(o.db);
    var o' := ExitGroup(o.db, 2, 2, Answers(3, 3));
    LeaveBoth(o.db, o'.db);
    assert HoldsRole(JOINED_BOTH.roles, 2, Member, 3);
    var c := Call(TExitGroup(1, 2), Answers(3, 3));
    CallStep(JOINED, c, JOINED_BOTH, o);
    CallStep(JOINED + [c], Call(TExitGroup(2, 2), Answers(3, 3)), o.db, o');
  }

  // ---- comment threads ------------------------------------------------------------------------

  /** Following parents from a comment ends at a comment without one, and never leaves the task. */
  function RootOf(db: Db, comment: int): (root: int)
    requires Fresh(db) && Forest(db.table) && IsComment(db.table, comment)
    ensures IsComment(db.table, root) && db.table[CommentE(root)].parent.None? && root <= comment
    ensures db.table[CommentE(root)].taskId == db.table[CommentE(comment)].taskId
    decreases comment
  {
    assert Issued(db.next, CommentE(comment));
    var row := db.table[CommentE(comment)];
    if row.parent.None? then comment else
      assert Issued(db.next, CommentE(row.parent.value));
      RootOf(db, row.parent.value)
  }

  /** In every reachable state every comment has such a root. */
  lemma EveryThreadHasRoot(calls: seq<Call>, comment: int)
    requires Legal(START, calls)
    ensures var t := Run(START, calls).db.table;
      IsComment(t, comment) ==>
        exists root :: IsComment(t, root) && t[CommentE(root)].parent.None? && t[CommentE(root)].taskId == t[CommentE(comment)].taskId
  {
    EveryRunKeepsInv(calls);
    if IsComment(Run(START, calls).db.table, comment) {
      assert IsComment(Run(START, calls).db.table, RootOf(Run(START, calls).db, comment));
    }
  }
}
