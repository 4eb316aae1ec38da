/** The unit of work: a session's uncommitted view of the database, its repositories and its event list. */
module UnitOfWork {
  import opened Schema
  import opened Store

  /** The committed database. */
  class Database {
    var db: Db

    constructor (db: Db)
      ensures this.db == db
    {
      this.db := db;
    }
  }

  class UnitOfWork {
    const database: Database
    /** The session was handed in; its owner commits. */
    const isExternal: bool
    var open: bool
    var db: Db
    var events: seq<Notice>

    constructor (database: Database, isExternal: bool)
      ensures this.database == database && this.isExternal == isExternal
      ensures open && db == database.db && events == []
    {
      this.database := database;
      this.isExternal := isExternal;
      open, db, events := true, database.db, [];
    }

    /** Leaving the block: roll back if it raised, commit otherwise. */
    method Exit(raised: bool)
      modifies this`open, database
      ensures !open
      ensures database.db == if isExternal || raised then old(database.db) else db
    {
      if !isExternal {
        if !raised {
          database.db := db;
        }
      }
      open := false;
    }

    method AddEvent(n: Notice)
      modifies this`events
      ensures events == old(events) + [n]
    {
      events := events + [n];
    }

    method GetEvents() returns (copy: seq<Notice>)
      ensures copy == events
    {
      return events;
    }

    // ---- repositories: each insert is flushed and may violate a constraint --------------------

    method SaveRow(e: Entity, row: Row)
      modifies this`db
      ensures db == old(db).(table := old(db).table[e := row])
    {
      db := db.(table := db.table[e := row]);
    }

    method AddOutbox(etype: EventType, e: Entity)
      modifies this`db
      ensures db == old(db).(outbox := old(db).outbox + [Entry(etype, e)])
    {
      db := db.(outbox := db.outbox + [Entry(etype, e)]);
    }

    method AddMembership(user: int, group: int) returns (ok: bool)
      modifies this`db
      ensures ok <==> CanAddMember(old(db), user, group)
      ensures db == if ok then old(db).(members := old(db).members + {(user, group)}) else old(db)
    {
      ok := CanAddMember(db, user, group);
      if ok {
        db := db.(members := db.members + {(user, group)});
      }
    }

    method DeleteMembership(user: int, group: int)
      modifies this`db
      ensures db == old(db).(members := old(db).members - {(user, group)})
    {
      db := db.(members := db.members - {(user, group)});
    }

    method AddTaskAssignee(user: int, task: int) returns (ok: bool)
      modifies this`db
      ensures ok <==> CanAddAssignee(old(db), user, task)
      ensures db == if ok then old(db).(assignees := old(db).assignees + {(user, task)}) else old(db)
    {
      ok := CanAddAssignee(db, user, task);
      if ok {
        db := db.(assignees := db.assignees + {(user, task)});
      }
    }

    method AddUserRole(r: UserRole) returns (ok: bool)
      modifies this`db
      ensures ok <==> IsUser(old(db).table, r.user)
      ensures db == if ok then AddRole(old(db), r) else old(db)
    {
      ok := IsUser(db.table, r.user);
      if ok {
        db := AddRole(db, r);
      }
    }

    /** A filtered query without an order: any matching row may come first. */
    method FindUserRole(user: int, role: RoleName) returns (found: Option<int>)
      ensures found.Some? ==> HoldsRole(db.roles, user, role, found.value)
      ensures found.None? ==> forall id :: !HoldsRole(db.roles, user, role, id)
    {
      if id :| id in db.roles && HoldsRole(db.roles, user, role, id) {
        return Some(id);
      }
      return None;
    }

    method FindGroupRole(user: int, role: RoleName, group: int) returns (found: Option<int>)
      ensures found.Some? ==> HoldsRole(db.roles, user, role, found.value) && db.roles[found.value].group == Some(group)
      ensures found.None? <==> !HasRole(db.roles, user, role, group)
    {
      if id :| id in db.roles && HoldsRole(db.roles, user, role, id) && db.roles[id].group == Some(group) {
        return Some(id);
      }
      return None;
    }

    method DeleteUserRole(id: int)
      modifies this`db
      ensures db == old(db).(roles := old(db).roles - {id})
    {
      db := db.(roles := db.roles - {id});
    }

    method AddJoinRequest(r: JoinRequest) returns (ok: bool)
      modifies this`db
      ensures ok <==> CanAddRequest(old(db), r)
      ensures db == if ok then AddRequest(old(db), r) else old(db)
    {
      ok := CanAddRequest(db, r);
      if ok {
        db := AddRequest(db, r);
      }
    }

    method UpdateJoinRequest(id: int, status: RequestStatus)
      requires id in db.requests
      modifies this`db
      ensures db == SetStatus(old(db), id, status)
    {
      db := db.(requests := db.requests[id := db.requests[id].(status := status)]);
    }
  }
}
