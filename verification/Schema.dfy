/** The rows the service stores, the documents it indexes and the outbox entries that connect them. */
module Schema {

  datatype Option<+T> = None | Some(value: T)

  datatype JoinPolicy = OpenJoin | RequestJoin

  datatype TaskStatus = Todo | InProgress | Done

  /** One row of an indexed table: its own columns. Free-text columns no rule looks at are folded into one. */
  datatype Row =
    | UserRow(username: string, email: string, details: string, active: bool)
    | GroupRow(name: string, adminId: int, joinPolicy: JoinPolicy, parentGroup: Option<int>, details: string, active: bool)
    | TaskRow(title: string, status: TaskStatus, groupId: int, details: string, active: bool)
    | CommentRow(taskId: int, userId: int, content: string, parent: Option<int>)

  /** Users, groups and tasks are deleted by clearing is_active; a comment row that exists is live. */
  predicate Alive(r: Row) { r.CommentRow? || r.active }

  function Deactivated(r: Row): Row {
    match r
    case UserRow(n, e, d, _) => UserRow(n, e, d, false)
    case GroupRow(n, a, j, p, d, _) => GroupRow(n, a, j, p, d, false)
    case TaskRow(t, s, g, d, _) => TaskRow(t, s, g, d, false)
    case CommentRow(_, _, _, _) => r
  }

  /** `entity_type` of an outbox row is free text; four values have a document class. */
  datatype Kind = UserKind | GroupKind | TaskKind | CommentKind | OtherKind(name: string)

  predicate Indexed(k: Kind) { !k.OtherKind? }

  datatype Entity = Entity(kind: Kind, id: int)

  datatype EventType = Created | Updated | Deleted

  /** The indexed tables, and the search index. A document holds its row's own columns. */
  type Table = map<Entity, Row>
  type Index = map<Entity, Row>

  function Lookup<K, V>(m: map<K, V>, k: K): Option<V> {
    if k in m then Some(m[k]) else None
  }
}
