/** The hosted backend as plain in-memory state: the document store's `users`,
    `tasks` and `teams` collections, and the realtime store's chat lists.
    Documents are records whose optional fields may be absent. */
module Store {

  datatype Option<T> = None | Some(value: T) {
    function GetOr(default: T): T {
      match this
      case Some(v) => v
      case None => default
    }
  }

  /** A document (or realtime child) together with its key, as `{ id: doc.id, ...doc.data() }`. */
  datatype Doc<T> = Doc(id: string, data: T)

  const ROLE_ADMIN: string := "admin"
  const ROLE_EMPLOYEE: string := "employee"
  const STATUS_PENDING: string := "pending"
  const STATUS_REQUESTED: string := "requested"

  /** A `users` document. `teams` is absent until the user creates a team. */
  datatype User = User(
    uid: string, email: string, name: string,
    admin: bool, role: string,
    teams: Option<seq<string>>)

  datatype Comment = Comment(text: string, timestamp: int, userId: string)

  /** A `tasks` document. The two creation paths write different field sets, so every field
      the shorter path omits is optional. Timestamps are opaque integers; the deadline is
      kept as the string the form held. */
  datatype Task = Task(
    title: string, description: Option<string>,
    assignedTo: string, assignedBy: string, status: string,
    createdAt: int, deadline: Option<string>,
    referenceLinks: Option<seq<string>>, comments: Option<seq<Comment>>,
    completedAt: Option<int>)

  /** A `teams` document. */
  datatype Team = Team(name: string, admin: string, employees: Option<seq<string>>)

  /** A chat message in the realtime store; `isAdmin` is written by only one of the two chat views. */
  datatype ChatMessage = ChatMessage(text: string, senderId: string, timestamp: int, isAdmin: Option<bool>)

  /** The backend. Chat lists are keyed by their full path (`chats/...`), each a map from
      push key to message. */
  class Db {
    var users: map<string, User>
    var tasks: map<string, Task>
    var teams: map<string, Team>
    var chats: map<string, map<string, ChatMessage>>

    constructor (users: map<string, User>, tasks: map<string, Task>,
                 teams: map<string, Team>, chats: map<string, map<string, ChatMessage>>)
      ensures this.users == users && this.tasks == tasks
      ensures this.teams == teams && this.chats == chats
    {
      this.users, this.tasks, this.teams, this.chats := users, tasks, teams, chats;
    }
  }

  /** The array field after `updateDoc(ref, { field: arrayUnion(x) })`: `x` is appended
      unless already present; an absent field becomes `[x]`. */
  function ArrayUnion<T(==)>(field: Option<seq<T>>, x: T): (r: seq<T>)
    ensures x in r
    ensures field.GetOr([]) <= r
    ensures |r| <= |field.GetOr([])| + 1
    ensures forall y :: y in r ==> y == x || y in field.GetOr([])
  {
    var s := field.GetOr([]);
    if x in s then s else s + [x]
  }

  ghost predicate NoDuplicates<T>(s: seq<T>) {
    forall i, j :: 0 <= i < j < |s| ==> s[i] != s[j]
  }

  /** Applying the same union twice has the effect of applying it once. */
  lemma ArrayUnionIdempotent<T>(field: Option<seq<T>>, x: T)
    ensures ArrayUnion(Some(ArrayUnion(field, x)), x) == ArrayUnion(field, x)
  {
  }

  /** A union never introduces a duplicate. */
  lemma ArrayUnionNoDuplicates<T>(field: Option<seq<T>>, x: T)
    requires NoDuplicates(field.GetOr([]))
    ensures NoDuplicates(ArrayUnion(field, x))
  {
    var s := field.GetOr([]);
    if x !in s {
      var r := s + [x];
      forall i, j | 0 <= i < j < |r| ensures r[i] != r[j] {
        if j == |s| { assert r[i] == s[i]; assert s[i] in s; }
      }
    }
  }

  /** The invariant the role writes keep: the `admin` flag says the same as the role. */
  predicate RoleConsistent(u: User) {
    u.admin == (u.role == ROLE_ADMIN)
  }

  ghost predicate AllRolesConsistent(users: map<string, User>) {
    forall id :: id in users ==> RoleConsistent(users[id])
  }

  /** Every task status is one the task operations write. */
  ghost predicate KnownStatuses(tasks: map<string, Task>) {
    forall id :: id in tasks ==> tasks[id].status in {STATUS_PENDING, STATUS_REQUESTED}
  }
}
