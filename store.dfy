/**
 * The browser's key-value store and the records kept in it.
 *
 * The store holds three kinds of entries: the registered users under "users",
 * the session pointer under "currentUser", and one list of activity records per
 * (kind, owner) under "<kind>_<ownerId>". Every activity key contains '_' and the
 * two fixed keys do not, so the three families never share a key; they are kept
 * here as three typed fields. Values are held already parsed.
 */
module Store {

  datatype Option<T> = None | Some(value: T)

  /** One activity record: its id and every other property, by name. */
  datatype Entry = Entry(id: string, fields: map<string, string>)

  /** A registered user, as the registration page builds it. */
  datatype User = User(
    id: string,
    name: string,
    email: string,
    password: string,
    department: string,
    designation: string,
    phone: string,
    userType: string,
    createdAt: string)

  /** The session pointer the login page writes. */
  datatype SessionUser = SessionUser(email: string, userType: string, id: string, name: string)

  const PublicationsKind: string := "publications"
  const SeminarsKind: string := "seminars"
  const EventsKind: string := "events"
  const LecturesKind: string := "lectures"
  const ProjectsKind: string := "projects"

  class LocalStorage {
    var users: Option<seq<User>>
    var currentUser: Option<SessionUser>
    var lists: map<string, seq<Entry>>

    /** An empty store. */
    constructor ()
      ensures users == None && currentUser == None && lists == map[]
    {
      users, currentUser, lists := None, None, map[];
    }
  }

  /** The key of the activity list of one kind owned by one user: `${kind}_${ownerId}`. */
  function ListKey(kind: string, ownerId: string): string
  {
    kind + "_" + ownerId
  }

  /** Different owners never share a key of the same kind. */
  lemma {:induction false} ListKeyInjective(kind: string, a: string, b: string)
    requires a != b
    ensures ListKey(kind, a) != ListKey(kind, b)
  {
    var ka, kb := ListKey(kind, a), ListKey(kind, b);
    assert ka[|kind| + 1..] == a;
    assert kb[|kind| + 1..] == b;
  }

  /** The id the tabs read from the session pointer; with none stored, `JSON.parse("{}").id` prints as "undefined". */
  function SessionId(current: Option<SessionUser>): string
  {
    if current.Some? then current.value.id else "undefined"
  }

  /** `JSON.parse(localStorage.getItem(key) || "[]")` for an activity list. */
  function StoredList(lists: map<string, seq<Entry>>, key: string): seq<Entry>
  {
    if key in lists then lists[key] else []
  }

  /** `JSON.parse(localStorage.getItem("users") || "[]")`. */
  function UsersOrEmpty(users: Option<seq<User>>): seq<User>
  {
    if users.Some? then users.value else []
  }
}
