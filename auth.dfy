/** The session store (src/contexts/auth-context.tsx): the signed-in user,
    the `isAuthenticated` flag and the browser storage slot
    `"hostel-user"`. The storage is a map from slot names to the user stored
    there (the JSON encoding is left out). The transitions are pure
    functions on a `SessionState`; the `Session` class holds the three
    pieces of state and installs those transitions. */
module AuthContext {
  import opened Seqs
  import opened Types

  /** The storage slot the session lives in. */
  const SlotKey: string := "hostel-user"

  /** The only password any account accepts. */
  const DemoPassword: string := "password"

  const MockUsers: seq<User> := [
    User("admin1", "admin", "Admin User", "admin@hostel.com", Admin, Some(AvatarFor("admin"))),
    User("staff1", "staff", "Staff Member", "staff@hostel.com", Staff, Some(AvatarFor("staff"))),
    User("student1", "student", "John Student", "student@hostel.com", Student, Some(AvatarFor("student")))
  ]

  /** `u.username === username && u.role === role`, with the role passed as
      the string the login form sends. */
  function Matches(username: string, role: string): User -> bool {
    (u: User) => u.username == username && u.role.Name() == role
  }

  /** The user `login` signs in, or `None` when it returns false: the
      password check comes first, then the lookup in the mock table. */
  function Authenticate(username: string, password: string, role: string): (r: Option<User>)
    ensures password != DemoPassword ==> r.None?
    ensures r.Some? ==> r.value.username == username && r.value.role.Name() == role && r.value in MockUsers
    ensures r.None? && password == DemoPassword ==>
      forall i :: 0 <= i < |MockUsers| ==> !(MockUsers[i].username == username && MockUsers[i].role.Name() == role)
  {
    if password != DemoPassword then None
    else match FirstIndex(MockUsers, Matches(username, role))
      case None => None
      case Some(k) => Some(MockUsers[k])
  }

  /** Exactly three credential triples sign in: each demo account's
      username with its own role and the demo password. */
  lemma {:induction false} AuthenticateAccepts(username: string, password: string, role: string)
    ensures Authenticate(username, password, role).Some? <==>
      password == DemoPassword &&
      ((username == "admin" && role == "admin") || (username == "staff" && role == "staff")
       || (username == "student" && role == "student"))
  {
    var p := Matches(username, role);
    if password == DemoPassword {
      assert p(MockUsers[0]) <==> username == "admin" && role == "admin";
      assert p(MockUsers[1]) <==> username == "staff" && role == "staff";
      assert p(MockUsers[2]) <==> username == "student" && role == "student";
    }
  }

  /** `user`, `isAuthenticated` and the browser storage. */
  datatype SessionState = SessionState(user: Option<User>, isAuthenticated: bool, storage: map<string, User>)

  /** The state after the mount effect: a stored user is restored and marked
      signed in; an empty slot leaves the initial null/false. */
  function Rehydrate(storage: map<string, User>): (s: SessionState)
    ensures s.storage == storage
    ensures SlotKey in storage ==> s.user == Some(storage[SlotKey]) && s.isAuthenticated
    ensures SlotKey !in storage ==> s.user.None? && !s.isAuthenticated
  {
    if SlotKey in storage then SessionState(Some(storage[SlotKey]), true, storage)
    else SessionState(None, false, storage)
  }

  /** The state after `login` and its result. A failure throws before any
      setter runs, so the state is untouched. */
  function AfterLogin(s: SessionState, username: string, password: string, role: string): (r: (SessionState, bool))
    ensures r.1 == Authenticate(username, password, role).Some?
    ensures !r.1 ==> r.0 == s
    ensures r.1 ==> r.0.user == Authenticate(username, password, role) && r.0.isAuthenticated
                    && r.0.storage == s.storage[SlotKey := r.0.user.value]
  {
    match Authenticate(username, password, role)
    case None => (s, false)
    case Some(u) => (SessionState(Some(u), true, s.storage[SlotKey := u]), true)
  }

  /** The state after `logout`: signed out and the slot removed, whatever the
      state was before; every other slot stays. */
  function AfterLogout(s: SessionState): (r: SessionState)
    ensures r.user.None? && !r.isAuthenticated && SlotKey !in r.storage
    ensures forall k :: k in s.storage && k != SlotKey ==> k in r.storage && r.storage[k] == s.storage[k]
    ensures forall k :: k in r.storage ==> k in s.storage
  {
    SessionState(None, false, s.storage - {SlotKey})
  }

  /** The flag, the user and the slot agree: signed in exactly when a user
      is set, and the slot holds exactly that user. */
  predicate Synced(s: SessionState) {
    s.isAuthenticated == s.user.Some?
    && (SlotKey in s.storage <==> s.user.Some?)
    && (s.user.Some? ==> s.storage[SlotKey] == s.user.value)
  }

  /** Every transition keeps the session synced, starting from rehydration. */
  lemma SyncedInvariant(storage: map<string, User>, s: SessionState, username: string, password: string, role: string)
    ensures Synced(Rehydrate(storage))
    ensures Synced(s) ==> Synced(AfterLogin(s, username, password, role).0)
    ensures Synced(AfterLogout(s))
  {
  }

  /** Logging out twice is logging out once, and a login followed by a
      logout ends in the same state as a logout alone. */
  lemma {:induction false} LogoutLaws(s: SessionState, username: string, password: string, role: string)
    ensures AfterLogout(AfterLogout(s)) == AfterLogout(s)
    ensures AfterLogout(AfterLogin(s, username, password, role).0) == AfterLogout(s)
  {
    assert AfterLogout(AfterLogout(s)).storage == AfterLogout(s).storage;
    var t := AfterLogin(s, username, password, role).0;
    assert AfterLogout(t).storage == AfterLogout(s).storage;
  }

  /** The `AuthProvider` state. Constructing it runs the mount effect. */
  class Session {
    var user: Option<User>
    var isAuthenticated: bool
    var storage: map<string, User>

    function State(): SessionState
      reads this
    {
      SessionState(user, isAuthenticated, storage)
    }

    constructor (browserStorage: map<string, User>)
      ensures State() == Rehydrate(browserStorage)
    {
      if SlotKey in browserStorage {
        user, isAuthenticated := Some(browserStorage[SlotKey]), true;
      } else {
        user, isAuthenticated := None, false;
      }
      storage := browserStorage;
    }

    method Login(username: string, password: string, role: string) returns (ok: bool)
      modifies this
      ensures (State(), ok) == AfterLogin(old(State()), username, password, role)
    {
      if password != DemoPassword {
        return false;
      }
      var found := Find(MockUsers, Matches(username, role));
      if found.None? {
        return false;
      }
      user := found;
      isAuthenticated := true;
      storage := storage[SlotKey := found.value];
      ok := true;
    }

    method Logout()
      modifies this
      ensures State() == AfterLogout(old(State()))
    {
      user := None;
      isAuthenticated := false;
      storage := storage - {SlotKey};
    }
  }
}
