// Local accounts (src/app/services/auth.service.ts): a user table under the
// key 'users', the signed-in user under 'currentUser', and register, login
// and logout over them.

module Auth {
  import opened Common

  /** A row of the user table; the profile page may add phone, district and bio. */
  datatype StoredUser = StoredUser(id: int, name: string, email: string, password: string,
                                   phone: Option<string>, district: Option<string>, bio: Option<string>)

  /** The signed-in user as the service keeps it: id, email and name only. */
  datatype User = User(id: int, email: string, name: string)

  /** What a call ends in: a returned value, or an exception from JSON.parse on unparsable 'users'. */
  datatype Reply = Returned(ok: bool) | Threw

  function PublicOf(u: StoredUser): (r: User)
    ensures r.id == u.id && r.email == u.email && r.name == u.name
  {
    User(u.id, u.email, u.name)
  }

  /** `users.find` on email and password: the first row matching both. */
  function FindLogin(users: seq<StoredUser>, email: string, password: string): (r: Option<StoredUser>)
    ensures r.None? <==> forall u :: u in users ==> !(u.email == email && u.password == password)
    ensures r.Some? ==> r.value in users && r.value.email == email && r.value.password == password
    ensures r.Some? ==>
      exists i :: 0 <= i < |users| && users[i] == r.value &&
        forall k :: 0 <= k < i ==> !(users[k].email == email && users[k].password == password)
  {
    if users == [] then None
    else if users[0].email == email && users[0].password == password then Some(users[0])
    else FindLogin(users[1..], email, password)
  }

  predicate EmailTaken(users: seq<StoredUser>, email: string)
  {
    exists u :: u in users && u.email == email
  }

  /** No two rows share an email. */
  predicate UniqueEmails(users: seq<StoredUser>)
  {
    forall i, j :: 0 <= i < j < |users| ==> users[i].email != users[j].email
  }

  /** The row `register` appends; `id` stands for the timestamp used as id. */
  function NewUser(id: int, name: string, email: string, password: string): StoredUser
  {
    StoredUser(id, name, email, password, None, None, None)
  }

  /** A successful registration keeps emails unique, and the new account can log in. */
  lemma RegisterKeepsUnique(users: seq<StoredUser>, id: int, name: string, email: string, password: string)
    requires UniqueEmails(users) && !EmailTaken(users, email)
    ensures UniqueEmails(users + [NewUser(id, name, email, password)])
    ensures FindLogin(users + [NewUser(id, name, email, password)], email, password) == Some(NewUser(id, name, email, password))
  {
    var all := users + [NewUser(id, name, email, password)];
    forall i, j | 0 <= i < j < |all| ensures all[i].email != all[j].email {
      if j == |users| {
        assert all[i] in users;
      }
    }
    FindLoginAppend(users, NewUser(id, name, email, password), email, password);
  }

  lemma {:induction false} FindLoginAppend(users: seq<StoredUser>, u: StoredUser, email: string, password: string)
    requires u.email == email && u.password == password && !EmailTaken(users, email)
    ensures FindLogin(users + [u], email, password) == Some(u)
  {
    if users != [] {
      assert (users + [u])[1..] == users[1..] + [u];
      assert !EmailTaken(users[1..], email) by {
        forall v | v in users[1..] ensures v.email != email {
          assert v in users;
        }
      }
      FindLoginAppend(users[1..], u, email, password);
    }
  }

  /** The storage keys the accounts live in. */
  class UserStore {
    /** The key 'users'. */
    var users: Cell<seq<StoredUser>>
    /** The key 'currentUser'. */
    var saved: Cell<User>

    constructor (users: Cell<seq<StoredUser>>, saved: Cell<User>)
      ensures this.users == users && this.saved == saved
    {
      this.users := users;
      this.saved := saved;
    }
  }

  /** The service. */
  class AuthService {
    const store: UserStore
    /** The value of `currentUserSubject`. */
    var current: Option<User>

    /** Restore the saved user, if any (unparsable content makes the parse throw). */
    constructor (store: UserStore)
      requires !store.saved.Unparsable?
      ensures this.store == store
      ensures store.saved.Stored? ==> current == Some(store.saved.value)
      ensures store.saved.Absent? ==> current.None?
    {
      this.store := store;
      if store.saved.Stored? {
        current := Some(store.saved.value);
      } else {
        current := None;
      }
    }

    /** `isAuthenticated`. */
    predicate IsAuthenticated()
      reads this
    {
      current.Some?
    }

    /**
     * `login`: succeeds exactly when some row matches both email and password,
     * and then signs in the first such row without its password.
     */
    method Login(email: string, password: string) returns (r: Reply)
      modifies this`current, store`saved
      ensures store.users == old(store.users)
      ensures store.users.Unparsable? ==> r == Threw && current == old(current) && store.saved == old(store.saved)
      ensures store.users.Absent? ==> r == Returned(false) && current == old(current) && store.saved == old(store.saved)
      ensures store.users.Stored? ==>
        (r == Returned(true) <==> exists u :: u in store.users.value && u.email == email && u.password == password) &&
        (r == Returned(true) ==>
          current == Some(PublicOf(FindLogin(store.users.value, email, password).value)) &&
          store.saved == Stored(current.value)) &&
        (r != Returned(true) ==> r == Returned(false) && current == old(current) && store.saved == old(store.saved))
    {
      if store.users.Unparsable? {
        return Threw;
      }
      var users := if store.users.Stored? then store.users.value else [];
      var user := FindLogin(users, email, password);
      if user.Some? {
        var userData := PublicOf(user.value);
        current := Some(userData);
        store.saved := Stored(userData);
        return Returned(true);
      }
      return Returned(false);
    }

    /**
     * `register`: refused, with nothing changed, when the email is taken;
     * otherwise one row is appended and the new user is signed in. `now`
     * stands for the timestamp used as id.
     */
    method Register(name: string, email: string, password: string, now: int) returns (r: Reply)
      modifies this`current, store`saved, store`users
      ensures old(store.users).Unparsable? ==>
        r == Threw && current == old(current) && store.saved == old(store.saved) && store.users == old(store.users)
      ensures !old(store.users).Unparsable? && EmailTaken(Loaded(old(store.users)), email) ==>
        r == Returned(false) && current == old(current) && store.saved == old(store.saved) &&
        store.users == old(store.users)
      ensures !old(store.users).Unparsable? && !EmailTaken(Loaded(old(store.users)), email) ==>
        r == Returned(true) &&
        store.users == Stored(Loaded(old(store.users)) + [NewUser(now, name, email, password)]) &&
        current == Some(User(now, email, name)) && store.saved == Stored(User(now, email, name))
      ensures UniqueEmails(Loaded(old(store.users))) ==> UniqueEmails(Loaded(store.users))
    {
      if store.users.Unparsable? {
        return Threw;
      }
      var users := Loaded(store.users);
      if exists u :: u in users && u.email == email {
        return Returned(false);
      }
      var newUser := NewUser(now, name, email, password);
      store.users := Stored(users + [newUser]);
      var userData := PublicOf(newUser);
      current := Some(userData);
      store.saved := Stored(userData);
      if UniqueEmails(users) {
        RegisterKeepsUnique(users, now, name, email, password);
      }
      return Returned(true);
    }

    /** `logout`: nobody signed in and the saved key removed. */
    method Logout()
      modifies this`current, store`saved
      ensures current.None? && store.saved.Absent? && !IsAuthenticated()
    {
      current := None;
      store.saved := Absent;
    }
  }

  /** The rows `getStoredUsers` returns for a key that parses, [] when it is absent. */
  function Loaded(c: Cell<seq<StoredUser>>): seq<StoredUser>
  {
    if c.Stored? then c.value else []
  }
}
