/** The user store of auth.py: a list of users, each with a username, the
    hash of the password and an email. The list is kept in memory, and the
    password hash is a function given to the store. */
module Auth {

  /** One entry of the `users` list (keys username, password, email). */
  datatype User = User(username: string, passwordHash: string, email: string)

  /** Some stored user has this username. */
  predicate UsernameTaken(users: seq<User>, username: string) {
    exists i :: 0 <= i < |users| && users[i].username == username
  }

  /** What `authenticate_user` accepts: some stored user with this username
      whose stored hash equals the hash of the password. */
  predicate Authenticates(users: seq<User>, hash: string -> string, username: string, password: string) {
    exists i :: 0 <= i < |users| && users[i].username == username && users[i].passwordHash == hash(password)
  }

  /** The store invariant: no username is stored twice. */
  predicate UsernamesDistinct(users: seq<User>) {
    forall i, j :: 0 <= i < j < |users| ==> users[i].username != users[j].username
  }

  /** The list `register_user` leaves behind: unchanged when the username is
      taken, otherwise the new user appended at the end. */
  function Registered(users: seq<User>, hash: string -> string, username: string, password: string, email: string): (r: seq<User>)
    ensures UsernameTaken(r, username)
    ensures users <= r && |r| <= |users| + 1
  {
    if UsernameTaken(users, username) then users
    else
      var r := users + [User(username, hash(password), email)];
      assert r[|users|].username == username;
      r
  }

  /** Registration keeps the usernames distinct. */
  lemma RegisterPreservesDistinct(users: seq<User>, hash: string -> string, username: string, password: string, email: string)
    requires UsernamesDistinct(users)
    ensures UsernamesDistinct(Registered(users, hash, username, password, email))
  {
    if !UsernameTaken(users, username) {
      var r := Registered(users, hash, username, password, email);
      forall i, j | 0 <= i < j < |r| ensures r[i].username != r[j].username {
        if j == |users| {
          assert r[i] == users[i];
        }
      }
    }
  }

  /** After a successful registration the new user can log in with the
      password given, because the hash is deterministic. */
  lemma RegisterThenAuthenticate(users: seq<User>, hash: string -> string, username: string, password: string, email: string)
    requires !UsernameTaken(users, username)
    ensures Authenticates(Registered(users, hash, username, password, email), hash, username, password)
  {
    var r := Registered(users, hash, username, password, email);
    assert r[|users|] == User(username, hash(password), email);
  }

  /** A newly registered user is not let in with a password of another hash. */
  lemma RegisterRejectsOtherPassword(users: seq<User>, hash: string -> string, username: string, password: string, email: string, other: string)
    requires !UsernameTaken(users, username) && hash(other) != hash(password)
    ensures !Authenticates(Registered(users, hash, username, password, email), hash, username, other)
  {
    var r := Registered(users, hash, username, password, email);
    forall i | 0 <= i < |r| ensures !(r[i].username == username && r[i].passwordHash == hash(other)) {
      if i < |users| {
        assert r[i] == users[i];
      }
    }
  }

  /** Registering one user changes nobody else's login. */
  lemma RegistrationKeepsOthers(users: seq<User>, hash: string -> string, username: string, password: string, email: string,
                                other: string, otherPassword: string)
    requires other != username
    ensures Authenticates(Registered(users, hash, username, password, email), hash, other, otherPassword)
            == Authenticates(users, hash, other, otherPassword)
  {
    var r := Registered(users, hash, username, password, email);
    if Authenticates(users, hash, other, otherPassword) {
      var i :| 0 <= i < |users| && users[i].username == other && users[i].passwordHash == hash(otherPassword);
      assert r[i] == users[i];
    }
  }

  /** With distinct usernames, logging in checks the password against the one
      user of that name. */
  lemma AuthenticatesTheUser(users: seq<User>, hash: string -> string, i: int, password: string)
    requires UsernamesDistinct(users) && 0 <= i < |users|
    ensures Authenticates(users, hash, users[i].username, password) <==> users[i].passwordHash == hash(password)
  {
    if Authenticates(users, hash, users[i].username, password) {
      var j :| 0 <= j < |users| && users[j].username == users[i].username && users[j].passwordHash == hash(password);
      assert i == j;
    }
  }

  /** The stored user list. */
  class UserStore {
    var users: seq<User>
    /** `hash_password`. */
    const hash: string -> string

    /** A store over the users loaded (the empty list when there is nothing
        to load). */
    constructor (hash: string -> string, users: seq<User>)
      ensures this.hash == hash && this.users == users
    {
      this.hash := hash;
      this.users := users;
    }

    /** `register_user`: scans for the username, fails when it is taken and
        otherwise appends the new user. */
    method RegisterUser(username: string, password: string, email: string) returns (ok: bool)
      modifies this
      ensures ok == !UsernameTaken(old(users), username)
      ensures users == Registered(old(users), hash, username, password, email)
    {
      var i := 0;
      while i < |users|
        invariant 0 <= i <= |users|
        invariant forall k :: 0 <= k < i ==> users[k].username != username
      {
        if users[i].username == username {
          return false;
        }
        i := i + 1;
      }
      users := users + [User(username, hash(password), email)];
      return true;
    }

    /** `authenticate_user`: scans every user of that name for a matching
        hash, and leaves the list alone. */
    method AuthenticateUser(username: string, password: string) returns (ok: bool)
      ensures ok == Authenticates(users, hash, username, password)
      ensures !UsernameTaken(users, username) ==> !ok
    {
      for i := 0 to |users|
        invariant forall k :: 0 <= k < i ==> !(users[k].username == username && users[k].passwordHash == hash(password))
      {
        if users[i].username == username {
          var entered := hash(password);
          if users[i].passwordHash == entered {
            return true;
          }
        }
      }
      return false;
    }
  }

  /** A registration followed by a login with the same password: the
      registration succeeds exactly when the username was free, and then the
      login succeeds too. */
  method RegisterThenLogin(store: UserStore, username: string, password: string, email: string) returns (registered: bool, loggedIn: bool)
    modifies store
    ensures registered == !UsernameTaken(old(store.users), username)
    ensures registered ==> loggedIn
  {
    registered := store.RegisterUser(username, password, email);
    if registered {
      RegisterThenAuthenticate(old(store.users), store.hash, username, password, email);
    }
    loggedIn := store.AuthenticateUser(username, password);
  }
}
