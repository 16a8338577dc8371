/**
 * The session store (`AuthProvider`): the logged-in user, a loading flag, and the
 * `tasksphere_user` slot of the browser's local storage that keeps the user across
 * reloads. The `/users?email=` lookup is given as the list of all users, or `None`
 * when the request fails.
 */
module AuthContext {
  import opened Wrappers
  import opened Entities
  import opened Seqs

  /** Why `login` throws. */
  datatype AuthError =
    | InvalidCredentials   // "Email ou senha inválidos": no such email, or the wrong password
    | RequestFailed        // the users endpoint could not be reached; that error is re-thrown

  /** The provider's state: `user`, `loading`, and the stored slot. */
  datatype Session = Session(user: Option<User>, loading: bool, stored: Option<User>)

  /** A freshly mounted provider: no user yet, still loading, the slot as the browser has it. */
  function Start(stored: Option<User>): (s: Session)
    ensures s.user.None? && s.loading && s.stored == stored
  {
    Session(None, true, stored)
  }

  /** The mount effect: adopt the stored user if there is one, then stop loading. */
  function Restored(s: Session): (r: Session)
    ensures s.stored.Some? ==> r.user == s.stored
    ensures s.stored.None? ==> r.user == s.user
    ensures !r.loading && r.stored == s.stored
  {
    Session(if s.stored.Some? then s.stored else s.user, false, s.stored)
  }

  /** The users the JSON server returns for `/users?email=<email>`, in its order. */
  function LookupByEmail(users: seq<User>, email: string): (r: seq<User>)
    ensures forall u :: u in r <==> u in users && u.email == email
    ensures forall u :: u in users ==> multiset(r)[u] == if u.email == email then multiset(users)[u] else 0
  {
    Filter((u: User) => u.email == email, users)
  }

  /**
   * `login(email, password)`: succeeds when the lookup returns at least one user and the
   * first one's password is the given password; then that user is both the session's
   * user and the stored one, and is returned. Otherwise nothing changes and it throws.
   */
  function AfterLogin(s: Session, email: string, password: string, users: Option<seq<User>>)
    : (r: (Session, Result<User, AuthError>))
    ensures r.1.Success? <==>
      users.Some? && |LookupByEmail(users.value, email)| > 0
      && LookupByEmail(users.value, email)[0].password == password
    ensures r.1.Success? ==>
      r.1.value == LookupByEmail(users.value, email)[0]
      && r.0 == s.(user := Some(r.1.value), stored := Some(r.1.value))
    ensures r.1.Failure? ==> r.0 == s
    ensures r.1.Failure? ==> (r.1.error == RequestFailed <==> users.None?)
  {
    if users.None? then (s, Failure(RequestFailed))
    else
      var found := LookupByEmail(users.value, email);
      if |found| > 0 && found[0].password == password then
        (s.(user := Some(found[0]), stored := Some(found[0])), Success(found[0]))
      else
        (s, Failure(InvalidCredentials))
  }

  /** `logout()`: no user, and the stored slot removed. */
  function LoggedOut(s: Session): (r: Session)
    ensures r.user.None? && r.stored.None? && r.loading == s.loading
  {
    s.(user := None, stored := None)
  }

  /** `isAuthenticated`: `!!user`. */
  predicate Authenticated(s: Session) {
    s.user.Some?
  }

  /**
   * Login succeeds exactly when the first user registered with that email has that
   * password, and it returns that user.
   */
  lemma {:induction false} LoginMatchesFirstUserWithEmail(
    s: Session, email: string, password: string, users: seq<User>, i: nat)
    requires i < |users| && users[i].email == email
    requires forall j :: 0 <= j < i ==> users[j].email != email
    ensures AfterLogin(s, email, password, Some(users)).1.Success? <==> users[i].password == password
    ensures AfterLogin(s, email, password, Some(users)).1.Success? ==>
      AfterLogin(s, email, password, Some(users)).1.value == users[i]
  {
    FilterFirstOf((u: User) => u.email == email, users, i);
  }

  /** A successful login returns a registered user with the given email and password. */
  lemma LoginReturnsMatchingUser(s: Session, email: string, password: string, users: seq<User>)
    requires AfterLogin(s, email, password, Some(users)).1.Success?
    ensures var u := AfterLogin(s, email, password, Some(users)).1.value;
      u in users && u.email == email && u.password == password
      && Authenticated(AfterLogin(s, email, password, Some(users)).0)
  {
    var found := LookupByEmail(users, email);
    assert found[0] in found;
  }

  /** Login fails when no registered user has the email. */
  lemma UnknownEmailFails(s: Session, email: string, password: string, users: seq<User>)
    requires forall u :: u in users ==> u.email != email
    ensures AfterLogin(s, email, password, Some(users)) == (s, Failure(InvalidCredentials))
  {
  }

  /** The user of a successful login survives a reload: the next mount restores them. */
  lemma LoginSurvivesReload(s: Session, email: string, password: string, users: Option<seq<User>>)
    requires AfterLogin(s, email, password, users).1.Success?
    ensures Restored(Start(AfterLogin(s, email, password, users).0.stored)).user
         == Some(AfterLogin(s, email, password, users).1.value)
  {
  }

  /** Logging out twice is logging out once, and after a reload nobody is logged in. */
  lemma LogoutIdempotent(s: Session)
    ensures LoggedOut(LoggedOut(s)) == LoggedOut(s)
    ensures !Authenticated(LoggedOut(s))
    ensures !Authenticated(Restored(Start(LoggedOut(s).stored)))
  {
  }

  /** The provider object whose fields the source updates in place. */
  class AuthProvider {
    var user: Option<User>
    var loading: bool
    /** The `tasksphere_user` slot of local storage. */
    var stored: Option<User>

    function State(): Session
      reads this
    {
      Session(user, loading, stored)
    }

    constructor (storedUser: Option<User>)
      ensures State() == Start(storedUser)
    {
      user := None;
      loading := true;
      stored := storedUser;
    }

    /** The mount effect that reads the stored slot. */
    method RestoreSession()
      modifies this
      ensures State() == Restored(old(State()))
    {
      if stored.Some? {
        user := stored;
      }
      loading := false;
    }

    method Login(email: string, password: string, users: Option<seq<User>>)
      returns (r: Result<User, AuthError>)
      modifies this
      ensures (State(), r) == AfterLogin(old(State()), email, password, users)
    {
      if users.None? {
        return Failure(RequestFailed);
      }
      var response := LookupByEmail(users.value, email);
      if |response| > 0 {
        var foundUser := response[0];
        if foundUser.password == password {
          user := Some(foundUser);
          stored := Some(foundUser);
          return Success(foundUser);
        }
      }
      r := Failure(InvalidCredentials);
    }

    method Logout()
      modifies this
      ensures State() == LoggedOut(old(State()))
    {
      user := None;
      stored := None;
    }

    function IsAuthenticated(): (r: bool)
      reads this
      ensures r <==> Authenticated(State())
    {
      user != None
    }
  }
}
