/**
 * The authentication store (`src/store/authSlice.ts`): the signed-in user, the
 * bearer token and the `isAuthenticated` flag, mirrored into the `user` and
 * `token` slots of `localStorage`.
 */
module AuthSlice {
  import opened Wrappers
  import opened Catalog

  /** The reducer state. */
  datatype AuthState = AuthState(user: Option<User>, token: Option<string>, isAuthenticated: bool)

  /** The two storage slots the store writes: `user` (JSON) and `token` (raw text). */
  datatype AuthStorage = AuthStorage(user: Slot<User>, token: Option<string>)

  /**
   * The state built when the application loads: an unreadable user document
   * reads as no user, and an empty saved token counts as no token.
   */
  function Restored(saved: AuthStorage): (s: AuthState)
    ensures s.isAuthenticated <==> saved.token.Some? && saved.token.value != ""
    ensures s.token.Some? ==> s.token == saved.token
    ensures s.user.Some? <==> saved.user.Stored?
  {
    AuthState(
      if saved.user.Stored? then Some(saved.user.value) else None,
      if saved.token.Some? && saved.token.value != "" then saved.token else None,
      saved.token.Some? && saved.token.value != "")
  }

  /** The store's invariant: signed in exactly when a token is held. */
  predicate Valid(s: AuthState) {
    s.isAuthenticated <==> s.token.Some?
  }

  /** `login({ user, token })`: state and storage. */
  function LoggedIn(user: User, token: string): (AuthState, AuthStorage) {
    (AuthState(Some(user), Some(token), true), AuthStorage(Stored(user), Some(token)))
  }

  /** `logout()`: state and storage. */
  function LoggedOut(): (AuthState, AuthStorage) {
    (AuthState(None, None, false), AuthStorage(Missing, None))
  }

  /** `updateUser(user)`: the token and the flag are untouched. */
  function UserUpdated(s: AuthState, storage: AuthStorage, user: User): (AuthState, AuthStorage) {
    (s.(user := Some(user)), storage.(user := Stored(user)))
  }

  /** A freshly loaded store is valid, and it stores back what it read. */
  lemma RestoredIsValid(saved: AuthStorage)
    ensures Valid(Restored(saved))
    ensures Restored(saved).token.Some? ==> Restored(saved).token.value != ""
  {
  }

  /** Every reducer keeps the invariant. */
  lemma ReducersKeepValid(s: AuthState, storage: AuthStorage, user: User, token: string)
    requires Valid(s)
    ensures Valid(LoggedIn(user, token).0)
    ensures Valid(LoggedOut().0)
    ensures Valid(UserUpdated(s, storage, user).0)
    ensures UserUpdated(s, storage, user).0.token == s.token
    ensures UserUpdated(s, storage, user).0.isAuthenticated == s.isAuthenticated
  {
  }

  /** A login with a non-empty token survives a reload unchanged. */
  lemma LoginSurvivesReload(user: User, token: string)
    requires token != ""
    ensures Restored(LoggedIn(user, token).1) == LoggedIn(user, token).0
  {
  }

  /** A login with the empty token is signed in until the next reload, which signs it out. */
  lemma EmptyTokenLostOnReload(user: User)
    ensures LoggedIn(user, "").0.isAuthenticated
    ensures !Restored(LoggedIn(user, "").1).isAuthenticated
    ensures Restored(LoggedIn(user, "").1).user == Some(user)
  {
  }

  /** A logout survives a reload. */
  lemma LogoutSurvivesReload()
    ensures Restored(LoggedOut().1) == LoggedOut().0
  {
  }

  /** A user update made while signed out is restored as a user without a session. */
  lemma UpdateWhileSignedOut(storage: AuthStorage, user: User)
    requires storage.token.None?
    ensures var r := Restored(UserUpdated(AuthState(None, None, false), storage, user).1);
      r.user == Some(user) && !r.isAuthenticated
  {
  }

  class AuthStore {
    var user: Option<User>
    var token: Option<string>
    var isAuthenticated: bool
    var userSlot: Slot<User>
    var tokenSlot: Option<string>

    function State(): AuthState
      reads this
    {
      AuthState(user, token, isAuthenticated)
    }

    function Storage(): AuthStorage
      reads this
    {
      AuthStorage(userSlot, tokenSlot)
    }

    constructor (saved: AuthStorage)
      ensures State() == Restored(saved) && Storage() == saved && Valid(State())
    {
      user := if saved.user.Stored? then Some(saved.user.value) else None;
      token := if saved.token.Some? && saved.token.value != "" then saved.token else None;
      isAuthenticated := saved.token.Some? && saved.token.value != "";
      userSlot := saved.user;
      tokenSlot := saved.token;
    }

    method Login(u: User, t: string)
      modifies this
      ensures (State(), Storage()) == LoggedIn(u, t)
      ensures Valid(State())
    {
      user := Some(u);
      token := Some(t);
      isAuthenticated := true;
      userSlot := Stored(u);
      tokenSlot := Some(t);
    }

    method Logout()
      modifies this
      ensures (State(), Storage()) == LoggedOut()
      ensures Valid(State())
    {
      user := None;
      token := None;
      isAuthenticated := false;
      userSlot := Missing;
      tokenSlot := None;
    }

    method UpdateUser(u: User)
      modifies this
      ensures (State(), Storage()) == UserUpdated(old(State()), old(Storage()), u)
      ensures old(Valid(State())) ==> Valid(State())
    {
      user := Some(u);
      userSlot := Stored(u);
    }
  }
}
