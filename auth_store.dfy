/**
 * The session store (src/store/authStore.ts): one shared record whose
 * operations overwrite fields, persisted under `auth-storage` through a
 * snapshot that leaves `isLoading` out.
 */
module AuthStore {
  import opened Common
  import opened UserTypes

  const AccessTokenKey: string := "accessToken"
  const RefreshTokenKey: string := "refreshToken"

  /**
   * `Partial<User>`: `None` is a key the patch does not mention. The two
   * optional fields can also be mentioned with the value `undefined`,
   * written `Some(None)`.
   */
  datatype UserPatch = UserPatch(
    id: Option<string>,
    email: Option<string>,
    fullName: Option<string>,
    phone: Option<Option<string>>,
    avatar: Option<Option<string>>,
    role: Option<UserRole>,
    isVerified: Option<bool>,
    createdAt: Option<string>,
    updatedAt: Option<string>)

  const EmptyPatch: UserPatch := UserPatch(None, None, None, None, None, None, None, None, None)

  function Pick<T>(p: Option<T>, current: T): T {
    if p.Some? then p.value else current
  }

  /** `{ ...user, ...patch }` */
  function MergeUser(u: User, p: UserPatch): User {
    User(
      Pick(p.id, u.id), Pick(p.email, u.email), Pick(p.fullName, u.fullName),
      Pick(p.phone, u.phone), Pick(p.avatar, u.avatar), Pick(p.role, u.role),
      Pick(p.isVerified, u.isVerified), Pick(p.createdAt, u.createdAt), Pick(p.updatedAt, u.updatedAt))
  }

  /** `{ ...p, ...q }` on patches. */
  function OverlayPatch(p: UserPatch, q: UserPatch): UserPatch {
    UserPatch(
      if q.id.Some? then q.id else p.id,
      if q.email.Some? then q.email else p.email,
      if q.fullName.Some? then q.fullName else p.fullName,
      if q.phone.Some? then q.phone else p.phone,
      if q.avatar.Some? then q.avatar else p.avatar,
      if q.role.Some? then q.role else p.role,
      if q.isVerified.Some? then q.isVerified else p.isVerified,
      if q.createdAt.Some? then q.createdAt else p.createdAt,
      if q.updatedAt.Some? then q.updatedAt else p.updatedAt)
  }

  /** A patch that mentions every field, taken from a whole user. */
  function FullPatch(v: User): UserPatch {
    UserPatch(Some(v.id), Some(v.email), Some(v.fullName), Some(v.phone), Some(v.avatar),
              Some(v.role), Some(v.isVerified), Some(v.createdAt), Some(v.updatedAt))
  }

  /** Merging the empty patch changes nothing; merging a whole user replaces the user. */
  lemma MergeUserUnits(u: User, v: User)
    ensures MergeUser(u, EmptyPatch) == u
    ensures MergeUser(u, FullPatch(v)) == v
  {
  }

  /** Two merges in a row are one merge of the overlaid patches; a repeated merge changes nothing. */
  lemma MergeUserCompose(u: User, p: UserPatch, q: UserPatch)
    ensures MergeUser(MergeUser(u, p), q) == MergeUser(u, OverlayPatch(p, q))
    ensures MergeUser(MergeUser(u, p), p) == MergeUser(u, p)
  {
  }

  // ---------------------------------------------------------------------
  // The record and its transitions

  /** The session invariant: authenticated exactly when a user and an access token are present. */
  predicate Consistent(s: AuthState) {
    (s.isAuthenticated <==> s.user.Some?) && (s.user.Some? <==> s.accessToken.Some?)
  }

  const Anonymous: AuthState := AuthState(None, None, None, false, false)

  function LoginState(s: AuthState, u: User, accessToken: string, refreshToken: string): (r: AuthState)
    ensures Consistent(r) && r.isAuthenticated && !r.isLoading
    ensures r.user == Some(u) && r.accessToken == Some(accessToken) && r.refreshToken == Some(refreshToken)
  {
    AuthState(Some(u), Some(accessToken), Some(refreshToken), true, false)
  }

  function LogoutState(s: AuthState): (r: AuthState)
    ensures Consistent(r) && r == Anonymous
  {
    AuthState(None, None, None, false, false)
  }

  /** `set(state => ({ user: state.user ? { ...state.user, ...patch } : null }))` */
  function UpdateUserState(s: AuthState, p: UserPatch): (r: AuthState)
    ensures r.user.Some? <==> s.user.Some?
    ensures s.user.Some? ==> r.user.value == MergeUser(s.user.value, p)
    ensures r.accessToken == s.accessToken && r.refreshToken == s.refreshToken
    ensures r.isAuthenticated == s.isAuthenticated && r.isLoading == s.isLoading
  {
    s.(user := if s.user.Some? then Some(MergeUser(s.user.value, p)) else None)
  }

  function SetLoadingState(s: AuthState, b: bool): (r: AuthState)
    ensures r.isLoading == b
    ensures r.user == s.user && r.accessToken == s.accessToken && r.refreshToken == s.refreshToken
    ensures r.isAuthenticated == s.isAuthenticated
  {
    s.(isLoading := b)
  }

  /** Every transition keeps the session invariant. */
  lemma TransitionsKeepConsistent(s: AuthState, u: User, at: string, rt: string, p: UserPatch, b: bool)
    requires Consistent(s)
    ensures Consistent(LoginState(s, u, at, rt)) && Consistent(LogoutState(s))
    ensures Consistent(UpdateUserState(s, p)) && Consistent(SetLoadingState(s, b))
  {
  }

  /** Logging out twice is logging out once; logging out after any login is anonymous again. */
  lemma LogoutIdempotent(s: AuthState, u: User, at: string, rt: string)
    ensures LogoutState(LogoutState(s)) == LogoutState(s)
    ensures LogoutState(LoginState(s, u, at, rt)) == Anonymous
  {
  }

  // ---------------------------------------------------------------------
  // The persisted snapshot (`partialize`)

  datatype PersistedAuth = PersistedAuth(
    user: Option<User>,
    accessToken: Option<string>,
    refreshToken: Option<string>,
    isAuthenticated: bool)

  function Partialize(s: AuthState): PersistedAuth {
    PersistedAuth(s.user, s.accessToken, s.refreshToken, s.isAuthenticated)
  }

  /** The snapshot keeps the four session fields and forgets only `isLoading`. */
  lemma PartializeForgetsOnlyLoading(s: AuthState, t: AuthState)
    ensures Partialize(s) == Partialize(t) <==>
      s.user == t.user && s.accessToken == t.accessToken && s.refreshToken == t.refreshToken
      && s.isAuthenticated == t.isAuthenticated
    ensures Partialize(SetLoadingState(s, !s.isLoading)) == Partialize(s)
  {
  }

  // ---------------------------------------------------------------------
  // The store object

  class Store {
    var user: Option<User>
    var accessToken: Option<string>
    var refreshToken: Option<string>
    var isAuthenticated: bool
    var isLoading: bool
    /** The `accessToken` / `refreshToken` entries of `localStorage` (and any others). */
    var storage: map<string, string>
    /** The value the persistence layer keeps under `auth-storage`. */
    var persisted: PersistedAuth

    function State(): AuthState
      reads this
    {
      AuthState(user, accessToken, refreshToken, isAuthenticated, isLoading)
    }

    predicate Valid()
      reads this
    {
      Consistent(State()) && persisted == Partialize(State())
    }

    constructor(storage: map<string, string>)
      ensures Valid() && State() == Anonymous && this.storage == storage
    {
      user, accessToken, refreshToken := None, None, None;
      isAuthenticated, isLoading := false, false;
      this.storage := storage;
      persisted := PersistedAuth(None, None, None, false);
    }

    /** Commits the in-memory record to the persisted snapshot, as the persistence layer does after every `set`. */
    method Persist()
      modifies this`persisted
      ensures persisted == Partialize(State())
    {
      persisted := PersistedAuth(user, accessToken, refreshToken, isAuthenticated);
    }

    method Login(u: User, at: string, rt: string)
      requires Valid()
      modifies this
      ensures Valid() && State() == LoginState(old(State()), u, at, rt)
      ensures storage == old(storage)
    {
      user, accessToken, refreshToken := Some(u), Some(at), Some(rt);
      isAuthenticated, isLoading := true, false;
      Persist();
    }

    method Logout()
      requires Valid()
      modifies this
      ensures Valid() && State() == LogoutState(old(State()))
      ensures storage == old(storage) - {AccessTokenKey, RefreshTokenKey}
    {
      user, accessToken, refreshToken := None, None, None;
      isAuthenticated, isLoading := false, false;
      Persist();
      storage := storage - {AccessTokenKey};
      storage := storage - {RefreshTokenKey};
    }

    method UpdateUser(p: UserPatch)
      requires Valid()
      modifies this
      ensures Valid() && State() == UpdateUserState(old(State()), p)
      ensures storage == old(storage)
    {
      if user.Some? {
        user := Some(MergeUser(user.value, p));
      } else {
        user := None;
      }
      Persist();
    }

    method SetLoading(b: bool)
      requires Valid()
      modifies this
      ensures Valid() && State() == SetLoadingState(old(State()), b)
      ensures storage == old(storage) && persisted == old(persisted)
    {
      isLoading := b;
      Persist();
    }
  }
}
