/**
 * The client's authentication store (`authStore.ts`): the signed-in user,
 * the session token and the two flags, together with the token persisted
 * under `auth_token`. Every action is an explicit transition; an awaited
 * server reply is a parameter, and an action whose reply failed returns the
 * error it rethrows.
 */
module AuthStore {
  import opened Common

  datatype Role = Customer | Shopkeeper

  datatype User = User(id: string, email: string, name: string, role: Role, shopId: Option<string>)

  /** A `Partial<User>`: each field present or absent. */
  datatype UserPatch = UserPatch(
    id: Option<string>,
    email: Option<string>,
    name: Option<string>,
    role: Option<Role>,
    shopId: Option<Option<string>>)

  /** The reply of `authAPI.login`/`register`, or the error they threw. */
  datatype SignInReply = SignedIn(user: User, token: string) | SignInFailed(error: string)

  /** The reply of `authAPI.getCurrentUser`. */
  datatype MeReply = Me(user: User) | MeFailed

  datatype AuthState = AuthState(
    user: Option<User>,
    token: Option<string>,
    isAuthenticated: bool,
    isLoading: bool,
    stored: Option<string>)

  /** JavaScript truthiness of a possibly missing string. */
  predicate Present(s: Option<string>)
  {
    s.Some? && s.value != ""
  }

  /** The store's coherence: authenticated exactly when a user is held, and then with a token. */
  predicate Coherent(s: AuthState)
  {
    (s.isAuthenticated <==> s.user.Some?) && (s.isAuthenticated ==> s.token.Some?)
  }

  /** The store as created: nobody signed in, nothing loading. */
  function Initial(stored: Option<string>): (r: AuthState)
    ensures Coherent(r) && !r.isAuthenticated && !r.isLoading && r.stored == stored
  {
    AuthState(None, None, false, false, stored)
  }

  /** `set({ isLoading: true })`, the first step of `login`, `register` and an authenticating `checkAuth`. */
  function StartLoading(s: AuthState): (r: AuthState)
    ensures Coherent(s) ==> Coherent(r)
    ensures r.isLoading && r.user == s.user && r.token == s.token && r.isAuthenticated == s.isAuthenticated
  {
    s.(isLoading := true)
  }

  /**
   * The end of `login` or `register`: on success the user and token are
   * taken and the token is persisted when non-empty; on failure only the
   * loading flag drops.
   */
  function SignInSettle(s: AuthState, reply: SignInReply): (r: AuthState)
    ensures Coherent(s) ==> Coherent(r)
    ensures !r.isLoading
    ensures reply.SignedIn? ==> r.isAuthenticated && r.user == Some(reply.user) && r.token == Some(reply.token)
    ensures reply.SignedIn? && reply.token != "" ==> r.stored == Some(reply.token)
    ensures reply.SignInFailed? ==> r.user == s.user && r.token == s.token &&
                                     r.isAuthenticated == s.isAuthenticated && r.stored == s.stored
  {
    match reply
    case SignedIn(u, t) =>
      AuthState(Some(u), Some(t), true, false, if t != "" then Some(t) else s.stored)
    case SignInFailed(_) =>
      s.(isLoading := false)
  }

  /** `logout`: whatever the server answered, the session and the stored token are gone. */
  function SignedOut(s: AuthState): (r: AuthState)
    ensures Coherent(r) && !r.isAuthenticated && r.user.None? && r.token.None? && r.stored.None?
    ensures r.isLoading == s.isLoading
  {
    s.(user := None, token := None, isAuthenticated := false, stored := None)
  }

  /**
   * The synchronous part of `checkAuth`: without a stored token the store
   * becomes signed out and no request is made; with one, loading starts.
   */
  function CheckAuthStart(s: AuthState): (r: AuthState)
    ensures Coherent(s) ==> Coherent(r)
    ensures !Present(s.stored) ==> !r.isAuthenticated && r.user.None? && r.token.None? && r.isLoading == s.isLoading
    ensures Present(s.stored) ==> r.isLoading && r.user == s.user && r.isAuthenticated == s.isAuthenticated
    ensures r.stored == s.stored
  {
    if !Present(s.stored) then s.(user := None, token := None, isAuthenticated := false)
    else StartLoading(s)
  }

  /**
   * The end of an authenticating `checkAuth`, given the token it read at its
   * start: that token is adopted, or everything is cleared.
   */
  function CheckAuthSettle(s: AuthState, read: string, reply: MeReply): (r: AuthState)
    ensures Coherent(r) && !r.isLoading
    ensures reply.Me? ==> r.isAuthenticated && r.user == Some(reply.user) && r.token == Some(read) && r.stored == s.stored
    ensures reply.MeFailed? ==> !r.isAuthenticated && r.user.None? && r.token.None? && r.stored.None?
  {
    match reply
    case Me(u) => s.(user := Some(u), token := Some(read), isAuthenticated := true, isLoading := false)
    case MeFailed => AuthState(None, None, false, false, None)
  }

  /** `{ ...user, ...updates }`. */
  function Merge(u: User, p: UserPatch): (r: User)
    ensures r.id == (if p.id.Some? then p.id.value else u.id)
    ensures r.email == (if p.email.Some? then p.email.value else u.email)
    ensures r.name == (if p.name.Some? then p.name.value else u.name)
    ensures r.role == (if p.role.Some? then p.role.value else u.role)
    ensures r.shopId == (if p.shopId.Some? then p.shopId.value else u.shopId)
  {
    User(
      p.id.GetOr(u.id),
      p.email.GetOr(u.email),
      p.name.GetOr(u.name),
      p.role.GetOr(u.role),
      p.shopId.GetOr(u.shopId))
  }

  /** `updateUser`: merges into a signed-in user, and does nothing when no user is held. */
  function Patched(s: AuthState, p: UserPatch): (r: AuthState)
    ensures Coherent(s) ==> Coherent(r)
    ensures s.user.None? ==> r == s
    ensures s.user.Some? ==> r == s.(user := Some(Merge(s.user.value, p)))
  {
    if s.user.Some? then s.(user := Some(Merge(s.user.value, p))) else s
  }

  /** An empty patch changes nothing, and a patch applied twice has the effect of applying it once. */
  lemma UpdateUserIdempotent(s: AuthState, p: UserPatch)
    ensures Patched(s, UserPatch(None, None, None, None, None)) == s
    ensures Patched(Patched(s, p), p) == Patched(s, p)
  {
  }

  /** A session restored by `checkAuth` uses exactly the token that was stored, and survives in storage. */
  lemma CheckAuthRestores(s: AuthState, u: User)
    requires Present(s.stored)
    ensures var r := CheckAuthSettle(CheckAuthStart(s), s.stored.value, Me(u));
      r.isAuthenticated && r.token == s.stored && r.stored == s.stored && r.user == Some(u)
  {
  }

  /** A failed sign-in leaves the previous session as it was, so a signed-in user stays signed in. */
  lemma FailedSignInKeepsSession(s: AuthState, e: string)
    requires Coherent(s)
    ensures var r := SignInSettle(StartLoading(s), SignInFailed(e));
      r == s.(isLoading := false) && Coherent(r)
  {
  }

  /** After `logout`, a `checkAuth` cannot restore the session: it signs out without a request. */
  lemma LogoutThenCheckAuth(s: AuthState)
    ensures var r := CheckAuthStart(SignedOut(s));
      !r.isAuthenticated && r.user.None? && r.isLoading == s.isLoading
  {
  }

  /** The store's fields and the persisted `auth_token`. */
  class Store {
    var user: Option<User>
    var token: Option<string>
    var isAuthenticated: bool
    var isLoading: bool
    var stored: Option<string>

    function State(): AuthState
      reads this
    {
      AuthState(user, token, isAuthenticated, isLoading, stored)
    }

    constructor(stored: Option<string>)
      ensures State() == Initial(stored)
    {
      user := None;
      token := None;
      isAuthenticated := false;
      isLoading := false;
      this.stored := stored;
    }

    /** `set({ isLoading: true })` before the sign-in request. */
    method BeginSignIn()
      modifies this
      ensures State() == StartLoading(old(State()))
    {
      isLoading := true;
    }

    /** The rest of `login` or `register` once the reply is in; `err` is what is rethrown. */
    method SettleSignIn(reply: SignInReply) returns (err: Option<string>)
      modifies this
      ensures State() == SignInSettle(old(State()), reply)
      ensures err.Some? <==> reply.SignInFailed?
      ensures reply.SignInFailed? ==> err == Some(reply.error)
    {
      match reply {
        case SignedIn(u, t) =>
          if t != "" {
            stored := Some(t);
          }
          user := Some(u);
          token := Some(t);
          isAuthenticated := true;
          isLoading := false;
          err := None;
        case SignInFailed(e) =>
          isLoading := false;
          err := Some(e);
      }
    }

    method Logout()
      modifies this
      ensures State() == SignedOut(old(State()))
    {
      stored := None;
      user := None;
      token := None;
      isAuthenticated := false;
    }

    /** The first part of `checkAuth`; it yields the token read when `getCurrentUser` is to be called. */
    method BeginCheckAuth() returns (read: Option<string>)
      modifies this
      ensures State() == CheckAuthStart(old(State()))
      ensures read.Some? <==> Present(old(stored))
      ensures read.Some? ==> read == old(stored)
    {
      if stored.None? || stored.value == "" {
        user := None;
        token := None;
        isAuthenticated := false;
        return None;
      }
      isLoading := true;
      read := stored;
    }

    /** The rest of `checkAuth`, given the token read by `BeginCheckAuth`. */
    method SettleCheckAuth(read: string, reply: MeReply)
      modifies this
      ensures State() == CheckAuthSettle(old(State()), read, reply)
    {
      match reply {
        case Me(u) =>
          user := Some(u);
          token := Some(read);
          isAuthenticated := true;
          isLoading := false;
        case MeFailed =>
          user := None;
          token := None;
          isAuthenticated := false;
          isLoading := false;
          stored := None;
      }
    }

    method UpdateUser(p: UserPatch)
      modifies this
      ensures State() == Patched(old(State()), p)
    {
      if user.Some? {
        user := Some(Merge(user.value, p));
      }
    }
  }
}
