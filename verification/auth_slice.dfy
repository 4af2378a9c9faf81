/** The authentication slice: the signed-in user, whether the session is
    authenticated, and the loading/error status of the last request. */
module AuthSlice {
  import opened Nullable
  import opened Entities
  import opened Thunk

  datatype AuthState = AuthState(
    user: Option<User>,
    isAuthenticated: bool,
    isLoading: bool,
    error: Option<string>)

  const InitialState := AuthState(None, false, false, None)

  /** The synchronous `logout` and `clearError` actions and the lifecycle
      actions of the four thunks. Register and login responses are never
      read, so their payload is opaque. */
  datatype AuthAction =
    | Logout
    | ClearError
    | RegisterUser(register: AsyncAction<Json>)
    | LoginUser(login: AsyncAction<Json>)
    | GetUser(get: AsyncAction<User>)
    | UpdateUser(update: AsyncAction<User>)
  {
    /** The `pending` action of one of the four thunks. */
    predicate IsPending()
    {
      || (RegisterUser? && register.Pending?)
      || (LoginUser? && login.Pending?)
      || (GetUser? && get.Pending?)
      || (UpdateUser? && update.Pending?)
    }

    /** The `rejected` action of one of the four thunks, with its message. */
    predicate IsRejectedWith(msg: string)
    {
      || (RegisterUser? && register == Rejected(msg))
      || (LoginUser? && login == Rejected(msg))
      || (GetUser? && get == Rejected(msg))
      || (UpdateUser? && update == Rejected(msg))
    }

    /** Every rejection carries a non-empty message, as the thunks guarantee. */
    predicate FromThunk()
    {
      match this
      case Logout => true
      case ClearError => true
      case RegisterUser(a) => Dispatchable(a)
      case LoginUser(a) => Dispatchable(a)
      case GetUser(a) => Dispatchable(a)
      case UpdateUser(a) => Dispatchable(a)
    }
  }

  const RegistrationFailed := "Registration failed"
  const LoginFailed := "Login failed"
  const FetchUserFailed := "Failed to fetch user"
  const UpdateUserFailed := "Failed to update user"

  /** `registerUser`: POST /auth/register, message from the `message` field. */
  function RegisterUserThunk(resp: Response<Json>): (a: AuthAction)
    ensures a.RegisterUser? && !a.register.Pending?
    ensures a.register.Fulfilled? <==> resp.Ok?
    ensures a.register.Fulfilled? ==> a.register.payload == resp.data
    ensures a.register.Rejected? ==> a.register.message == RejectionMessage(resp.body, MessageKey, "Registration failed")
    ensures a.register.Rejected? ==> a.register.message != ""
  {
    RegisterUser(Settle(resp, MessageKey, RegistrationFailed))
  }

  /** `loginUser`: POST /auth/login. */
  function LoginUserThunk(resp: Response<Json>): (a: AuthAction)
    ensures a.LoginUser? && !a.login.Pending?
    ensures a.login.Fulfilled? <==> resp.Ok?
    ensures a.login.Fulfilled? ==> a.login.payload == resp.data
    ensures a.login.Rejected? ==> a.login.message == RejectionMessage(resp.body, MessageKey, "Login failed")
    ensures a.login.Rejected? ==> a.login.message != ""
  {
    LoginUser(Settle(resp, MessageKey, LoginFailed))
  }

  /** `getUser`: GET /user. */
  function GetUserThunk(resp: Response<User>): (a: AuthAction)
    ensures a.GetUser? && !a.get.Pending?
    ensures a.get.Fulfilled? <==> resp.Ok?
    ensures a.get.Fulfilled? ==> a.get.payload == resp.data
    ensures a.get.Rejected? ==> a.get.message == RejectionMessage(resp.body, MessageKey, "Failed to fetch user")
    ensures a.get.Rejected? ==> a.get.message != ""
  {
    GetUser(Settle(resp, MessageKey, FetchUserFailed))
  }

  /** `updateUser`: PUT /user. */
  function UpdateUserThunk(resp: Response<User>): (a: AuthAction)
    ensures a.UpdateUser? && !a.update.Pending?
    ensures a.update.Fulfilled? <==> resp.Ok?
    ensures a.update.Fulfilled? ==> a.update.payload == resp.data
    ensures a.update.Rejected? ==> a.update.message == RejectionMessage(resp.body, MessageKey, "Failed to update user")
    ensures a.update.Rejected? ==> a.update.message != ""
  {
    UpdateUser(Settle(resp, MessageKey, UpdateUserFailed))
  }

  /** The slice reducer. */
  function Reduce(s: AuthState, a: AuthAction): (s': AuthState)
    // loading and a recorded error are never both set
    ensures !(s'.isLoading && s'.error.Some?)
    // only a pending action starts loading; every completion stops it
    ensures s'.isLoading <==> a.IsPending() || ((a.Logout? || a.ClearError?) && s.isLoading)
    // an error appears only as the message of a rejection
    ensures s'.error.Some? ==> s'.error == s.error || a.IsRejectedWith(s'.error.value)
    // the user record changes only on logout or a fetched/updated user
    ensures s'.user != s.user ==>
              a.Logout? || (a.GetUser? && a.get.Fulfilled?) || (a.UpdateUser? && a.update.Fulfilled?)
  {
    match a
    case Logout => s.(user := None, isAuthenticated := false, error := None)
    case ClearError => s.(error := None)
    case RegisterUser(r) =>
      (match r
         case Pending => s.(isLoading := true, error := None)
         case Fulfilled(_) => s.(isLoading := false, isAuthenticated := true)
         case Rejected(msg) => s.(isLoading := false, error := Some(msg)))
    case LoginUser(r) =>
      (match r
         case Pending => s.(isLoading := true, error := None)
         case Fulfilled(_) => s.(isLoading := false, isAuthenticated := true)
         case Rejected(msg) => s.(isLoading := false, error := Some(msg)))
    case GetUser(r) =>
      (match r
         case Pending => s.(isLoading := true, error := None)
         case Fulfilled(u) => s.(isLoading := false, user := Some(u), isAuthenticated := true)
         case Rejected(msg) => s.(isLoading := false, error := Some(msg), isAuthenticated := false))
    case UpdateUser(r) =>
      (match r
         case Pending => s.(isLoading := true, error := None)
         case Fulfilled(u) => s.(isLoading := false, user := Some(u))
         case Rejected(msg) => s.(isLoading := false, error := Some(msg)))
  }

  /** Every `pending` starts loading and clears the error, and leaves the
      session alone. */
  lemma PendingStartsRequest(s: AuthState, a: AuthAction)
    requires a.IsPending()
    ensures Reduce(s, a) == s.(isLoading := true, error := None)
    ensures Reduce(s, a).user == s.user && Reduce(s, a).isAuthenticated == s.isAuthenticated
  {
  }

  /** A successful register or login authenticates without touching `user`:
      the profile arrives only through `getUser`. */
  lemma SessionFulfilledAuthenticates(s: AuthState, body: Json)
    ensures Reduce(s, RegisterUser(Fulfilled(body))) == s.(isLoading := false, isAuthenticated := true)
    ensures Reduce(s, LoginUser(Fulfilled(body))) == s.(isLoading := false, isAuthenticated := true)
  {
  }

  /** A fetched user becomes the session user and authenticates it; a failed
      fetch de-authenticates but keeps the stale user record. */
  lemma GetUserSettles(s: AuthState, u: User, msg: string)
    ensures Reduce(s, GetUser(Fulfilled(u))) == s.(isLoading := false, user := Some(u), isAuthenticated := true)
    ensures Reduce(s, GetUser(Rejected(msg))) == s.(isLoading := false, error := Some(msg), isAuthenticated := false)
    ensures Reduce(s, GetUser(Rejected(msg))).user == s.user
  {
  }

  /** Register, login and update failures record the message and leave the
      session as it was. */
  lemma RejectedRecordsError(s: AuthState, a: AuthAction, msg: string)
    requires a == RegisterUser(Rejected(msg)) || a == LoginUser(Rejected(msg)) || a == UpdateUser(Rejected(msg))
    ensures Reduce(s, a) == s.(isLoading := false, error := Some(msg))
  {
  }

  /** An updated profile replaces the user; authentication is not touched. */
  lemma UpdateUserFulfilled(s: AuthState, u: User)
    ensures Reduce(s, UpdateUser(Fulfilled(u))) == s.(isLoading := false, user := Some(u))
  {
  }

  /** Logout ends the session and clears the error but not the loading flag. */
  lemma LogoutEndsSession(s: AuthState)
    ensures Reduce(s, Logout) == AuthState(None, false, s.isLoading, None)
  {
  }

  /** `clearError` changes only the error, and a second one changes nothing. */
  lemma ClearErrorOnlyError(s: AuthState)
    ensures Reduce(s, ClearError) == s.(error := None)
    ensures Reduce(Reduce(s, ClearError), ClearError) == Reduce(s, ClearError)
  {
  }

  /** Each thunk rejects with the server's non-empty `message`, otherwise
      with its own fallback string, so none of them rejects with an empty
      message. */
  lemma ThunkRejectionMessages(raw: Response<Json>, resp: Response<User>)
    requires raw.Failed? && resp.Failed?
    ensures RegisterUserThunk(raw) == RegisterUser(Rejected(RejectionMessage(raw.body, MessageKey, "Registration failed")))
    ensures LoginUserThunk(raw) == LoginUser(Rejected(RejectionMessage(raw.body, MessageKey, "Login failed")))
    ensures GetUserThunk(resp) == GetUser(Rejected(RejectionMessage(resp.body, MessageKey, "Failed to fetch user")))
    ensures UpdateUserThunk(resp) == UpdateUser(Rejected(RejectionMessage(resp.body, MessageKey, "Failed to update user")))
    ensures RegisterUserThunk(raw).FromThunk() && LoginUserThunk(raw).FromThunk()
    ensures GetUserThunk(resp).FromThunk() && UpdateUserThunk(resp).FromThunk()
  {
  }

  /** From the initial state, whatever the thunks dispatch and in whatever
      order, a recorded error is a non-empty message and is never shown
      together with the loading flag. */
  lemma {:induction false} ReplayKeepsStatusConsistent(acts: seq<AuthAction>)
    requires forall i :: 0 <= i < |acts| ==> acts[i].FromThunk()
    ensures var s := Replay(Reduce, InitialState, acts);
            && !(s.isLoading && s.error.Some?)
            && (s.error.Some? ==> s.error.value != "")
  {
    if |acts| > 0 {
      ReplayKeepsStatusConsistent(acts[..|acts| - 1]);
    }
  }

  /** Overlapping requests are not tracked: a second `pending` followed by
      its completion clears the loading flag while the first request is
      still outstanding, and the last completion to arrive wins. */
  lemma OverlappingRequestsClearLoading(s: AuthState, u: User)
    ensures Replay(Reduce, s, [LoginUser(Pending), GetUser(Pending), GetUser(Fulfilled(u))]).isLoading == false
  {
  }
}
