/** The `auth` domain of the application state (`authSlice` in
    authSlice.ts): its reducers as methods of a class holding the slice's
    three fields, and each thunk as the service call followed by the reducer
    case that handles its outcome. */
module AuthSlice {
  import opened Wrappers
  import opened Types
  import opened Storage
  import opened AuthService

  const LoginFailed := "Login failed"
  const RegistrationFailed := "Registration failed"

  class Slice {
    var user: Option<User>
    var isLoading: bool
    var error: Option<string>

    function State(): AuthState
      reads this
    {
      AuthState(user, isLoading, error)
    }

    /** `initialState`: nobody signed in. */
    constructor ()
      ensures State() == AuthState(None, false, None)
    {
      user := None;
      isLoading := false;
      error := None;
    }

    method ClearError()
      modifies this
      ensures State() == old(State()).(error := None)
    {
      error := None;
    }

    /** `loginUser.pending` and `registerUser.pending`. */
    method Pending()
      modifies this
      ensures State() == old(State()).(isLoading := true, error := None)
    {
      isLoading := true;
      error := None;
    }

    /** `loginUser.fulfilled` and `registerUser.fulfilled`. */
    method Fulfilled(signedIn: User)
      modifies this
      ensures State() == AuthState(Some(signedIn), false, None)
    {
      isLoading := false;
      user := Some(signedIn);
      error := None;
    }

    /** `loginUser.rejected` and `registerUser.rejected`, with their own
        fallback messages: the user stays as it was. */
    method Rejected(message: Option<string>, fallback: string)
      requires fallback == LoginFailed || fallback == RegistrationFailed
      modifies this
      ensures error.Some? && error.value != ""
      ensures State() == old(State()).(isLoading := false, error := Some(ErrorText(message, fallback)))
    {
      isLoading := false;
      error := Some(ErrorText(message, fallback));
    }

    /** `logoutUser.fulfilled`: `isLoading` is not touched. */
    method LogoutFulfilled()
      modifies this
      ensures State() == old(State()).(user := None, error := None)
    {
      user := None;
      error := None;
    }

    /** `checkAuthStatus.fulfilled`: `error` is not touched. */
    method CheckAuthStatusFulfilled(current: Option<User>)
      modifies this
      ensures State() == old(State()).(user := current, isLoading := false)
    {
      user := current;
      isLoading := false;
    }
  }

  // ---------------------------------------------------------------------
  // The thunks.

  /** Wrong credentials leave the user as it was and report "Invalid credentials". */
  method DispatchLogin(slice: Slice, store: KeyValueStore, email: string, password: string, now: Timestamp)
    returns (r: Result<User, string>)
    modifies slice, store
    ensures r == LoginResult(email, password, now)
    ensures r.Success? ==> slice.State() == AuthState(Some(DemoUser(now)), false, None)
    ensures r.Success? ==> store.items == old(store.items)[AuthTokenKey := Token(MockToken)]
    ensures r.Failure? ==> slice.State() == old(slice.State()).(isLoading := false, error := Some(InvalidCredentials))
    ensures r.Failure? ==> store.items == old(store.items)
  {
    slice.Pending();
    r := Login(store, email, password, now);
    if r.Success? {
      slice.Fulfilled(r.value);
    } else {
      slice.Rejected(Some(r.error), LoginFailed);
    }
  }

  /** The mock registration never fails. */
  method DispatchRegister(slice: Slice, store: KeyValueStore, email: string, password: string,
                          name: Option<string>, clockMs: nat, now: Timestamp)
    modifies slice, store
    ensures slice.State() == AuthState(Some(User(DecimalString(clockMs), email, name, now)), false, None)
    ensures store.items == old(store.items)[AuthTokenKey := Token(MockToken)]
  {
    slice.Pending();
    var user := Register(store, email, password, name, clockMs, now);
    slice.Fulfilled(user);
  }

  /** No pending or rejected case exists for logoutUser. */
  method DispatchLogout(slice: Slice, store: KeyValueStore)
    modifies slice, store
    ensures slice.State() == old(slice.State()).(user := None, error := None)
    ensures store.items == old(store.items) - {AuthTokenKey}
  {
    Logout(store);
    slice.LogoutFulfilled();
  }

  /** No pending or rejected case exists for checkAuthStatus. */
  method DispatchCheckAuthStatus(slice: Slice, store: KeyValueStore, now: Timestamp)
    modifies slice
    ensures slice.State() == old(slice.State()).(user := CurrentUserFor(TokenIn(store.items), now), isLoading := false)
  {
    var current := GetCurrentUser(store, now);
    slice.CheckAuthStatusFulfilled(current);
  }
}
