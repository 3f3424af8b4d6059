/**
 * The auth slice of src/store/slices/authSlice.ts: its state record, one
 * method per reducer case, the payload creators of its three thunks, and
 * the pending/settled sequence a dispatch of each thunk runs.
 */
module AuthSlice {
  import opened Wrappers
  import opened Types
  import opened Constants
  import opened SecureStorage
  import AuthService

  datatype CheckSessionPayload = CheckSessionPayload(user: Option<User>, session: Option<Session>, biometricEnabled: bool)
  datatype SignInPayload = SignInPayload(user: Option<User>, biometricEnabled: bool)

  const SignInFailedMessage: string := "Sign in failed"

  class AuthState {
    var user: Option<User>
    var session: Option<Session>
    var isAuthenticated: bool
    var isLoading: bool
    var biometricEnabled: bool
    var error: Option<string>

    /** The intended invariant: authenticated exactly when a user is present. */
    predicate Consistent()
      reads this
    {
      isAuthenticated == user.Some?
    }

    /** `initialState`. */
    constructor ()
      ensures user == None && session == None
      ensures !isAuthenticated && isLoading && !biometricEnabled && error == None
      ensures Consistent()
    {
      user := None;
      session := None;
      isAuthenticated := false;
      isLoading := true;
      biometricEnabled := false;
      error := None;
    }

    /** `setUser`. */
    method SetUser(u: Option<User>)
      modifies this
      ensures user == u && isAuthenticated == u.Some?
      ensures session == old(session) && isLoading == old(isLoading)
      ensures biometricEnabled == old(biometricEnabled) && error == old(error)
      ensures Consistent()
    {
      user := u;
      isAuthenticated := u.Some?;
    }

    /** `setBiometricEnabled`. */
    method SetBiometricEnabled(enabled: bool)
      modifies this
      ensures biometricEnabled == enabled
      ensures user == old(user) && session == old(session) && isAuthenticated == old(isAuthenticated)
      ensures isLoading == old(isLoading) && error == old(error)
    {
      biometricEnabled := enabled;
    }

    /** `clearError`. */
    method ClearError()
      modifies this
      ensures error == None
      ensures user == old(user) && session == old(session) && isAuthenticated == old(isAuthenticated)
      ensures isLoading == old(isLoading) && biometricEnabled == old(biometricEnabled)
    {
      error := None;
    }

    /** `checkSession.pending`. */
    method CheckSessionPending()
      modifies this
      ensures isLoading
      ensures user == old(user) && session == old(session) && isAuthenticated == old(isAuthenticated)
      ensures biometricEnabled == old(biometricEnabled) && error == old(error)
    {
      isLoading := true;
    }

    /** `checkSession.fulfilled`: everything from the payload, and loading ends. */
    method CheckSessionFulfilled(p: CheckSessionPayload)
      modifies this
      ensures user == p.user && session == p.session && isAuthenticated == p.user.Some?
      ensures biometricEnabled == p.biometricEnabled && !isLoading
      ensures error == old(error)
      ensures Consistent()
    {
      user := p.user;
      session := p.session;
      isAuthenticated := p.user.Some?;
      biometricEnabled := p.biometricEnabled;
      isLoading := false;
    }

    /**
     * `checkSession.rejected`: not authenticated and no longer loading, but
     * the user is kept, so the invariant survives only if there was no user.
     */
    method CheckSessionRejected()
      modifies this
      ensures !isLoading && !isAuthenticated
      ensures user == old(user) && session == old(session)
      ensures biometricEnabled == old(biometricEnabled) && error == old(error)
      ensures Consistent() <==> old(user).None?
    {
      isLoading := false;
      isAuthenticated := false;
    }

    /** `signIn.pending`. */
    method SignInPending()
      modifies this
      ensures isLoading && error == None
      ensures user == old(user) && session == old(session) && isAuthenticated == old(isAuthenticated)
      ensures biometricEnabled == old(biometricEnabled)
    {
      isLoading := true;
      error := None;
    }

    /** `signIn.fulfilled`; the session is not touched. */
    method SignInFulfilled(p: SignInPayload)
      modifies this
      ensures user == p.user && isAuthenticated == p.user.Some?
      ensures biometricEnabled == p.biometricEnabled && !isLoading
      ensures session == old(session) && error == old(error)
      ensures Consistent()
    {
      user := p.user;
      isAuthenticated := p.user.Some?;
      biometricEnabled := p.biometricEnabled;
      isLoading := false;
    }

    /** `signIn.rejected`: the message, or "Sign in failed" when it is empty. */
    method SignInRejected(message: string)
      modifies this
      ensures !isLoading && error == Some(MessageOr(message, SignInFailedMessage))
      ensures user == old(user) && session == old(session) && isAuthenticated == old(isAuthenticated)
      ensures biometricEnabled == old(biometricEnabled)
    {
      isLoading := false;
      error := Some(if message == "" then SignInFailedMessage else message);
    }

    /** `signOut.fulfilled`. */
    method SignOutFulfilled()
      modifies this
      ensures user == None && session == None && !isAuthenticated && !biometricEnabled
      ensures isLoading == old(isLoading) && error == old(error)
      ensures Consistent()
    {
      user := None;
      session := None;
      isAuthenticated := false;
      biometricEnabled := false;
    }
  }

  /**
   * The `checkSession` payload creator. `session` is what `getSession`
   * answers (both calls of it, the thunk's and `getCurrentUser`'s) and
   * `profile` the answer of the profile lookup.
   */
  method CheckSession(store: SecureStore, session: Option<Session>, profile: Response<User>)
    returns (p: CheckSessionPayload)
    ensures session.None? ==> p == CheckSessionPayload(None, None, false)
    ensures session.Some? ==> p.session == session && p.user == AuthService.GetCurrentUser(session, profile)
    ensures p.biometricEnabled <==> p.user.Some? && AuthService.BiometricFlag(store.items, p.user.value.id)
  {
    if session.Some? {
      var user := AuthService.GetCurrentUser(session, profile);
      var biometricEnabled := false;
      if user.Some? {
        biometricEnabled := AuthService.IsBiometricEnabled(store, user.value.id);
      }
      p := CheckSessionPayload(user, session, biometricEnabled);
    } else {
      p := CheckSessionPayload(None, None, false);
    }
  }

  /**
   * The `signIn` payload creator: rethrows the service's error, else reads the
   * flag; `flagReadError` is the error the secure-store read throws, if any,
   * which rejects the thunk (the read only happens when a user came back).
   */
  method SignIn(store: SecureStore, cred: AuthService.CredentialResult, profile: Response<User>,
                flagReadError: Option<ServiceError>)
    returns (r: Settled<SignInPayload>)
    ensures var res := AuthService.SignIn(cred, profile);
      && (res.error.Some? ==> r == Rejected(res.error.value.message))
      && (res.error.None? && res.user.Some? && flagReadError.Some? ==> r == Rejected(flagReadError.value.message))
      && (res.error.None? && (res.user.None? || flagReadError.None?) ==> r.Fulfilled? && r.payload.user == res.user)
    ensures r.Fulfilled? ==>
      (r.payload.biometricEnabled <==> r.payload.user.Some? && AuthService.BiometricFlag(store.items, r.payload.user.value.id))
  {
    var res := AuthService.SignIn(cred, profile);
    if res.error.Some? {
      r := Rejected(res.error.value.message);
    } else {
      var biometricEnabled := false;
      if res.user.Some? {
        if flagReadError.Some? {
          r := Rejected(flagReadError.value.message);
          return;
        }
        biometricEnabled := AuthService.IsBiometricEnabled(store, res.user.value.id);
      }
      r := Fulfilled(SignInPayload(res.user, biometricEnabled));
    }
  }

  /**
   * `dispatch(checkSession())`: pending, then fulfilled with the payload, or
   * rejected when one of the remote calls threw (`thrown`).
   */
  method DispatchCheckSession(auth: AuthState, store: SecureStore, session: Option<Session>,
                              profile: Response<User>, thrown: bool)
    modifies auth
    ensures !auth.isLoading && auth.error == old(auth.error)
    ensures thrown ==> auth.user == old(auth.user) && !auth.isAuthenticated
    ensures thrown ==> auth.session == old(auth.session) && auth.biometricEnabled == old(auth.biometricEnabled)
    ensures !thrown ==> auth.user == (if session.None? then None else AuthService.GetCurrentUser(session, profile))
    ensures !thrown ==> auth.session == session
    ensures !thrown ==> auth.Consistent()
    ensures !thrown ==>
      (auth.biometricEnabled <==> auth.user.Some? && AuthService.BiometricFlag(store.items, auth.user.value.id))
  {
    auth.CheckSessionPending();
    if thrown {
      auth.CheckSessionRejected();
    } else {
      var p := CheckSession(store, session, profile);
      auth.CheckSessionFulfilled(p);
    }
  }

  /**
   * `dispatch(signIn(...))`: pending, then the payload creator, then the
   * settled case. A failed credential check or profile lookup never
   * authenticates and leaves an error message; a success restores the
   * invariant whatever state it started from.
   */
  method DispatchSignIn(auth: AuthState, store: SecureStore, cred: AuthService.CredentialResult,
                        profile: Response<User>, flagReadError: Option<ServiceError>)
    modifies auth
    ensures !auth.isLoading && auth.session == old(auth.session)
    ensures old(auth.Consistent()) ==> auth.Consistent()
    ensures var res := AuthService.SignIn(cred, profile);
      var rejected := res.error.Some? || (res.user.Some? && flagReadError.Some?);
      && (rejected ==> auth.user == old(auth.user) && auth.isAuthenticated == old(auth.isAuthenticated)
                       && auth.biometricEnabled == old(auth.biometricEnabled)
                       && auth.error.Some? && auth.error.value != "")
      && (!rejected ==> auth.user == res.user && auth.error == None && auth.Consistent())
    ensures AuthService.SignIn(cred, profile).error.None? && flagReadError.None? ==> auth.Consistent()
    ensures var res := AuthService.SignIn(cred, profile);
      && (res.error.Some? ==> auth.error == Some(MessageOr(res.error.value.message, SignInFailedMessage)))
      && (res.error.None? && res.user.Some? && flagReadError.Some? ==>
            auth.error == Some(MessageOr(flagReadError.value.message, SignInFailedMessage)))
      && (res.error.None? && (res.user.None? || flagReadError.None?) ==>
            (auth.biometricEnabled <==> auth.user.Some? && AuthService.BiometricFlag(store.items, auth.user.value.id)))
    ensures auth.isAuthenticated && !old(auth.isAuthenticated) ==>
      cred.Authenticated? && profile.error.None? && auth.user == profile.data && auth.user.Some?
  {
    auth.SignInPending();
    var r := SignIn(store, cred, profile, flagReadError);
    match r
    case Rejected(message) => auth.SignInRejected(message);
    case Fulfilled(p) => auth.SignInFulfilled(p);
  }

  /**
   * `dispatch(signOut())`: the service's local clean-up, then the fulfilled
   * case. `thrown` is the remote sign-out or the key deletion throwing: the
   * thunk is rejected, the slice has no case for that, and nothing changes.
   */
  method DispatchSignOut(auth: AuthState, store: SecureStore, thrown: bool)
    modifies auth, store
    ensures thrown ==> store.items == old(store.items)
    ensures thrown ==> auth.user == old(auth.user) && auth.session == old(auth.session)
    ensures thrown ==> auth.isAuthenticated == old(auth.isAuthenticated) && auth.biometricEnabled == old(auth.biometricEnabled)
    ensures !thrown ==> auth.user == None && auth.session == None && !auth.isAuthenticated && !auth.biometricEnabled
    ensures !thrown ==> auth.Consistent()
    ensures !thrown ==> store.items == old(store.items) - {BiometricEnabledKey}
    ensures auth.isLoading == old(auth.isLoading) && auth.error == old(auth.error)
  {
    if thrown {
      return;
    }
    AuthService.SignOut(store);
    auth.SignOutFulfilled();
  }

  /**
   * A reachable state that breaks the invariant: a signed-in user followed
   * by a rejected `checkSession` keeps the user while not authenticated.
   */
  method RejectedCheckKeepsStaleUser(u: User) returns (auth: AuthState)
    ensures fresh(auth)
    ensures auth.user == Some(u) && !auth.isAuthenticated && !auth.isLoading && !auth.Consistent()
  {
    auth := new AuthState();
    auth.SignInFulfilled(SignInPayload(Some(u), false));
    auth.CheckSessionRejected();
  }

  /**
   * From that stale state a successful sign-in, for any user, brings the
   * slice back to its invariant.
   */
  method SignInRepairsStaleUser(u: User, v: User) returns (auth: AuthState)
    ensures auth.user == Some(v) && auth.isAuthenticated && auth.Consistent()
  {
    auth := RejectedCheckKeepsStaleUser(u);
    var store := new SecureStore(map[]);
    DispatchSignIn(auth, store, AuthService.Authenticated(v.id), Response(Some(v), None), None);
  }
}
