/**
 * AuthService of src/lib/services/authService.ts. The OS biometric API and
 * the remote auth/profile calls are inputs; the secure store is a
 * `SecureStore` object whose map the methods read and write.
 */
module AuthService {
  import opened Wrappers
  import opened Types
  import opened Constants
  import opened SecureStorage

  /** What `LocalAuthentication.authenticateAsync` did: answered, or threw. */
  datatype PromptOutcome = Answered(success: bool) | Threw

  /** `isBiometricAvailable`: hardware present and a biometric enrolled. */
  function IsBiometricAvailable(hasHardware: bool, isEnrolled: bool): (available: bool)
    ensures available ==> hasHardware
    ensures available ==> isEnrolled
    ensures hasHardware && isEnrolled ==> available
  {
    hasHardware && isEnrolled
  }

  /** `authenticateWithBiometric`: the prompt's verdict; a thrown prompt is a failure. */
  function AuthenticateWithBiometric(prompt: PromptOutcome): (ok: bool)
    ensures prompt == Threw ==> !ok
    ensures prompt.Answered? ==> ok == prompt.success
  {
    match prompt
    case Answered(success) => success
    case Threw => false
  }

  /** `requiresBiometric`: the privileged roles. */
  function RequiresBiometric(role: Role): (r: bool)
    ensures r <==> role != Staff
  {
    role == SuperAdmin || role == Admin
  }

  /** What `signInWithPassword` answered: the authenticated subject, or an error. */
  datatype CredentialResult = Authenticated(subjectId: string) | CredentialError(error: ServiceError)

  /** The `{ user, error }` object `signIn` resolves to. */
  datatype SignInResult = SignInResult(user: Option<User>, error: Option<ServiceError>)

  /**
   * `signIn`: the credential check, then the profile lookup for its subject;
   * either error is caught and returned with a null user. `profile` is the
   * answer of the lookup and is only consulted after a successful check.
   */
  function SignIn(cred: CredentialResult, profile: Response<User>): (r: SignInResult)
    ensures r.error.Some? ==> r.user.None?
    ensures cred.CredentialError? ==> r.error == Some(cred.error)
    ensures cred.Authenticated? && profile.error.Some? ==> r.error == profile.error
    ensures r.error.None? <==> cred.Authenticated? && profile.error.None?
    ensures r.error.None? ==> r.user == profile.data
  {
    match cred
    case CredentialError(e) => SignInResult(None, Some(e))
    case Authenticated(_) =>
      match profile.error
      case Some(e) => SignInResult(None, Some(e))
      case None => SignInResult(profile.data, None)
  }

  /**
   * `getCurrentUser`: no session, a failed lookup or a missing row all give
   * null; otherwise the profile row.
   */
  function GetCurrentUser(session: Option<Session>, profile: Response<User>): (user: Option<User>)
    ensures user.Some? <==> session.Some? && profile.error.None? && profile.data.Some?
    ensures user.Some? ==> user == profile.data
  {
    if session.None? || profile.error.Some? || profile.data.None? then None else profile.data
  }

  /** The per-user key `biometric_enabled_<userId>`. */
  function BiometricKey(userId: string): (key: string)
    ensures |key| == |BiometricEnabledKey| + 1 + |userId|
    ensures key[..|BiometricEnabledKey|] == BiometricEnabledKey
    ensures key[|BiometricEnabledKey|] == '_'
    ensures key[|BiometricEnabledKey| + 1..] == userId
  {
    BiometricEnabledKey + "_" + userId
  }

  /** Distinct users get distinct keys. */
  lemma BiometricKeyInjective(a: string, b: string)
    requires BiometricKey(a) == BiometricKey(b)
    ensures a == b
  {
    var n := |BiometricEnabledKey| + 1;
    assert a == BiometricKey(a)[n..];
    assert b == BiometricKey(b)[n..];
  }

  /** No per-user key is the un-namespaced key that `signOut` deletes. */
  lemma BiometricKeyIsNamespaced(userId: string)
    ensures BiometricKey(userId) != BiometricEnabledKey
  {
  }

  /** Whether the stored flag for `userId` reads as enabled: the value is exactly "true". */
  ghost function BiometricFlag(items: map<string, string>, userId: string): bool {
    BiometricKey(userId) in items && items[BiometricKey(userId)] == "true"
  }

  /** `isBiometricEnabled`. */
  method IsBiometricEnabled(store: SecureStore, userId: string) returns (enabled: bool)
    ensures enabled <==> BiometricKey(userId) in store.items && store.items[BiometricKey(userId)] == "true"
  {
    var stored := store.GetItem(BiometricKey(userId));
    enabled := stored == Some("true");
  }

  /** `enableBiometric`: writes "true" under the user's key and nothing else. */
  method EnableBiometric(store: SecureStore, userId: string)
    modifies store
    ensures store.items == old(store.items)[BiometricKey(userId) := "true"]
    ensures BiometricFlag(store.items, userId)
  {
    store.SetItem(BiometricKey(userId), "true");
  }

  /** `signOut`, local part: deletes the un-namespaced key `biometric_enabled`. */
  method SignOut(store: SecureStore)
    modifies store
    ensures store.items == old(store.items) - {BiometricEnabledKey}
    ensures forall id :: BiometricFlag(store.items, id) == BiometricFlag(old(store.items), id)
  {
    store.DeleteItem(BiometricEnabledKey);
    forall id ensures BiometricFlag(store.items, id) == BiometricFlag(old(store.items), id) {
      BiometricKeyIsNamespaced(id);
    }
  }

  /** After enabling for `userId`, that user reads as enabled and every other user reads as before. */
  lemma EnableBiometricFlags(items: map<string, string>, userId: string, other: string)
    ensures BiometricFlag(items[BiometricKey(userId) := "true"], userId)
    ensures other != userId ==>
      BiometricFlag(items[BiometricKey(userId) := "true"], other) == BiometricFlag(items, other)
  {
    if other != userId && BiometricKey(other) == BiometricKey(userId) {
      BiometricKeyInjective(other, userId);
    }
  }
}
