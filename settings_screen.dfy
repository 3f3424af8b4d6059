/**
 * The biometric toggle of src/components/SettingsScreen.tsx and the
 * condition under which the screen shows its switch.
 */
module SettingsScreen {
  import opened Wrappers
  import opened Types
  import opened SecureStorage
  import AuthService
  import AuthSlice

  /** What the device's biometric API would answer if asked. */
  datatype Device = Device(hasHardware: bool, isEnrolled: bool, prompt: AuthService.PromptOutcome)

  /** The external calls the handler makes, in order. */
  datatype Step = CheckAvailability | Challenge | Persist

  /**
   * How the handler ended; `WriteFailed` is the secure-store write throwing,
   * which rejects the handler's promise before the switch is dispatched.
   */
  datatype ToggleOutcome = NoUser | Unavailable | ChallengeFailed | WriteFailed | Enabled | Disabled

  /** The switch is shown to admin and super_admin users only. */
  function ShowBiometricSwitch(user: Option<User>): (shown: bool)
    ensures shown <==> user.Some? && AuthService.RequiresBiometric(user.value.role)
  {
    user.Some? && (user.value.role == SuperAdmin || user.value.role == Admin)
  }

  /**
   * `handleToggleBiometric`, as written: with no user nothing happens;
   * enabling asks for availability, then for the challenge, then writes the
   * user's flag; disabling writes "true" again and clears the in-memory flag.
   * `writeThrew` is the secure-store write throwing: the handler stops there.
   */
  method HandleToggleBiometric(auth: AuthSlice.AuthState, store: SecureStore, device: Device, writeThrew: bool)
    returns (outcome: ToggleOutcome, steps: seq<Step>)
    modifies auth, store
    ensures auth.user == old(auth.user) && auth.session == old(auth.session)
    ensures auth.isAuthenticated == old(auth.isAuthenticated) && auth.isLoading == old(auth.isLoading)
    ensures auth.error == old(auth.error)
    ensures old(auth.user).None? ==>
      outcome == NoUser && steps == [] && store.items == old(store.items)
      && auth.biometricEnabled == old(auth.biometricEnabled)
    ensures (old(auth.user).Some? && !old(auth.biometricEnabled)
             && !AuthService.IsBiometricAvailable(device.hasHardware, device.isEnrolled)) ==>
      outcome == Unavailable && steps == [CheckAvailability]
      && store.items == old(store.items) && !auth.biometricEnabled
    ensures (old(auth.user).Some? && !old(auth.biometricEnabled)
             && AuthService.IsBiometricAvailable(device.hasHardware, device.isEnrolled)
             && !AuthService.AuthenticateWithBiometric(device.prompt)) ==>
      outcome == ChallengeFailed && steps == [CheckAvailability, Challenge]
      && store.items == old(store.items) && !auth.biometricEnabled
    ensures (old(auth.user).Some? && !old(auth.biometricEnabled)
             && AuthService.IsBiometricAvailable(device.hasHardware, device.isEnrolled)
             && AuthService.AuthenticateWithBiometric(device.prompt) && writeThrew) ==>
      outcome == WriteFailed && steps == [CheckAvailability, Challenge, Persist]
      && store.items == old(store.items) && !auth.biometricEnabled
    ensures (old(auth.user).Some? && !old(auth.biometricEnabled)
             && AuthService.IsBiometricAvailable(device.hasHardware, device.isEnrolled)
             && AuthService.AuthenticateWithBiometric(device.prompt) && !writeThrew) ==>
      outcome == Enabled && steps == [CheckAvailability, Challenge, Persist]
      && store.items == old(store.items)[AuthService.BiometricKey(old(auth.user).value.id) := "true"]
      && auth.biometricEnabled
    ensures (old(auth.user).Some? && old(auth.biometricEnabled) && writeThrew) ==>
      outcome == WriteFailed && steps == [Persist]
      && store.items == old(store.items) && auth.biometricEnabled
    ensures (old(auth.user).Some? && old(auth.biometricEnabled) && !writeThrew) ==>
      outcome == Disabled && steps == [Persist] && !auth.biometricEnabled
      && store.items == old(store.items)[AuthService.BiometricKey(old(auth.user).value.id) := "true"]
  {
    steps := [];
    if auth.user.None? {
      outcome := NoUser;
      return;
    }
    var user := auth.user.value;
    if !auth.biometricEnabled {
      var available := AuthService.IsBiometricAvailable(device.hasHardware, device.isEnrolled);
      steps := steps + [CheckAvailability];
      if !available {
        outcome := Unavailable;
        return;
      }
      var success := AuthService.AuthenticateWithBiometric(device.prompt);
      steps := steps + [Challenge];
      if success {
        steps := steps + [Persist];
        if writeThrew {
          outcome := WriteFailed;
          return;
        }
        AuthService.EnableBiometric(store, user.id);
        auth.SetBiometricEnabled(true);
        outcome := Enabled;
      } else {
        outcome := ChallengeFailed;
      }
    } else {
      steps := steps + [Persist];
      if writeThrew {
        outcome := WriteFailed;
        return;
      }
      AuthService.EnableBiometric(store, user.id);
      auth.SetBiometricEnabled(false);
      outcome := Disabled;
    }
  }

  /**
   * The discrepancy of the disable branch: after switching biometrics off,
   * the next session restore for the same user reads the flag back as on.
   */
  method DisableThenRestore(u: User, session: Session) returns (restored: AuthSlice.AuthState)
    ensures restored.user == Some(u) && restored.biometricEnabled
  {
    var store := new SecureStore(map[]);
    var auth := new AuthSlice.AuthState();
    auth.SignInFulfilled(AuthSlice.SignInPayload(Some(u), true));
    var outcome, steps := HandleToggleBiometric(auth, store, Device(false, false, AuthService.Threw), false);
    assert outcome == Disabled && !auth.biometricEnabled;
    restored := new AuthSlice.AuthState();
    AuthSlice.DispatchCheckSession(restored, store, Some(session), Response(Some(u), None), false);
  }

  /**
   * The evidently intended handler: identical except that disabling stores
   * "false" for the user, so the flag reads as off afterwards.
   */
  method HandleToggleBiometricIntended(auth: AuthSlice.AuthState, store: SecureStore, device: Device, writeThrew: bool)
    returns (outcome: ToggleOutcome, steps: seq<Step>)
    modifies auth, store
    ensures auth.user == old(auth.user) && auth.session == old(auth.session)
    ensures auth.isAuthenticated == old(auth.isAuthenticated) && auth.isLoading == old(auth.isLoading)
    ensures auth.error == old(auth.error)
    ensures old(auth.user).None? ==>
      outcome == NoUser && steps == [] && store.items == old(store.items)
      && auth.biometricEnabled == old(auth.biometricEnabled)
    ensures (old(auth.user).Some? && !old(auth.biometricEnabled)
             && !AuthService.IsBiometricAvailable(device.hasHardware, device.isEnrolled)) ==>
      outcome == Unavailable && steps == [CheckAvailability]
      && store.items == old(store.items) && !auth.biometricEnabled
    ensures (old(auth.user).Some? && !old(auth.biometricEnabled)
             && AuthService.IsBiometricAvailable(device.hasHardware, device.isEnrolled)
             && !AuthService.AuthenticateWithBiometric(device.prompt)) ==>
      outcome == ChallengeFailed && steps == [CheckAvailability, Challenge]
      && store.items == old(store.items) && !auth.biometricEnabled
    ensures (old(auth.user).Some? && !old(auth.biometricEnabled)
             && AuthService.IsBiometricAvailable(device.hasHardware, device.isEnrolled)
             && AuthService.AuthenticateWithBiometric(device.prompt) && writeThrew) ==>
      outcome == WriteFailed && steps == [CheckAvailability, Challenge, Persist]
      && store.items == old(store.items) && !auth.biometricEnabled
    ensures (old(auth.user).Some? && !old(auth.biometricEnabled)
             && AuthService.IsBiometricAvailable(device.hasHardware, device.isEnrolled)
             && AuthService.AuthenticateWithBiometric(device.prompt) && !writeThrew) ==>
      outcome == Enabled && steps == [CheckAvailability, Challenge, Persist]
      && store.items == old(store.items)[AuthService.BiometricKey(old(auth.user).value.id) := "true"]
      && auth.biometricEnabled
    ensures (old(auth.user).Some? && old(auth.biometricEnabled) && writeThrew) ==>
      outcome == WriteFailed && steps == [Persist]
      && store.items == old(store.items) && auth.biometricEnabled
    ensures (old(auth.user).Some? && old(auth.biometricEnabled) && !writeThrew) ==>
      outcome == Disabled && steps == [Persist] && !auth.biometricEnabled
      && store.items == old(store.items)[AuthService.BiometricKey(old(auth.user).value.id) := "false"]
    ensures old(auth.user).Some? && (outcome == Enabled || outcome == Disabled) ==>
      (auth.biometricEnabled <==> AuthService.BiometricFlag(store.items, old(auth.user).value.id))
  {
    steps := [];
    if auth.user.None? {
      outcome := NoUser;
      return;
    }
    var user := auth.user.value;
    if !auth.biometricEnabled {
      var available := AuthService.IsBiometricAvailable(device.hasHardware, device.isEnrolled);
      steps := steps + [CheckAvailability];
      if !available {
        outcome := Unavailable;
        return;
      }
      var success := AuthService.AuthenticateWithBiometric(device.prompt);
      steps := steps + [Challenge];
      if success {
        steps := steps + [Persist];
        if writeThrew {
          outcome := WriteFailed;
          return;
        }
        AuthService.EnableBiometric(store, user.id);
        auth.SetBiometricEnabled(true);
        outcome := Enabled;
      } else {
        outcome := ChallengeFailed;
      }
    } else {
      steps := steps + [Persist];
      if writeThrew {
        outcome := WriteFailed;
        return;
      }
      store.SetItem(AuthService.BiometricKey(user.id), "false");
      auth.SetBiometricEnabled(false);
      outcome := Disabled;
    }
  }

  /** With the intended handler, disabling and restoring reads the flag as off. */
  method DisableThenRestoreIntended(u: User, session: Session) returns (restored: AuthSlice.AuthState)
    ensures restored.user == Some(u) && !restored.biometricEnabled
  {
    var store := new SecureStore(map[]);
    var auth := new AuthSlice.AuthState();
    auth.SignInFulfilled(AuthSlice.SignInPayload(Some(u), true));
    var outcome, steps := HandleToggleBiometricIntended(auth, store, Device(false, false, AuthService.Threw), false);
    restored := new AuthSlice.AuthState();
    AuthSlice.DispatchCheckSession(restored, store, Some(session), Response(Some(u), None), false);
  }
}
