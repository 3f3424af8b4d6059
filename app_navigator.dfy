/** Root-screen and tab selection of src/navigation/AppNavigator.tsx. */
module AppNavigator {
  import opened Wrappers
  import opened Types
  import opened Permissions
  import AuthSlice
  import UsersListScreen

  /** The screens the root stack can hold. */
  datatype RootScreen = Login | Main

  /** The tabs of `MainTabs`. */
  datatype Tab = CasesTab | UsersTab | SettingsTab

  /** `AppNavigator`: nothing while loading, else Login or Main by authentication. */
  function RootScreenFor(isLoading: bool, isAuthenticated: bool): (screen: Option<RootScreen>)
    ensures screen.None? <==> isLoading
    ensures screen == Some(Login) <==> !isLoading && !isAuthenticated
    ensures screen == Some(Main) <==> !isLoading && isAuthenticated
  {
    if isLoading then None
    else if !isAuthenticated then Some(Login)
    else Some(Main)
  }

  /** The root screen as the navigator reads it from the auth slice. */
  function RootScreenOf(auth: AuthSlice.AuthState): (screen: Option<RootScreen>)
    reads auth
    ensures screen.None? <==> auth.isLoading
    ensures screen == Some(Main) <==> !auth.isLoading && auth.isAuthenticated
    ensures screen == Some(Login) <==> !auth.isLoading && !auth.isAuthenticated
    ensures auth.Consistent() && !auth.isLoading ==> (screen == Some(Main) <==> auth.user.Some?)
  {
    RootScreenFor(auth.isLoading, auth.isAuthenticated)
  }

  /**
   * A session check that fails after a sign-in leaves the user in the slice,
   * and the navigator then shows Login to a user it still holds.
   */
  method StaleUserSeesLogin(u: User) returns (auth: AuthSlice.AuthState)
    ensures auth.user == Some(u)
    ensures RootScreenOf(auth) == Some(Login)
  {
    auth := AuthSlice.RejectedCheckKeepsStaleUser(u);
  }

  /** `MainTabs`: Cases, then Users for those who may manage users, then Settings. */
  function MainTabs(user: Option<User>): (tabs: seq<Tab>)
    ensures 2 <= |tabs| <= 3
    ensures tabs[0] == CasesTab && tabs[|tabs| - 1] == SettingsTab
    ensures UsersTab in tabs <==> CanCreateUsers(RoleOf(user))
    ensures |tabs| == 3 ==> tabs[1] == UsersTab
    ensures forall i, j | 0 <= i < j < |tabs| :: tabs[i] != tabs[j]
  {
    [CasesTab] + (if CanCreateUsers(RoleOf(user)) then [UsersTab] else []) + [SettingsTab]
  }

  /** The Users tab and the users list's create button are shown to the same people. */
  lemma UsersTabMatchesCreateGate(user: Option<User>)
    ensures UsersTab in MainTabs(user) <==> UsersListScreen.CanCreate(user)
    ensures UsersTab in MainTabs(user) <==> user.Some? && user.value.role != Staff
  {
  }
}
