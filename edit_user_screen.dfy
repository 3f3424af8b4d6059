/**
 * The role and status pickers, `loadUser` and `handleSave` of
 * src/screens/users/EditUserScreen.tsx.
 */
module EditUserScreen {
  import opened Wrappers
  import opened Types
  import opened Permissions
  import CreateUserScreen

  /** `canCreateAdmin`: compares the role with super_admin directly. */
  function CanCreateAdmin(currentUser: Option<User>): (r: bool)
    ensures r == CreateUserScreen.CanCreateAdmin(currentUser)
    ensures r == CanCreateAdmins(RoleOf(currentUser))
  {
    currentUser.Some? && currentUser.value.role == SuperAdmin
  }

  /** The status picker's buttons, in display order. */
  function StatusOptions(): (options: seq<UserStatus>)
    ensures |options| == 3
    ensures forall i, j | 0 <= i < j < |options| :: options[i] != options[j]
    ensures options[0] == Active && options[1] == Suspended && options[2] == Deactivated
  {
    [Active, Suspended, Deactivated]
  }

  /** Every status the type has is on the picker. */
  lemma StatusOptionsCoverAll(s: UserStatus)
    ensures s in StatusOptions()
  {
    match s {
      case Active => assert StatusOptions()[0] == s;
      case Suspended => assert StatusOptions()[1] == s;
      case Deactivated => assert StatusOptions()[2] == s;
    }
  }

  /** The role picker: the same gating as the create screen. */
  function RoleOptions(currentUser: Option<User>): (options: seq<Role>)
    ensures options == CreateUserScreen.RoleOptions(CanCreateAdmin(currentUser))
    ensures Staff in options && SuperAdmin !in options
    ensures Admin in options <==> currentUser.Some? && currentUser.value.role == SuperAdmin
  {
    [Staff] + (if CanCreateAdmin(currentUser) then [Admin] else [])
  }

  /** The only fields `handleSave` sends. */
  datatype UserUpdates = UserUpdates(role: Role, status: UserStatus)

  /** The argument of the `updateUser` thunk. */
  datatype UpdateUserRequest = UpdateUserRequest(id: string, updates: UserUpdates)

  /** How the profile lookup of `loadUser` ended: an answer, or an exception. */
  datatype LoadResult = Loaded(response: Response<User>) | LoadThrew

  /** The screen's state; `userId` is the route parameter. */
  class EditUserForm {
    const userId: string
    var email: string
    var role: Role
    var status: UserStatus
    var loading: bool
    var saving: bool

    constructor (userId: string)
      ensures this.userId == userId
      ensures email == [] && role == Staff && status == Active
      ensures loading && !saving
    {
      this.userId := userId;
      email := "";
      role := Staff;
      status := Active;
      loading := true;
      saving := false;
    }

    /**
     * `loadUser`. A failed or empty lookup navigates back and leaves the
     * fields as they were; an exception is logged and does not navigate.
     */
    method LoadUser(result: LoadResult) returns (navigatedBack: bool)
      modifies this
      ensures !loading && saving == old(saving)
      ensures navigatedBack <==> result.Loaded? && (result.response.error.Some? || result.response.data.None?)
      ensures navigatedBack || result.LoadThrew? ==> email == old(email) && role == old(role) && status == old(status)
      ensures !navigatedBack && result.Loaded? ==>
                var u := result.response.data.value;
                email == u.email && role == u.role && status == u.status
    {
      loading := true;
      navigatedBack := false;
      if result.Loaded? {
        var response := result.response;
        if response.error.Some? || response.data.None? {
          navigatedBack := true;
        } else {
          var u := response.data.value;
          email := u.email;
          role := u.role;
          status := u.status;
        }
      }
      loading := false;
    }

    /**
     * `handleSave`: with a user id, sends the role and status as the update,
     * then navigates back; `saving` is back to false afterwards.
     */
    method HandleSave() returns (request: Option<UpdateUserRequest>)
      modifies this
      ensures request.None? <==> userId == []
      ensures request.Some? ==> request.value == UpdateUserRequest(userId, UserUpdates(role, status))
      ensures email == old(email) && role == old(role) && status == old(status) && loading == old(loading)
      ensures saving == (if userId == [] then old(saving) else false)
    {
      if userId == [] {
        return None;
      }
      saving := true;
      request := Some(UpdateUserRequest(userId, UserUpdates(role, status)));
      saving := false;
    }
  }
}
