/**
 * The role gating and the `handleCreate` sequence of
 * src/screens/users/CreateUserScreen.tsx.
 */
module CreateUserScreen {
  import opened Wrappers
  import opened Types
  import opened Permissions
  import opened UserService

  /** `canCreateAdmin`: a missing user is treated as no role. */
  function CanCreateAdmin(user: Option<User>): (r: bool)
    ensures r <==> user.Some? && user.value.role == SuperAdmin
  {
    CanCreateAdmins(RoleOf(user))
  }

  /** The buttons of the role picker: staff always, then admin when allowed. */
  function RoleOptions(canCreateAdmin: bool): (options: seq<Role>)
    ensures |options| >= 1 && options[0] == Staff
    ensures Admin in options <==> canCreateAdmin
    ensures SuperAdmin !in options
    ensures forall i, j | 0 <= i < j < |options| :: options[i] != options[j]
  {
    [Staff] + (if canCreateAdmin then [Admin] else [])
  }

  /** A signed-in user is only ever offered roles at or below their own. */
  lemma OfferedRolesArePermitted(user: User, r: Role)
    requires r in RoleOptions(CanCreateAdmin(Some(user)))
    ensures HasPermission(Some(user.role), r)
    ensures r != SuperAdmin
  {
  }

  /** The screen's form state; the role picker starts on staff. */
  datatype CreateUserForm = CreateUserForm(email: string, role: Role, password: string)

  function InitialForm(): (f: CreateUserForm)
    ensures f.role == Staff && f.email == [] && f.password == []
  {
    CreateUserForm("", Staff, "")
  }

  /** The arguments of the call that creates the login account. */
  datatype AuthCall = AuthCall(email: string, password: string, emailConfirm: bool)

  /** What the account creation answered: a user id, an error, or neither. */
  datatype AuthCreateResult = AuthCreated(userId: string) | AuthCreateFailed(error: ServiceError) | NoAuthUser

  /** The argument of the `createUser` thunk. */
  datatype CreateUserRequest = CreateUserRequest(userId: string, email: string, role: Role, createdBy: string)

  /** How `handleCreate` ended; `Created` carries the record request and the password shown. */
  datatype CreateOutcome = Skipped | AuthFailed | Created(request: CreateUserRequest, shownPassword: string)

  /**
   * `handleCreate`. `picks` is the random oracle of the generated password
   * and `authResult` the answer of the account creation; `authCall` is the
   * account creation the screen issues, if it gets that far.
   */
  method HandleCreate(form: CreateUserForm, currentUser: Option<User>, picks: seq<int>, authResult: AuthCreateResult)
    returns (authCall: Option<AuthCall>, outcome: CreateOutcome)
    requires DefaultPasswordLength <= |picks|
    requires forall i | 0 <= i < |picks| :: 0 <= picks[i] < |Charset|
    ensures authCall.None? <==> (form.email == [] || currentUser.None?)
    ensures authCall.None? ==> outcome.Skipped?
    ensures authCall.Some? ==> authCall.value.email == form.email && authCall.value.emailConfirm
    ensures authCall.Some? && form.password != [] ==> authCall.value.password == form.password
    ensures authCall.Some? && form.password == [] ==> |authCall.value.password| == DefaultPasswordLength
    ensures authCall.Some? ==> forall c | c in authCall.value.password :: form.password != [] || c in Charset
    ensures authCall.Some? ==> (outcome.AuthFailed? <==> !authResult.AuthCreated?)
    ensures outcome.Created? ==> authCall.Some? && authResult.AuthCreated? && currentUser.Some?
    ensures outcome.Created? ==> outcome.request == CreateUserRequest(authResult.userId, form.email, form.role, currentUser.value.id)
    ensures outcome.Created? ==> outcome.shownPassword == authCall.value.password
  {
    if form.email == [] || currentUser.None? {
      return None, Skipped;
    }
    var userPassword := form.password;
    if userPassword == [] {
      userPassword := GeneratePassword(DefaultPasswordLength, picks);
    }
    authCall := Some(AuthCall(form.email, userPassword, true));
    match authResult {
      case AuthCreated(id) =>
        var request := CreateUserRequest(id, form.email, form.role, currentUser.value.id);
        outcome := Created(request, userPassword);
      case _ =>
        outcome := AuthFailed;
    }
  }
}
