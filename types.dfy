/**
 * The records of src/types/index.ts and the shapes that every service and
 * thunk shares: the `{ data, error }` answer of a remote call and the
 * settled outcome of an async thunk.
 */
module Types {
  import opened Wrappers

  datatype Role = Staff | Admin | SuperAdmin
  datatype UserStatus = Active | Suspended | Deactivated
  datatype ThemeMode = Light | Dark

  /** The role as the string union `UserRole` spells it. */
  function RoleName(r: Role): string {
    match r
    case Staff => "staff"
    case Admin => "admin"
    case SuperAdmin => "super_admin"
  }

  function StatusName(s: UserStatus): string {
    match s
    case Active => "active"
    case Suspended => "suspended"
    case Deactivated => "deactivated"
  }

  function ThemeName(m: ThemeMode): string {
    match m
    case Light => "light"
    case Dark => "dark"
  }

  datatype User = User(
    id: string,
    email: string,
    role: Role,
    status: UserStatus,
    createdBy: Option<string>,
    biometricEnabled: bool,
    createdAt: string,
    updatedAt: string)

  datatype CaseStatus = Open | Closed | Pending

  datatype Case = Case(
    id: string,
    caseNumber: string,
    title: string,
    description: Option<string>,
    status: CaseStatus,
    createdBy: Option<string>,
    createdAt: string,
    updatedAt: string)

  datatype Document = Document(
    id: string,
    caseId: string,
    filename: string,
    filePath: string,
    fileType: Option<string>,
    fileSize: Option<nat>,
    uploadedBy: Option<string>,
    createdAt: string,
    updatedAt: string)

  /** The id accessors, passed to the generic list operations. */
  function UserKey(u: User): string { u.id }
  function CaseKey(c: Case): string { c.id }
  function DocumentKey(d: Document): string { d.id }

  /** The role of a possibly absent user: `user?.role || null`. */
  function RoleOf(user: Option<User>): Option<Role> {
    match user
    case Some(u) => Some(u.role)
    case None => None
  }

  /** The session issued by the auth provider; its contents are never inspected. */
  datatype Session = Session(accessToken: string, subjectId: string)

  /** An error object; an empty message stands for a missing or empty `message`. */
  datatype ServiceError = ServiceError(message: string)

  /** The `{ data, error }` answer of a remote database, storage or auth call. */
  datatype Response<T> = Response(data: Option<T>, error: Option<ServiceError>)

  /** How an async thunk settles: with a payload, or with the thrown error's message. */
  datatype Settled<T> = Fulfilled(payload: T) | Rejected(message: string)

  /** `action.error.message || fallback`. */
  function MessageOr(message: string, fallback: string): (r: string)
    ensures message != "" ==> r == message
    ensures message == "" ==> r == fallback
  {
    if message == "" then fallback else message
  }

  /**
   * The payload creator shared by every list-fetching thunk:
   * `if (error) throw error; return data || [];`
   */
  function FetchList<T>(resp: Response<seq<T>>): (r: Settled<seq<T>>)
    ensures r.Rejected? <==> resp.error.Some?
    ensures resp.error.Some? ==> r.message == resp.error.value.message
    ensures r.Fulfilled? ==> r.payload == resp.data.GetOr([])
  {
    match resp.error
    case Some(e) => Rejected(e.message)
    case None => Fulfilled(resp.data.GetOr([]))
  }

  /**
   * The payload creator shared by the create and update thunks:
   * `if (error) throw error; return data;` (the data may be null).
   */
  function FetchOne<T>(resp: Response<T>): (r: Settled<Option<T>>)
    ensures r.Rejected? <==> resp.error.Some?
    ensures resp.error.Some? ==> r.message == resp.error.value.message
    ensures r.Fulfilled? ==> r.payload == resp.data
  {
    match resp.error
    case Some(e) => Rejected(e.message)
    case None => Fulfilled(resp.data)
  }
}
