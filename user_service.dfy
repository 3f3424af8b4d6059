/**
 * The local logic of src/lib/services/userService.ts: the password
 * generator and the row `createUser` inserts.
 */
module UserService {
  import opened Types

  const Charset: string := "abcdefghijklmnopqrstuvwxyzABCDEFGHIJKLMNOPQRSTUVWXYZ0123456789!@#$%^&*"
  const DefaultPasswordLength: int := 12

  lemma CharsetSize()
    ensures |Charset| == 70
  {
  }

  /**
   * `generatePassword`: one character per round, drawn from the charset.
   * `picks[i]` is the index `Math.floor(Math.random() * charset.length)`
   * chose in round `i`; a length below one gives the empty string.
   */
  method GeneratePassword(length: int, picks: seq<int>) returns (password: string)
    requires length <= |picks|
    requires forall i | 0 <= i < |picks| :: 0 <= picks[i] < |Charset|
    ensures |password| == if length < 0 then 0 else length
    ensures forall i | 0 <= i < |password| :: password[i] == Charset[picks[i]]
    ensures forall i | 0 <= i < |password| :: password[i] in Charset
  {
    password := "";
    var i := 0;
    while i < length
      invariant 0 <= i <= (if length < 0 then 0 else length)
      invariant |password| == i
      invariant forall k | 0 <= k < i :: password[k] == Charset[picks[k]]
    {
      password := password + [Charset[picks[i]]];
      i := i + 1;
    }
  }

  /** The row `createUser` inserts. */
  datatype UserInsert = UserInsert(
    id: string,
    email: string,
    role: Role,
    createdBy: string,
    status: UserStatus,
    biometricEnabled: bool)

  /** Every new profile starts active and without biometrics. */
  function NewUserRow(userId: string, email: string, role: Role, createdBy: string): (row: UserInsert)
    ensures row.status == Active && !row.biometricEnabled
    ensures row.id == userId && row.email == email && row.role == role && row.createdBy == createdBy
  {
    UserInsert(userId, email, role, createdBy, Active, false)
  }
}
