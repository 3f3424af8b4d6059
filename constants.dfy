/** The literal tables of src/constants/index.ts. */
module Constants {
  import opened Types

  /** STORAGE_KEYS. */
  const BiometricEnabledKey: string := "biometric_enabled"
  const ThemeModeKey: string := "theme_mode"
  const UserSessionKey: string := "user_session"

  /** MAX_FILE_SIZE, in bytes. */
  const MaxFileSize: nat := 10 * 1024 * 1024

  /** ALLOWED_FILE_TYPES, in the order the source lists them. */
  const AllowedFileTypes: seq<string> := [
    "application/pdf",
    "image/jpeg",
    "image/png",
    "application/msword",
    "application/vnd.openxmlformats-officedocument.wordprocessingml.document",
    "text/plain"
  ]

  /** ROLE_HIERARCHY: the rank of every role. */
  function Rank(r: Role): (n: nat)
    ensures 1 <= n <= 3
    ensures n == 1 <==> r == Staff
    ensures n == 3 <==> r == SuperAdmin
  {
    match r
    case Staff => 1
    case Admin => 2
    case SuperAdmin => 3
  }

  /** The ranks are strictly increasing with privilege, so rank order is role order. */
  lemma RanksStrictlyIncreasing()
    ensures Rank(Staff) < Rank(Admin) < Rank(SuperAdmin)
    ensures forall a: Role, b: Role :: Rank(a) == Rank(b) ==> a == b
  {
  }

  lemma StorageKeysDistinct()
    ensures BiometricEnabledKey != ThemeModeKey
    ensures BiometricEnabledKey != UserSessionKey
    ensures ThemeModeKey != UserSessionKey
  {
  }

  lemma MaxFileSizeIsTenMebibytes()
    ensures MaxFileSize == 10485760
  {
  }

  lemma AllowedFileTypesDistinct()
    ensures |AllowedFileTypes| == 6
    ensures forall i, j | 0 <= i < j < |AllowedFileTypes| :: AllowedFileTypes[i] != AllowedFileTypes[j]
  {
  }
}
