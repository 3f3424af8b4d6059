/** The search filter and the create gate of src/screens/users/UsersListScreen.tsx. */
module UsersListScreen {
  import opened Wrappers
  import opened Strings
  import opened Types
  import opened ListOps
  import opened Permissions

  /** A user matches when the lower-cased query occurs in its lower-cased email or role. */
  predicate Matches(u: User, query: string) {
    var q := ToLower(query);
    Contains(ToLower(u.email), q) || Contains(ToLower(RoleName(u.role)), q)
  }

  /** `filteredUsers`. */
  function FilteredUsers(users: seq<User>, query: string): (r: seq<User>)
    ensures forall u | u in users :: u in r <==> Matches(u, query)
    ensures forall u | u in r :: u in users
    ensures IsSubsequence(r, users)
    ensures forall u :: multiset(r)[u] == if Matches(u, query) then multiset(users)[u] else 0
  {
    var keep := (u: User) => Matches(u, query);
    var r := Filter(users, keep);
    assert forall u | u in users :: multiset(users)[u] > 0;
    assert forall u | u in r :: multiset(r)[u] > 0;
    r
  }

  /** The empty query keeps every user, in order. */
  lemma EmptyQueryKeepsAll(users: seq<User>)
    ensures FilteredUsers(users, "") == users
  {
    forall i | 0 <= i < |users| ensures Matches(users[i], "") {
      ContainsEmpty(ToLower(users[i].email));
    }
    FilterKeepsAll(users, (u: User) => Matches(u, ""));
  }

  lemma LowerCaseAdmin()
    ensures ToLower("ADMIN") == "admin"
  {
    var q := ToLower("ADMIN");
    assert q[0] == LowerChar('A') == 'a';
    assert q[1] == LowerChar('D') == 'd';
    assert q[2] == LowerChar('M') == 'm';
    assert q[3] == LowerChar('I') == 'i';
    assert q[4] == LowerChar('N') == 'n';
  }

  lemma RoleNamesAreLowerCase(r: Role)
    ensures ToLower(RoleName(r)) == RoleName(r)
  {
    var name := RoleName(r);
    forall i | 0 <= i < |name| ensures !IsUpperAscii(name[i]) {
    }
    ToLowerOfLower(name);
  }

  lemma AdminRoleNamesContainAdmin(r: Role)
    requires r != Staff
    ensures Contains(RoleName(r), "admin")
  {
    if r == Admin {
      ContainsAt("admin", "admin", 0);
    } else {
      assert "super_admin"[6..11] == "admin";
      ContainsAt("super_admin", "admin", 6);
    }
  }

  /** Matching ignores case: "ADMIN" finds admins and super admins by their role. */
  lemma AdminQueryMatchesAdmins(u: User)
    requires u.role == Admin || u.role == SuperAdmin
    ensures Matches(u, "ADMIN")
  {
    LowerCaseAdmin();
    RoleNamesAreLowerCase(u.role);
    AdminRoleNamesContainAdmin(u.role);
    assert Contains(ToLower(RoleName(u.role)), ToLower("ADMIN"));
  }

  /** `canCreate`: the create button is offered to admins and super admins only. */
  function CanCreate(user: Option<User>): (shown: bool)
    ensures shown <==> user.Some? && user.value.role != Staff
  {
    CanCreateUsers(RoleOf(user))
  }
}
