/** The permission and role names and the static role-to-permission table
    (Authentication/Permissions.cs). */
module Permissions {

  const ViewUsers := "users:view"
  const ManageUsers := "users:manage"

  const Admin := "Admin"
  const User := "User"

  /** The table, fixed at start-up; the order inside each entry is the declared one. */
  const RolePermissions: map<string, seq<string>> := map[
    Admin := [ViewUsers, ManageUsers],
    User := [ViewUsers]
  ]

  predicate NoDuplicates(s: seq<string>) {
    forall i, j :: 0 <= i < j < |s| ==> s[i] != s[j]
  }

  /** `GetPermissionsForRole`: the table entry, or the empty list for a role the table does not know. */
  function GetPermissionsForRole(role: string): seq<string> {
    if role in RolePermissions then RolePermissions[role] else []
  }

  /** `SelectMany`: the entries of all roles, concatenated in role order. */
  function SelectMany(roles: seq<string>): (r: seq<string>)
    ensures forall p :: p in r <==> exists role :: role in roles && p in GetPermissionsForRole(role)
  {
    if roles == [] then []
    else
      var rest := SelectMany(roles[1..]);
      assert forall role :: role in roles <==> role == roles[0] || role in roles[1..];
      GetPermissionsForRole(roles[0]) + rest
  }

  /** `Distinct`: keeps the first occurrence of each element, in order. */
  function Distinct(s: seq<string>): (r: seq<string>)
    ensures NoDuplicates(r)
    ensures forall x :: x in r <==> x in s
  {
    if s == [] then []
    else
      var d := Distinct(s[..|s| - 1]);
      assert forall x :: x in s <==> x in s[..|s| - 1] || x == s[|s| - 1];
      if s[|s| - 1] in d then d else d + [s[|s| - 1]]
  }

  /** `GetPermissionsForRoles`: the deduplicated union of the roles' entries. */
  function GetPermissionsForRoles(roles: seq<string>): (r: seq<string>)
    ensures NoDuplicates(r)
    ensures forall p :: p in r <==> exists role :: role in roles && p in GetPermissionsForRole(role)
  {
    Distinct(SelectMany(roles))
  }

  /** The table entries of the two platform roles, and the empty entry of any other name. */
  lemma RoleEntries(role: string)
    ensures GetPermissionsForRole(Admin) == [ViewUsers, ManageUsers]
    ensures GetPermissionsForRole(User) == [ViewUsers]
    ensures role != Admin && role != User ==> GetPermissionsForRole(role) == []
  {
  }

  /** No roles, no permissions; unknown roles add nothing. */
  lemma UnknownRolesAddNothing(roles: seq<string>)
    requires forall role :: role in roles ==> role != Admin && role != User
    ensures GetPermissionsForRoles(roles) == []
  {
    var r := GetPermissionsForRoles(roles);
    if r != [] {
      assert r[0] in r;
      var role :| role in roles && r[0] in GetPermissionsForRole(role);
      RoleEntries(role);
    }
  }

  /** More roles never mean fewer permissions. */
  lemma Monotone(roles: seq<string>, more: seq<string>)
    requires forall role :: role in roles ==> role in more
    ensures forall p :: p in GetPermissionsForRoles(roles) ==> p in GetPermissionsForRoles(more)
  {
  }

  /** The union does not depend on the order or repetition of the roles. */
  lemma SameRolesSamePermissions(roles: seq<string>, other: seq<string>)
    requires forall role :: role in roles <==> role in other
    ensures forall p :: p in GetPermissionsForRoles(roles) <==> p in GetPermissionsForRoles(other)
  {
    Monotone(roles, other);
    Monotone(other, roles);
  }

  /** The entries concatenated for [Admin, User] and for [User]. */
  lemma SelectManyPlatformRoles()
    ensures SelectMany([User]) == [ViewUsers]
    ensures SelectMany([Admin, User]) == [ViewUsers, ManageUsers, ViewUsers]
  {
    assert [Admin, User][1..] == [User] && [User][1..] == [];
    assert SelectMany([User]) == GetPermissionsForRole(User) + SelectMany([]);
    assert SelectMany([Admin, User]) == GetPermissionsForRole(Admin) + SelectMany([User]);
  }

  /** `Distinct` drops the repeated "users:view". */
  lemma DistinctPlatformEntries()
    ensures Distinct([ViewUsers]) == [ViewUsers]
    ensures Distinct([ViewUsers, ManageUsers, ViewUsers]) == [ViewUsers, ManageUsers]
  {
    assert ViewUsers != ManageUsers by { assert ViewUsers[6] != ManageUsers[6]; }
    assert [ViewUsers][..0] == [];
    assert [ViewUsers, ManageUsers][..1] == [ViewUsers];
    assert [ViewUsers, ManageUsers, ViewUsers][..2] == [ViewUsers, ManageUsers];
  }

  /** Admin and User together grant both permissions, once each, and cover what User alone grants. */
  lemma AdminAndUser()
    ensures GetPermissionsForRoles([Admin, User]) == [ViewUsers, ManageUsers]
    ensures GetPermissionsForRoles([User]) == [ViewUsers]
    ensures forall p :: p in GetPermissionsForRoles([User]) ==> p in GetPermissionsForRoles([Admin, User])
  {
    SelectManyPlatformRoles();
    DistinctPlatformEntries();
  }
}
