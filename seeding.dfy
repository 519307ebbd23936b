/** Start-up role seeding (Extensions/SeedingExtensions.cs) against the identity
    role store. The store is the list of role names in creation order; name
    normalisation by the role manager is not modelled. */
module Seeding {
  import opened Permissions

  class RoleStore {
    var names: seq<string>

    constructor(names: seq<string>)
      ensures this.names == names
    {
      this.names := names;
    }

    /** `RoleExistsAsync`. */
    method RoleExists(name: string) returns (found: bool)
      ensures found <==> name in names
    {
      found := name in names;
    }

    /** `CreateAsync`: adds a role row. */
    method Create(name: string)
      modifies this
      ensures names == old(names) + [name]
    {
      names := names + [name];
    }
  }

  /** The roles the platform seeds, in order. */
  const SeededRoles: seq<string> := [Admin, User]

  /** One round of the loop: create the role unless it exists. */
  function SeedStep(names: seq<string>, role: string): seq<string> {
    if role in names then names else names + [role]
  }

  /** The whole loop over `roles`, in order. */
  function SeedAll(names: seq<string>, roles: seq<string>): seq<string>
    decreases |roles|
  {
    if roles == [] then names else SeedAll(SeedStep(names, roles[0]), roles[1..])
  }

  /** `SeedRolesAsync`. */
  method SeedRoles(store: RoleStore)
    modifies store
    ensures store.names == SeedAll(old(store.names), SeededRoles)
  {
    var roles := [Admin, User];
    for i := 0 to |roles|
      invariant SeedAll(store.names, roles[i..]) == SeedAll(old(store.names), roles)
    {
      assert roles[i..][1..] == roles[i + 1..];
      var present := store.RoleExists(roles[i]);
      if !present {
        store.Create(roles[i]);
      }
    }
  }

  /** Seeding only appends; afterwards every seeded role is present, and the only
      new names are seeded roles that were missing. */
  lemma {:induction false} SeedAllAppends(names: seq<string>, roles: seq<string>)
    ensures |names| <= |SeedAll(names, roles)| && SeedAll(names, roles)[..|names|] == names
    ensures forall r :: r in roles ==> r in SeedAll(names, roles)
    ensures forall x :: x in SeedAll(names, roles) ==> x in names || x in roles
    decreases |roles|
  {
    if roles != [] {
      var next := SeedStep(names, roles[0]);
      SeedAllAppends(next, roles[1..]);
      assert SeedAll(names, roles)[..|next|] == next;
      assert next[..|names|] == names;
      forall r | r in roles ensures r in SeedAll(names, roles) {
        if r == roles[0] {
          assert r in next;
          var k :| 0 <= k < |next| && next[k] == r;
          assert SeedAll(names, roles)[k] == r;
        } else {
          assert r in roles[1..];
        }
      }
    }
  }

  /** No role is created twice: a store without repeated names keeps that property. */
  lemma {:induction false} SeedAllNoDuplicates(names: seq<string>, roles: seq<string>)
    requires NoDuplicates(names)
    ensures NoDuplicates(SeedAll(names, roles))
    decreases |roles|
  {
    if roles != [] {
      SeedAllNoDuplicates(SeedStep(names, roles[0]), roles[1..]);
    }
  }

  /** When every role already exists, seeding creates nothing. */
  lemma {:induction false} SeedAllPresent(names: seq<string>, roles: seq<string>)
    requires forall r :: r in roles ==> r in names
    ensures SeedAll(names, roles) == names
    decreases |roles|
  {
    if roles != [] {
      assert roles[0] in roles;
      SeedAllPresent(names, roles[1..]);
    }
  }

  /** Seeding twice leaves the store as seeding once did. */
  lemma Idempotent(names: seq<string>)
    ensures SeedAll(SeedAll(names, SeededRoles), SeededRoles) == SeedAll(names, SeededRoles)
  {
    SeedAllAppends(names, SeededRoles);
    SeedAllPresent(SeedAll(names, SeededRoles), SeededRoles);
  }

  /** After seeding, Admin and User exist, every earlier role is still there in its
      place, and nothing but Admin or User was added. */
  lemma SeedingOutcome(names: seq<string>)
    ensures Admin in SeedAll(names, SeededRoles) && User in SeedAll(names, SeededRoles)
    ensures |names| <= |SeedAll(names, SeededRoles)| && SeedAll(names, SeededRoles)[..|names|] == names
    ensures forall x :: x in SeedAll(names, SeededRoles) ==> x in names || x == Admin || x == User
  {
    SeedAllAppends(names, SeededRoles);
  }
}
