/** The access-token builder (Authentication/JwtProvider.cs). The claim list is
    built as in the source; signing it with HMAC-SHA256 (section 3.2 of RFC 7518)
    and serialising it are not modelled, so the token is the unsigned claim set
    with its issuer, audience and expiry. */
module Jwt {
  import opened Entities

  /** Registered claim names of section 4.1 of RFC 7519, and the application's own. */
  const SubType := "sub"
  const EmailType := "email"
  const JtiType := "jti"
  const FullNameType := "fullName"
  /** `ClaimTypes.Role`. */
  const RoleType := "http://schemas.microsoft.com/ws/2008/06/identity/claims/role"
  const PermissionType := "permission"

  datatype Claim = Claim(claimType: string, value: string)

  /** A value of C#'s 32-bit `int`. */
  type CsInt = x: int | -0x8000_0000 <= x < 0x8000_0000

  /** The bound `Jwt` configuration section; `ExpiryInMinutes` is an `int` property. */
  datatype JwtOptions = JwtOptions(key: string, issuer: string, audience: string, expiryInMinutes: CsInt)

  /** A token as handed to the signer; `expires` is in seconds. */
  datatype SecurityToken = SecurityToken(issuer: string, audience: string, claims: seq<Claim>, expires: int)

  const SecondsPerMinute := 60

  /** C#'s unchecked `int` arithmetic: the value wrapped into 32-bit two's complement. */
  function Int32(x: int): (r: int)
    ensures -0x8000_0000 <= r < 0x8000_0000
    ensures (r - x) % 0x1_0000_0000 == 0
  {
    (x + 0x8000_0000) % 0x1_0000_0000 - 0x8000_0000
  }

  /** Within the 32-bit range the wrap changes nothing. */
  lemma Int32InRange(x: int)
    requires -0x8000_0000 <= x < 0x8000_0000
    ensures Int32(x) == x
  {
  }

  /** The four claims every token starts with. */
  function IdentityClaims(user: User, jti: string): seq<Claim> {
    [Claim(SubType, user.id), Claim(EmailType, user.email), Claim(JtiType, jti), Claim(FullNameType, user.fullName)]
  }

  /** One claim of the given type per value, in order. */
  function Tagged(claimType: string, values: seq<string>): (r: seq<Claim>)
    ensures |r| == |values|
    ensures forall i :: 0 <= i < |values| ==> r[i] == Claim(claimType, values[i])
  {
    if values == [] then []
    else Tagged(claimType, values[..|values| - 1]) + [Claim(claimType, values[|values| - 1])]
  }

  /** The list `GenerateToken` builds: identity claims, then roles, then permissions. */
  function ClaimsFor(user: User, roles: seq<string>, permissions: seq<string>, jti: string): seq<Claim> {
    IdentityClaims(user, jti) + Tagged(RoleType, roles) + Tagged(PermissionType, permissions)
  }

  /** The values of the claims of one type, in order. */
  function ValuesOf(claims: seq<Claim>, claimType: string): seq<string> {
    if claims == [] then []
    else (if claims[0].claimType == claimType then [claims[0].value] else []) + ValuesOf(claims[1..], claimType)
  }

  lemma {:induction false} ValuesOfAppend(a: seq<Claim>, b: seq<Claim>, claimType: string)
    ensures ValuesOf(a + b, claimType) == ValuesOf(a, claimType) + ValuesOf(b, claimType)
  {
    if a == [] {
      assert a + b == b;
    } else {
      assert (a + b)[0] == a[0];
      assert (a + b)[1..] == a[1..] + b;
      ValuesOfAppend(a[1..], b, claimType);
    }
  }

  lemma {:induction false} ValuesOfTagged(tag: string, values: seq<string>, claimType: string)
    ensures ValuesOf(Tagged(tag, values), claimType) == if tag == claimType then values else []
  {
    if values != [] {
      var init := values[..|values| - 1];
      ValuesOfTagged(tag, init, claimType);
      ValuesOfAppend(Tagged(tag, init), [Claim(tag, values[|values| - 1])], claimType);
      assert [Claim(tag, values[|values| - 1])][1..] == [];
      assert init + [values[|values| - 1]] == values;
    }
  }

  /** The six claim types are pairwise different. */
  lemma ClaimTypesDistinct()
    ensures SubType != EmailType && SubType != JtiType && SubType != FullNameType
    ensures EmailType != JtiType && EmailType != FullNameType && JtiType != FullNameType
    ensures forall t :: t in [SubType, EmailType, JtiType, FullNameType] ==> t != RoleType && t != PermissionType
    ensures RoleType != PermissionType
  {
    assert |SubType| == 3 && |EmailType| == 5 && |JtiType| == 3 && |FullNameType| == 8;
    assert |RoleType| == 60 && |PermissionType| == 10;
    assert SubType[0] != JtiType[0];
  }

  lemma ValuesOfSingle(c: Claim, claimType: string)
    ensures ValuesOf([c], claimType) == if c.claimType == claimType then [c.value] else []
  {
    assert [c][1..] == [];
  }

  /** Read back by one type, the four identity claims give the value of each claim of that type. */
  lemma IdentityClaimsOfType(user: User, jti: string, t: string)
    ensures ValuesOf(IdentityClaims(user, jti), t) ==
      (if SubType == t then [user.id] else []) + (if EmailType == t then [user.email] else [])
      + (if JtiType == t then [jti] else []) + (if FullNameType == t then [user.fullName] else [])
  {
    var c0, c1, c2, c3 := Claim(SubType, user.id), Claim(EmailType, user.email), Claim(JtiType, jti),
                          Claim(FullNameType, user.fullName);
    assert IdentityClaims(user, jti) == [c0] + [c1] + [c2] + [c3];
    ValuesOfAppend([c0] + [c1] + [c2], [c3], t);
    ValuesOfAppend([c0] + [c1], [c2], t);
    ValuesOfAppend([c0], [c1], t);
    ValuesOfSingle(c0, t);
    ValuesOfSingle(c1, t);
    ValuesOfSingle(c2, t);
    ValuesOfSingle(c3, t);
  }

  /** Read back by one type, the whole list splits into its three parts. */
  lemma {:induction false} ClaimsOfType(user: User, roles: seq<string>, permissions: seq<string>, jti: string, t: string)
    ensures ValuesOf(ClaimsFor(user, roles, permissions, jti), t) ==
      ValuesOf(IdentityClaims(user, jti), t) + (if RoleType == t then roles else [])
      + (if PermissionType == t then permissions else [])
  {
    var head := IdentityClaims(user, jti);
    var rs := Tagged(RoleType, roles);
    ValuesOfAppend(head + rs, Tagged(PermissionType, permissions), t);
    ValuesOfAppend(head, rs, t);
    ValuesOfTagged(RoleType, roles, t);
    ValuesOfTagged(PermissionType, permissions, t);
  }

  /** Where each claim sits: the four identity claims first, then role k at 4 + k,
      then permission k after all roles; nothing else. */
  lemma ClaimsLayout(user: User, roles: seq<string>, permissions: seq<string>, jti: string)
    ensures var c := ClaimsFor(user, roles, permissions, jti);
      && |c| == 4 + |roles| + |permissions|
      && c[..4] == [Claim(SubType, user.id), Claim(EmailType, user.email), Claim(JtiType, jti),
                    Claim(FullNameType, user.fullName)]
      && (forall k :: 0 <= k < |roles| ==> c[4 + k] == Claim(RoleType, roles[k]))
      && (forall k :: 0 <= k < |permissions| ==> c[4 + |roles| + k] == Claim(PermissionType, permissions[k]))
  {
  }

  /** Read back by type, the claims give exactly one subject, email, jti and full name,
      the roles in input order, and the permissions in input order. */
  lemma {:induction false} ClaimsByType(user: User, roles: seq<string>, permissions: seq<string>, jti: string)
    ensures var c := ClaimsFor(user, roles, permissions, jti);
      && ValuesOf(c, SubType) == [user.id]
      && ValuesOf(c, EmailType) == [user.email]
      && ValuesOf(c, JtiType) == [jti]
      && ValuesOf(c, FullNameType) == [user.fullName]
      && ValuesOf(c, RoleType) == roles
      && ValuesOf(c, PermissionType) == permissions
  {
    ClaimTypesDistinct();
    var c := ClaimsFor(user, roles, permissions, jti);
    assert ValuesOf(c, SubType) == [user.id] by {
      IdentityClaimsOfType(user, jti, SubType);
      ClaimsOfType(user, roles, permissions, jti, SubType);
    }
    assert ValuesOf(c, EmailType) == [user.email] by {
      IdentityClaimsOfType(user, jti, EmailType);
      ClaimsOfType(user, roles, permissions, jti, EmailType);
    }
    assert ValuesOf(c, JtiType) == [jti] by {
      IdentityClaimsOfType(user, jti, JtiType);
      ClaimsOfType(user, roles, permissions, jti, JtiType);
    }
    assert ValuesOf(c, FullNameType) == [user.fullName] by {
      IdentityClaimsOfType(user, jti, FullNameType);
      ClaimsOfType(user, roles, permissions, jti, FullNameType);
    }
    assert ValuesOf(c, RoleType) == roles by {
      IdentityClaimsOfType(user, jti, RoleType);
      ClaimsOfType(user, roles, permissions, jti, RoleType);
    }
    assert ValuesOf(c, PermissionType) == permissions by {
      IdentityClaimsOfType(user, jti, PermissionType);
      ClaimsOfType(user, roles, permissions, jti, PermissionType);
    }
  }

  class JwtProvider {
    const options: JwtOptions

    constructor(options: JwtOptions)
      ensures this.options == options
    {
      this.options := options;
    }

    /** The token `GenerateToken` hands to the signer, for identifier `jti` minted at time `now`. */
    function TokenFor(user: User, roles: seq<string>, permissions: seq<string>, jti: string, now: int): SecurityToken {
      SecurityToken(options.issuer, options.audience, ClaimsFor(user, roles, permissions, jti),
                    now + options.expiryInMinutes * SecondsPerMinute)
    }

    /** Builds the claim list step by step. `jti` is the fresh GUID text and `now` the clock. */
    method GenerateToken(user: User, roles: seq<string>, permissions: seq<string>, jti: string, now: int)
      returns (token: SecurityToken, expiresIn: int)
      ensures token.issuer == options.issuer && token.audience == options.audience
      ensures token.expires == now + options.expiryInMinutes * SecondsPerMinute
      ensures token.claims == ClaimsFor(user, roles, permissions, jti)
      ensures expiresIn == Int32(options.expiryInMinutes * SecondsPerMinute)
    {
      var claims := IdentityClaims(user, jti);
      for i := 0 to |roles|
        invariant claims == IdentityClaims(user, jti) + Tagged(RoleType, roles[..i])
      {
        assert roles[..i + 1][..i] == roles[..i];
        claims := claims + [Claim(RoleType, roles[i])];
      }
      assert roles[..|roles|] == roles;
      for i := 0 to |permissions|
        invariant claims == IdentityClaims(user, jti) + Tagged(RoleType, roles) + Tagged(PermissionType, permissions[..i])
      {
        assert permissions[..i + 1][..i] == permissions[..i];
        claims := claims + [Claim(PermissionType, permissions[i])];
      }
      assert permissions[..|permissions|] == permissions;
      token := SecurityToken(options.issuer, options.audience, claims, now + options.expiryInMinutes * SecondsPerMinute);
      expiresIn := Int32(options.expiryInMinutes * SecondsPerMinute);
    }
  }

  /** With a configured lifetime that fits in 32 bits, `ExpiresIn` is the lifetime in seconds. */
  lemma ExpiresInIsLifetime(options: JwtOptions)
    requires -0x8000_0000 <= options.expiryInMinutes * SecondsPerMinute < 0x8000_0000
    ensures Int32(options.expiryInMinutes * SecondsPerMinute) == options.expiryInMinutes * 60
  {
    Int32InRange(options.expiryInMinutes * SecondsPerMinute);
  }
}
