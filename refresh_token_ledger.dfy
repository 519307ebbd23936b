/** The refresh-token table as `AuthService` uses it (Services/AuthService.cs):
    the two lookups it runs, the row it appends, the revoke flip, and the facts
    about them that make a token single-use. */
module RefreshTokenLedger {
  import opened Abstractions
  import opened Entities

  const RefreshTokenExpiryDays := 14
  const SecondsPerDay := 86400
  /** How long a refresh token lives, in seconds. */
  const RefreshTokenLifetime := RefreshTokenExpiryDays * SecondsPerDay

  /** The two queries: the one refresh runs (token, not revoked, not yet expired at
      `now`) and the one revoke runs (token, owner, not revoked; expiry not looked at). */
  datatype Query = Active(token: string, now: int) | Owned(token: string, userId: string)

  predicate Matches(row: RefreshToken, q: Query) {
    match q
    case Active(token, now) => row.token == token && !row.isRevoked && row.expiresAt > now
    case Owned(token, userId) => row.token == token && row.userId == userId && !row.isRevoked
  }

  /** `FirstOrDefaultAsync`: the position of the first matching row, if any. */
  function FirstMatch(rows: seq<RefreshToken>, q: Query): (r: Option<nat>)
    ensures r.Some? ==> r.value < |rows| && Matches(rows[r.value], q)
    ensures r.Some? ==> forall j :: 0 <= j < r.value ==> !Matches(rows[j], q)
    ensures r.Nothing? <==> forall j :: 0 <= j < |rows| ==> !Matches(rows[j], q)
  {
    if rows == [] then Nothing
    else if Matches(rows[0], q) then Some(0)
    else match FirstMatch(rows[1..], q)
      case Nothing => Nothing
      case Some(k) => Some(k + 1)
  }

  /** The token strings present in the table. */
  function Tokens(rows: seq<RefreshToken>): set<string> {
    set i | 0 <= i < |rows| :: rows[i].token
  }

  /** No token string appears on two rows. */
  predicate UniqueTokens(rows: seq<RefreshToken>) {
    forall i, j :: 0 <= i < j < |rows| ==> rows[i].token != rows[j].token
  }

  /** The row `SaveRefreshTokenAsync` adds for a token issued at `now`. */
  function Issued(token: string, userId: string, now: int): RefreshToken {
    RefreshToken(token, userId, now + RefreshTokenLifetime, false, now)
  }

  /** `storedToken.IsRevoked = true` on row `i`. */
  function Revoke(rows: seq<RefreshToken>, i: nat): seq<RefreshToken>
    requires i < |rows|
  {
    rows[i := rows[i].(isRevoked := true)]
  }

  /** `after` is a later state of the table `before`: rows are never removed and a
      row changes only by being revoked. */
  ghost predicate Evolves(before: seq<RefreshToken>, after: seq<RefreshToken>) {
    && |before| <= |after|
    && forall i :: 0 <= i < |before| ==> after[i] == before[i] || after[i] == before[i].(isRevoked := true)
  }

  /** Revocation is one-way: a revoked row stays revoked in every later state. */
  lemma RevokedStaysRevoked(before: seq<RefreshToken>, after: seq<RefreshToken>, i: nat)
    requires Evolves(before, after) && i < |before| && before[i].isRevoked
    ensures after[i].isRevoked && after[i] == before[i]
  {
  }

  lemma EvolvesTransitive(a: seq<RefreshToken>, b: seq<RefreshToken>, c: seq<RefreshToken>)
    requires Evolves(a, b) && Evolves(b, c)
    ensures Evolves(a, c)
  {
    forall i | 0 <= i < |a| ensures c[i] == a[i] || c[i] == a[i].(isRevoked := true) {
      assert b[i] == a[i] || b[i] == a[i].(isRevoked := true);
    }
  }

  /** Revoking a row and appending a fresh one are both later states. */
  lemma RevokeAndIssueEvolve(rows: seq<RefreshToken>, i: nat, row: RefreshToken)
    requires i < |rows|
    ensures Evolves(rows, Revoke(rows, i))
    ensures Evolves(rows, rows + [row])
    ensures Evolves(rows, Revoke(rows, i) + [row])
  {
  }

  /** Revoking keeps the token strings, so uniqueness is kept. */
  lemma RevokeKeepsTokens(rows: seq<RefreshToken>, i: nat)
    requires i < |rows|
    ensures Tokens(Revoke(rows, i)) == Tokens(rows)
    ensures UniqueTokens(rows) ==> UniqueTokens(Revoke(rows, i))
  {
    var after := Revoke(rows, i);
    forall t | t in Tokens(rows) ensures t in Tokens(after) {
      var k :| 0 <= k < |rows| && rows[k].token == t;
      assert after[k].token == t;
    }
  }

  /** Appending a row whose token is new keeps uniqueness. */
  lemma IssueKeepsUnique(rows: seq<RefreshToken>, token: string, userId: string, now: int)
    requires UniqueTokens(rows) && token !in Tokens(rows)
    ensures UniqueTokens(rows + [Issued(token, userId, now)])
    ensures Tokens(rows + [Issued(token, userId, now)]) == Tokens(rows) + {token}
  {
    var after := rows + [Issued(token, userId, now)];
    forall i, j | 0 <= i < j < |after| ensures after[i].token != after[j].token {
      if j == |rows| {
        assert rows[i].token in Tokens(rows);
      }
    }
    forall t | t in Tokens(after) ensures t in Tokens(rows) + {token} {
      var k :| 0 <= k < |after| && after[k].token == t;
      if k < |rows| {
        assert rows[k].token in Tokens(rows);
      }
    }
    forall t | t in Tokens(rows) ensures t in Tokens(after) {
      var k :| 0 <= k < |rows| && rows[k].token == t;
      assert after[k].token == t;
    }
    assert after[|rows|].token == token;
  }

  /** With unique tokens, at most one row is live for a token string at any time. */
  lemma AtMostOneLive(rows: seq<RefreshToken>, token: string, now: int, i: nat, j: nat)
    requires UniqueTokens(rows) && i < |rows| && j < |rows|
    requires Matches(rows[i], Active(token, now)) && Matches(rows[j], Active(token, now))
    ensures i == j
  {
  }

  /** Once row `i` is revoked, its token is found neither by refresh, at any time,
      nor by revoke, for any owner. */
  lemma SpentAfterRevoke(rows: seq<RefreshToken>, i: nat)
    requires UniqueTokens(rows) && i < |rows|
    ensures forall later :: FirstMatch(Revoke(rows, i), Active(rows[i].token, later)).Nothing?
    ensures forall userId :: FirstMatch(Revoke(rows, i), Owned(rows[i].token, userId)).Nothing?
  {
    var after := Revoke(rows, i);
    forall j | 0 <= j < |after| ensures after[j].token != rows[i].token || after[j].isRevoked {
      if j < i {
        assert rows[j].token != rows[i].token;
      } else if j > i {
        assert rows[i].token != rows[j].token;
      }
    }
  }

  /** Single use: once the row found for a token is revoked and a row with a new
      token appended, that token is found neither by refresh, at any time, nor by revoke,
      for any owner. */
  lemma SpentAfterRotation(rows: seq<RefreshToken>, token: string, now: int, i: nat, row: RefreshToken)
    requires UniqueTokens(rows)
    requires FirstMatch(rows, Active(token, now)) == Some(i)
    requires row.token !in Tokens(rows)
    ensures forall later :: FirstMatch(Revoke(rows, i) + [row], Active(token, later)).Nothing?
    ensures forall userId :: FirstMatch(Revoke(rows, i) + [row], Owned(token, userId)).Nothing?
  {
    var after := Revoke(rows, i) + [row];
    assert rows[i].token == token;
    assert token in Tokens(rows);
    forall j | 0 <= j < |after| ensures after[j].token != token || after[j].isRevoked {
      if j < |rows| && j != i {
        assert rows[j].token != rows[i].token;
      }
    }
  }

  /** Revoking needs no live token: in a table with unique tokens, an expired row is
      refused by refresh but still found by its owner. */
  lemma RevokeIgnoresExpiry(rows: seq<RefreshToken>, i: nat, now: int)
    requires UniqueTokens(rows) && i < |rows|
    requires !rows[i].isRevoked && rows[i].expiresAt <= now
    ensures FirstMatch(rows, Active(rows[i].token, now)).Nothing?
    ensures FirstMatch(rows, Owned(rows[i].token, rows[i].userId)) == Some(i)
  {
    forall j | 0 <= j < |rows| && j != i ensures rows[j].token != rows[i].token {
      if j < i {
        assert rows[j].token != rows[i].token;
      } else {
        assert rows[i].token != rows[j].token;
      }
    }
    var found := FirstMatch(rows, Owned(rows[i].token, rows[i].userId));
    assert found.Some?;
  }

  /** A row just issued at `now` is live for exactly the next fourteen days. */
  lemma IssuedLifetime(token: string, userId: string, now: int, later: int)
    ensures Matches(Issued(token, userId, now), Active(token, later)) <==> later < now + 14 * 86400
    ensures Matches(Issued(token, userId, now), Owned(token, userId))
  {
  }
}
