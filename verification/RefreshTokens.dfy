/**
 Rotating refresh tokens. A token's plaintext, its hash and its row id are drawn together at random and never again;
 one number represents all three. A family id is drawn likewise.
 */
module RefreshTokens {
  import opened Options

  type TokenId = nat

  /** 30 days. */
  const REFRESH_TOKEN_TTL_MS := 2592000000

  datatype Session = Session(userId: string, email: string, actingProviderId: Option<string>)

  datatype Row = Row(session: Session, familyId: TokenId, expiresAt: nat, revokedAt: Option<nat>, replacedBy: Option<TokenId>)

  type Rows = map<TokenId, Row>

  datatype Rejection = MissingToken | InvalidToken | AlreadyUsed | Expired | Interrupted

  datatype Rotation = Rotated(session: Session, refreshToken: TokenId) | Unauthorized(reason: Rejection)

  function Revoked(rows: Rows, tokenId: TokenId, replacedBy: Option<TokenId>, now: nat): Rows {
    if tokenId in rows && rows[tokenId].revokedAt.None? then
      var row := rows[tokenId];
      rows[tokenId := row.(revokedAt := Some(now), replacedBy := if replacedBy.Some? then replacedBy else row.replacedBy)]
    else rows
  }

  function RevokedIf(row: Row, condition: bool, now: nat): Row {
    if condition && row.revokedAt.None? then row.(revokedAt := Some(now)) else row
  }

  function FamilyRevoked(rows: Rows, familyId: TokenId, now: nat): Rows {
    map id | id in rows :: RevokedIf(rows[id], rows[id].familyId == familyId, now)
  }

  function UserRevoked(rows: Rows, userId: string, now: nat): Rows {
    map id | id in rows :: RevokedIf(rows[id], rows[id].session.userId == userId, now)
  }

  function Purged(rows: Rows, now: nat): Rows {
    map id | id in rows && now < rows[id].expiresAt :: rows[id]
  }

  function Fresh(session: Session, familyId: TokenId, now: nat): Row {
    Row(session, familyId, now + REFRESH_TOKEN_TTL_MS, None, None)
  }

  /** `rotate`, with `minted` the new token; `interrupted` when the second statement never runs. */
  function Rotate(rows: Rows, presented: Option<TokenId>, minted: TokenId, now: nat, interrupted: bool): (Rows, Rotation) {
    if presented.None? then (rows, Unauthorized(MissingToken))
    else if presented.value !in rows then (rows, Unauthorized(InvalidToken))
    else
      var row := rows[presented.value];
      if row.revokedAt.Some? then (FamilyRevoked(rows, row.familyId, now), Unauthorized(AlreadyUsed))
      else if row.expiresAt <= now then (rows, Unauthorized(Expired))
      else
        var created := rows[minted := Fresh(row.session, row.familyId, now)];
        if interrupted then (created, Unauthorized(Interrupted))
        else (Revoked(created, presented.value, Some(minted), now), Rotated(row.session, minted))
  }

  /** Every row but `id`'s is as it was. */
  ghost predicate OthersSame(rows: Rows, after: Rows, id: TokenId) {
    forall other :: other != id ==> (other in after <==> other in rows) && (other in rows ==> after[other] == rows[other])
  }

  /** A logout, by what it leaves: the presented token revoked now, unless it was already, and nothing else changed. */
  ghost predicate LoggedOut(rows: Rows, after: Rows, id: TokenId, now: nat) {
    && OthersSame(rows, after, id)
    && (id in after <==> id in rows)
    && (id in rows && rows[id].revokedAt.Some? ==> after[id] == rows[id])
    && (id in rows && rows[id].revokedAt.None? ==>
          && after[id].revokedAt == Some(now) && after[id].replacedBy == rows[id].replacedBy
          && after[id].session == rows[id].session && after[id].familyId == rows[id].familyId
          && after[id].expiresAt == rows[id].expiresAt)
  }

  lemma RevokedIsLoggedOut(rows: Rows, id: TokenId, now: nat, later: nat)
    ensures LoggedOut(rows, Revoked(rows, id, None, now), id, now)
    ensures Revoked(Revoked(rows, id, None, now), id, None, later) == Revoked(rows, id, None, now)
  {
  }

  /** A rotation, by what it leaves: the old token revoked with its successor, the new one fresh in the same family. */
  ghost predicate HandedOver(rows: Rows, after: Rows, presented: TokenId, minted: TokenId, now: nat) {
    && presented in rows && presented in after && minted in after
    && after[presented] == rows[presented].(revokedAt := Some(now), replacedBy := Some(minted))
    && after[minted] == Row(rows[presented].session, rows[presented].familyId, now + 30 * 24 * 60 * 60 * 1000, None, None)
    && (forall other :: other != presented && other != minted ==>
          (other in after <==> other in rows) && (other in rows ==> after[other] == rows[other]))
  }

  lemma RotationHandsOver(rows: Rows, presented: TokenId, minted: TokenId, now: nat)
    requires minted != presented && minted !in rows
    requires presented in rows && rows[presented].revokedAt.None? && now < rows[presented].expiresAt
    ensures var (after, answer) := Rotate(rows, Some(presented), minted, now, false);
            answer == Rotated(rows[presented].session, minted) && HandedOver(rows, after, presented, minted, now)
  {
  }

  /** Why a rotation is refused, in the order of the checks; only a replay changes anything. */
  lemma WhyRejected(rows: Rows, presented: Option<TokenId>, minted: TokenId, now: nat)
    ensures var (after, answer) := Rotate(rows, presented, minted, now, false);
            && (answer == Unauthorized(MissingToken) <==> presented.None?)
            && (answer == Unauthorized(InvalidToken) <==> presented.Some? && presented.value !in rows)
            && (answer == Unauthorized(AlreadyUsed) <==>
                  presented.Some? && presented.value in rows && rows[presented.value].revokedAt.Some?)
            && (answer == Unauthorized(Expired) <==>
                  presented.Some? && presented.value in rows && rows[presented.value].revokedAt.None?
                  && rows[presented.value].expiresAt <= now)
            && (answer.Unauthorized? && answer.reason != AlreadyUsed ==> after == rows)
  {
  }

  /** Nobody else's token is touched by a refused rotation, nor by the revocation of a family, a user or what has expired. */
  lemma OnlyTheNamedGo(rows: Rows, id: TokenId, familyId: TokenId, userId: string, now: nat)
    requires id in rows
    ensures id in FamilyRevoked(rows, familyId, now) && id in UserRevoked(rows, userId, now)
    ensures FamilyRevoked(rows, familyId, now)[id].revokedAt
         == if rows[id].familyId == familyId && rows[id].revokedAt.None? then Some(now) else rows[id].revokedAt
    ensures UserRevoked(rows, userId, now)[id].revokedAt
         == if rows[id].session.userId == userId && rows[id].revokedAt.None? then Some(now) else rows[id].revokedAt
    ensures id in Purged(rows, now) <==> now < rows[id].expiresAt
    ensures id in Purged(rows, now) ==> Purged(rows, now)[id] == rows[id]
  {
  }

  class RefreshTokenService {
    var rows: Rows

    constructor ()
      ensures rows == map[]
    {
      rows := map[];
    }

    method Create(session: Session, familyId: TokenId, minted: TokenId, now: nat)
      modifies this
      ensures rows == old(rows)[minted := Fresh(session, familyId, now)]
    {
      rows := rows[minted := Row(session, familyId, now + REFRESH_TOKEN_TTL_MS, None, None)];
    }

    method RevokeRow(tokenId: TokenId, replacedBy: Option<TokenId>, now: nat)
      modifies this
      ensures rows == Revoked(old(rows), tokenId, replacedBy, now)
    {
      if tokenId in rows && rows[tokenId].revokedAt.None? {
        var row := rows[tokenId].(revokedAt := Some(now));
        if replacedBy.Some? {
          row := row.(replacedBy := replacedBy);
        }
        rows := rows[tokenId := row];
      }
    }

    method Issue(session: Session, minted: TokenId, familyId: TokenId, now: nat) returns (token: TokenId)
      modifies this
      ensures token == minted && rows == old(rows)[minted := Row(session, familyId, now + 30 * 24 * 60 * 60 * 1000, None, None)]
    {
      Create(session, familyId, minted, now);
      token := minted;
    }

    method RotateToken(presented: Option<TokenId>, minted: TokenId, now: nat, interrupted: bool) returns (result: Rotation)
      modifies this
      ensures (rows, result) == Rotate(old(rows), presented, minted, now, interrupted)
    {
      if presented.None? {
        return Unauthorized(MissingToken);
      }
      if presented.value !in rows {
        return Unauthorized(InvalidToken);
      }
      var row := rows[presented.value];
      if row.revokedAt.Some? {
        rows := map id | id in rows ::
          if rows[id].familyId == row.familyId && rows[id].revokedAt.None? then rows[id].(revokedAt := Some(now)) else rows[id];
        assert rows == FamilyRevoked(old(rows), row.familyId, now);
        return Unauthorized(AlreadyUsed);
      }
      if row.expiresAt <= now {
        return Unauthorized(Expired);
      }
      Create(row.session, row.familyId, minted, now);
      if interrupted {
        return Unauthorized(Interrupted);
      }
      RevokeRow(presented.value, Some(minted), now);
      return Rotated(row.session, minted);
    }

    /** Logout: quiet and idempotent. */
    method Revoke(presented: Option<TokenId>, now: nat)
      modifies this
      ensures rows == if presented.Some? then Revoked(old(rows), presented.value, None, now) else old(rows)
      ensures if presented.Some? then LoggedOut(old(rows), rows, presented.value, now) else rows == old(rows)
    {
      if presented.Some? {
        RevokedIsLoggedOut(rows, presented.value, now, now);
      }
      if presented.Some? && presented.value in rows && rows[presented.value].revokedAt.None? {
        RevokeRow(presented.value, None, now);
      }
    }

    method RevokeAllForUser(userId: string, now: nat)
      modifies this
      ensures rows == if userId == "" then old(rows) else UserRevoked(old(rows), userId, now)
    {
      if userId != "" {
        rows := map id | id in rows ::
          if rows[id].session.userId == userId && rows[id].revokedAt.None? then rows[id].(revokedAt := Some(now)) else rows[id];
      }
    }

    method DeleteExpired(now: nat) returns (count: nat)
      modifies this
      ensures rows == Purged(old(rows), now) && count == |old(rows)| - |rows|
      ensures forall id :: id in rows <==> id in old(rows) && now < old(rows)[id].expiresAt
    {
      var before := rows;
      rows := map id | id in rows && now < rows[id].expiresAt :: rows[id];
      SubmapSize(rows, before);
      count := |before| - |rows|;
    }
  }

  lemma SubmapSize(a: Rows, b: Rows)
    requires a.Keys <= b.Keys
    ensures |a| <= |b|
  {
    SubsetSize(a.Keys, b.Keys);
  }

  lemma {:induction false} SubsetSize(a: set<TokenId>, b: set<TokenId>)
    requires a <= b
    ensures |a| <= |b|
    decreases a
  {
    if a != {} {
      var x :| x in a;
      SubsetSize(a - {x}, b - {x});
    }
  }
}
