/** What holds of every rotation family over every run. */
module TokenFamilies {
  import opened Options
  import opened RefreshTokens

  /**
   Every id below `next` has been drawn. `origins` is what each family was issued for; `orphans` are tokens minted by
   rotations that were interrupted before answering, which nobody was ever handed.
   */
  datatype World = World(rows: Rows, now: nat, next: TokenId, origins: map<TokenId, Session>, orphans: set<TokenId>)

  datatype Step =
    | Tick(elapsed: nat)
    | Issue(session: Session)
    | RotateStep(presented: Option<TokenId>, interrupted: bool)
    | Revoke(revoked: Option<TokenId>)
    | RevokeAll(userId: string)
    | DeleteExpired

  /** A client presents what it likes, except what it cannot know. */
  predicate Enabled(w: World, s: Step) {
    s.RotateStep? && s.presented.Some? ==> s.presented.value !in w.orphans
  }

  function Next(w: World, s: Step): World {
    match s
    case Tick(elapsed) => w.(now := w.now + elapsed)
    case Issue(session) =>
      w.(rows := w.rows[w.next := Fresh(session, w.next, w.now)], next := w.next + 1, origins := w.origins[w.next := session])
    case RotateStep(presented, interrupted) =>
      var (rows, result) := Rotate(w.rows, presented, w.next, w.now, interrupted);
      w.(rows := rows, next := w.next + 1,
         orphans := if result == Unauthorized(Interrupted) then w.orphans + {w.next} else w.orphans)
    case Revoke(revoked) =>
      w.(rows := if revoked.Some? then Revoked(w.rows, revoked.value, None, w.now) else w.rows)
    case RevokeAll(userId) => w.(rows := if userId == "" then w.rows else UserRevoked(w.rows, userId, w.now))
    case DeleteExpired => w.(rows := Purged(w.rows, w.now))
  }

  predicate Active(w: World, id: TokenId) {
    id in w.rows && w.rows[id].revokedAt.None?
  }

  predicate InFamily(w: World, id: TokenId, familyId: TokenId) {
    id in w.rows && w.rows[id].familyId == familyId
  }

  // ---------------------------------------------------------------- the invariant

  predicate RowOk(w: World, id: TokenId) {
    id in w.rows ==>
      && id < w.next && w.rows[id].familyId in w.origins && w.rows[id].session == w.origins[w.rows[id].familyId]
      && w.rows[id].expiresAt <= w.now + REFRESH_TOKEN_TTL_MS
      && (id in w.orphans ==> w.rows[id].replacedBy.None?)
      && (w.rows[id].replacedBy.Some? ==> w.rows[id].revokedAt.Some? && LinkOk(w, id, w.rows[id].replacedBy.value))
  }

  /** The successor is a later token of the family that was handed out; it does not expire first. */
  predicate LinkOk(w: World, id: TokenId, successor: TokenId)
    requires id in w.rows
  {
    && successor in w.rows && id < successor && successor !in w.orphans
    && w.rows[successor].familyId == w.rows[id].familyId && w.rows[id].expiresAt <= w.rows[successor].expiresAt
  }

  /** Of two tokens of a family that were handed out, the earlier was replaced, by the later or one before it. */
  predicate PairOk(w: World, a: TokenId, b: TokenId) {
    a in w.rows && b in w.rows && a < b && a !in w.orphans && b !in w.orphans && w.rows[a].familyId == w.rows[b].familyId ==>
      w.rows[a].replacedBy.Some? && w.rows[a].replacedBy.value <= b
  }

  ghost predicate Inv(w: World) {
    && (forall id :: RowOk(w, id))
    && (forall a, b :: PairOk(w, a, b))
    && (forall f :: f in w.origins ==> f < w.next) && (forall id :: id in w.orphans ==> id < w.next)
  }

  // ---------------------------------------------------------------- steps

  /** Revoking some tokens without replacing them. */
  predicate OnlyRevokes(w: World, v: World) {
    && v == w.(rows := v.rows) && v.rows.Keys == w.rows.Keys
    && forall id :: id in w.rows ==> v.rows[id] == w.rows[id] || (w.rows[id].revokedAt.None? && v.rows[id] == w.rows[id].(revokedAt := Some(w.now)))
  }

  lemma OnlyRevokesKeeps(w: World, v: World)
    requires Inv(w) && OnlyRevokes(w, v)
    ensures Inv(v)
  {
    forall id ensures RowOk(v, id) {
      assert RowOk(w, id);
    }
    forall a, b ensures PairOk(v, a, b) {
      assert PairOk(w, a, b);
    }
  }

  lemma PurgeKeeps(w: World)
    requires Inv(w)
    ensures Inv(Next(w, DeleteExpired))
  {
    var v := Next(w, DeleteExpired);
    forall id ensures RowOk(v, id) {
      assert RowOk(w, id);
    }
    forall a, b ensures PairOk(v, a, b) {
      assert PairOk(w, a, b);
    }
  }

  lemma IssueKeeps(w: World, session: Session)
    requires Inv(w)
    ensures Inv(Next(w, Issue(session)))
  {
    var v := Next(w, Issue(session));
    forall id ensures RowOk(v, id) {
      assert RowOk(w, id) && RowOk(w, w.next);
    }
    forall a, b ensures PairOk(v, a, b) {
      assert PairOk(w, a, b) && RowOk(w, a) && RowOk(w, b);
    }
  }

  /** A rotation that mints. */
  predicate Mints(w: World, presented: TokenId) {
    presented in w.rows && w.rows[presented].revokedAt.None? && w.now < w.rows[presented].expiresAt
  }

  lemma MintKeepsRow(w: World, presented: TokenId, interrupted: bool, id: TokenId)
    requires Inv(w) && Mints(w, presented) && presented !in w.orphans
    ensures RowOk(Next(w, RotateStep(Some(presented), interrupted)), id)
  {
    assert RowOk(w, id) && RowOk(w, presented) && RowOk(w, w.next);
  }

  /** The presented token is the last of its family that was handed out, so the new one goes behind it. */
  lemma MintKeepsPair(w: World, presented: TokenId, interrupted: bool, a: TokenId, b: TokenId)
    requires Inv(w) && Mints(w, presented) && presented !in w.orphans
    ensures PairOk(Next(w, RotateStep(Some(presented), interrupted)), a, b)
  {
    assert RowOk(w, a) && RowOk(w, b) && RowOk(w, presented) && RowOk(w, w.next);
    assert PairOk(w, a, b) && PairOk(w, presented, b) && PairOk(w, a, presented) && PairOk(w, presented, a);
  }

  lemma RotateKeeps(w: World, presented: Option<TokenId>, interrupted: bool)
    requires Inv(w) && Enabled(w, RotateStep(presented, interrupted))
    ensures Inv(Next(w, RotateStep(presented, interrupted)))
  {
    var v := Next(w, RotateStep(presented, interrupted));
    if presented.Some? && Mints(w, presented.value) {
      forall id ensures RowOk(v, id) {
        MintKeepsRow(w, presented.value, interrupted, id);
      }
      forall a, b ensures PairOk(v, a, b) {
        MintKeepsPair(w, presented.value, interrupted, a, b);
      }
    } else {
      var u := v.(next := w.next);
      OnlyRevokesKeeps(w, u);
      forall id ensures RowOk(v, id) {
        assert RowOk(u, id);
      }
      forall a, b ensures PairOk(v, a, b) {
        assert PairOk(u, a, b);
      }
    }
  }

  lemma StepKeeps(w: World, s: Step)
    requires Inv(w) && Enabled(w, s)
    ensures Inv(Next(w, s))
  {
    match s
    case Tick(elapsed) =>
      var v := Next(w, s);
      forall id ensures RowOk(v, id) {
        assert RowOk(w, id);
      }
      forall a, b ensures PairOk(v, a, b) {
        assert PairOk(w, a, b);
      }
    case Issue(session) => IssueKeeps(w, session);
    case RotateStep(presented, interrupted) => RotateKeeps(w, presented, interrupted);
    case Revoke(_) => OnlyRevokesKeeps(w, Next(w, s));
    case RevokeAll(_) => OnlyRevokesKeeps(w, Next(w, s));
    case DeleteExpired => PurgeKeeps(w);
  }

  predicate ValidRun(w: World, steps: seq<Step>)
    decreases |steps|
  {
    |steps| == 0 || (Enabled(w, steps[0]) && ValidRun(Next(w, steps[0]), steps[1..]))
  }

  function Run(w: World, steps: seq<Step>): World
    requires ValidRun(w, steps)
    decreases |steps|
  {
    if |steps| == 0 then w else Run(Next(w, steps[0]), steps[1..])
  }

  function Empty(now: nat): World {
    World(map[], now, 0, map[], {})
  }

  lemma {:induction false} RunKeeps(w: World, steps: seq<Step>)
    requires Inv(w) && ValidRun(w, steps)
    ensures Inv(Run(w, steps))
    decreases |steps|
  {
    if |steps| > 0 {
      StepKeeps(w, steps[0]);
      RunKeeps(Next(w, steps[0]), steps[1..]);
    }
  }

  // ---------------------------------------------------------------- the theorems

  /** Over every run, a family has at most one unrevoked token that was ever handed out, and it is the family's latest. */
  lemma AtMostOneActive(start: nat, steps: seq<Step>, a: TokenId, b: TokenId)
    requires ValidRun(Empty(start), steps)
    requires var w := Run(Empty(start), steps);
             Active(w, a) && a !in w.orphans && b in w.rows && b !in w.orphans && w.rows[a].familyId == w.rows[b].familyId
    ensures b <= a && (Active(Run(Empty(start), steps), b) ==> a == b)
  {
    RunKeeps(Empty(start), steps);
    var w := Run(Empty(start), steps);
    assert RowOk(w, a) && RowOk(w, b) && PairOk(w, a, b) && PairOk(w, b, a);
  }

  /**
   Over every run, the links of a family make one simple chain: a token's successor is the next of the family that was
   handed out, never absent and never shared, every such token but the last has one, and user and provider are those the
   family was issued for.
   */
  lemma FamilyIsOneChain(start: nat, steps: seq<Step>, a: TokenId)
    requires ValidRun(Empty(start), steps)
    requires a in Run(Empty(start), steps).rows && a !in Run(Empty(start), steps).orphans
    ensures var w := Run(Empty(start), steps);
            var f, link := w.rows[a].familyId, w.rows[a].replacedBy;
            && (link.Some? <==> exists b: TokenId :: b !in w.orphans && a < b && InFamily(w, b, f))
            && (link.Some? ==> InFamily(w, link.value, f) && a < link.value && link.value !in w.orphans)
            && (link.Some? ==> forall b: TokenId :: InFamily(w, b, f) && b !in w.orphans ==> b <= a || link.value <= b)
            && (forall b: TokenId :: b in w.rows && b != a && link.Some? ==> w.rows[b].replacedBy != link)
            && f in w.origins && w.rows[a].session == w.origins[f]
  {
    RunKeeps(Empty(start), steps);
    var w := Run(Empty(start), steps);
    var f, link := w.rows[a].familyId, w.rows[a].replacedBy;
    assert RowOk(w, a);
    if link.Some? {
      assert InFamily(w, link.value, f);
    }
    forall b: TokenId | b !in w.orphans && a < b && InFamily(w, b, f) ensures link.Some? && link.value <= b {
      assert PairOk(w, a, b);
    }
    forall b | b in w.rows && b != a && link.Some? ensures w.rows[b].replacedBy != link {
      assert RowOk(w, b) && PairOk(w, a, b) && PairOk(w, b, a);
    }
  }

  /** None of the family's tokens can be used any more. */
  ghost predicate Dead(w: World, familyId: TokenId) {
    forall id :: InFamily(w, id, familyId) ==> !Active(w, id)
  }

  lemma StepKeepsDead(w: World, s: Step, familyId: TokenId)
    requires Inv(w) && Enabled(w, s) && Dead(w, familyId) && familyId < w.next
    ensures Dead(Next(w, s), familyId) && familyId < Next(w, s).next
  {
    var v := Next(w, s);
    forall id | InFamily(v, id, familyId) ensures !Active(v, id) {
      assert InFamily(w, id, familyId) ==> !Active(w, id);
      if s.RotateStep? && s.presented.Some? && Mints(w, s.presented.value) {
        assert InFamily(w, s.presented.value, familyId) ==> !Active(w, s.presented.value);
      }
    }
  }

  /** A family without an unrevoked token never has one again. */
  lemma {:induction false} DeadStaysDead(w: World, steps: seq<Step>, familyId: TokenId)
    requires Inv(w) && ValidRun(w, steps) && Dead(w, familyId) && familyId < w.next
    ensures Dead(Run(w, steps), familyId)
    decreases |steps|
  {
    if |steps| > 0 {
      StepKeeps(w, steps[0]);
      StepKeepsDead(w, steps[0], familyId);
      DeadStaysDead(Next(w, steps[0]), steps[1..], familyId);
    }
  }

  /** Replaying a used token leaves no token of its family usable, orphans included, now or at the end of any later run. */
  lemma ReplayKillsFamily(w: World, presented: TokenId, interrupted: bool, later: seq<Step>)
    requires Inv(w) && presented in w.rows && w.rows[presented].revokedAt.Some? && presented !in w.orphans
    requires ValidRun(Next(w, RotateStep(Some(presented), interrupted)), later)
    ensures Dead(Next(w, RotateStep(Some(presented), interrupted)), w.rows[presented].familyId)
    ensures Dead(Run(Next(w, RotateStep(Some(presented), interrupted)), later), w.rows[presented].familyId)
    ensures Rotate(w.rows, Some(presented), w.next, w.now, interrupted).1 == Unauthorized(AlreadyUsed)
  {
    StepKeeps(w, RotateStep(Some(presented), interrupted));
    assert RowOk(w, presented);
    DeadStaysDead(Next(w, RotateStep(Some(presented), interrupted)), later, w.rows[presented].familyId);
  }

  /** Revoking everything of a user ends every family the user has. */
  lemma RevokeAllEndsFamilies(w: World, userId: string, familyId: TokenId, later: seq<Step>)
    requires Inv(w) && userId != "" && familyId in w.origins && w.origins[familyId].userId == userId
    requires ValidRun(Next(w, RevokeAll(userId)), later)
    ensures Dead(Run(Next(w, RevokeAll(userId)), later), familyId)
  {
    var v := Next(w, RevokeAll(userId));
    StepKeeps(w, RevokeAll(userId));
    forall id | InFamily(v, id, familyId) ensures !Active(v, id) {
      assert RowOk(w, id);
    }
    DeadStaysDead(v, later, familyId);
  }

  /** A token is accepted exactly when it is known, unrevoked and unexpired; its session is the family's. */
  lemma AcceptedIffActive(start: nat, steps: seq<Step>, presented: TokenId)
    requires ValidRun(Empty(start), steps)
    ensures var w := Run(Empty(start), steps);
            var answer := Rotate(w.rows, Some(presented), w.next, w.now, false).1;
            && (answer.Rotated? <==> Active(w, presented) && w.now < w.rows[presented].expiresAt)
            && (answer.Rotated? ==> w.rows[presented].familyId in w.origins && answer.session == w.origins[w.rows[presented].familyId])
  {
    RunKeeps(Empty(start), steps);
    assert RowOk(Run(Empty(start), steps), presented);
  }

  // ---------------------------------------------------------------- one token

  /** The token was drawn, and cannot be used. */
  predicate Spent(w: World, id: TokenId) {
    id < w.next && !Active(w, id)
  }

  lemma StepKeepsSpent(w: World, s: Step, id: TokenId)
    requires Inv(w) && Enabled(w, s) && Spent(w, id)
    ensures Spent(Next(w, s), id)
  {
  }

  lemma {:induction false} SpentStaysSpent(w: World, steps: seq<Step>, id: TokenId)
    requires Inv(w) && ValidRun(w, steps) && Spent(w, id)
    ensures Spent(Run(w, steps), id)
    decreases |steps|
  {
    if |steps| > 0 {
      StepKeeps(w, steps[0]);
      StepKeepsSpent(w, steps[0], id);
      SpentStaysSpent(Next(w, steps[0]), steps[1..], id);
    }
  }

  /**
   Logging out ends the token: it is revoked with the rest left alone, and over every later run it is never active and
   presenting it never rotates.
   */
  lemma LogoutEndsToken(w: World, id: TokenId, later: seq<Step>, minted: TokenId, interrupted: bool)
    requires Inv(w) && id in w.rows && ValidRun(Next(w, Revoke(Some(id))), later)
    ensures LoggedOut(w.rows, Next(w, Revoke(Some(id))).rows, id, w.now)
    ensures var v := Run(Next(w, Revoke(Some(id))), later);
            !Active(v, id) && !Rotate(v.rows, Some(id), minted, v.now, interrupted).1.Rotated?
  {
    RevokedIsLoggedOut(w.rows, id, w.now, w.now);
    assert RowOk(w, id);
    StepKeeps(w, Revoke(Some(id)));
    SpentStaysSpent(Next(w, Revoke(Some(id))), later, id);
  }

  /** The expired rows go, and no other. */
  lemma ExpiredGo(w: World, id: TokenId)
    ensures var v := Next(w, DeleteExpired);
            && (id in v.rows <==> id in w.rows && w.now < w.rows[id].expiresAt)
            && (id in v.rows ==> v.rows[id] == w.rows[id])
  {
  }

  /** An issued token can be used at once, until it expires or is revoked: a rotation hands its session on to a new one. */
  lemma IssuedCanRotate(w: World, session: Session, elapsed: nat)
    requires Inv(w) && elapsed < REFRESH_TOKEN_TTL_MS
    ensures var issued := Next(Next(w, Issue(session)), Tick(elapsed));
            var v := Next(issued, RotateStep(Some(w.next), false));
            && Enabled(issued, RotateStep(Some(w.next), false))
            && Rotate(issued.rows, Some(w.next), issued.next, issued.now, false).1 == Rotated(session, issued.next)
            && !Active(v, w.next) && Active(v, issued.next) && v.rows[issued.next].session == session
  {
    var issued := Next(Next(w, Issue(session)), Tick(elapsed));
    StepKeeps(w, Issue(session));
    StepKeeps(Next(w, Issue(session)), Tick(elapsed));
    assert RowOk(issued, issued.next) && RowOk(w, w.next);
    RotationHandsOver(issued.rows, w.next, issued.next, issued.now);
  }

  /** Every rotation hands over: the token presented is spent, and the one answered is its family's usable one. */
  lemma RotationMovesOn(w: World, presented: TokenId)
    requires Inv(w) && presented in w.rows && presented !in w.orphans && Active(w, presented) && w.now < w.rows[presented].expiresAt
    ensures HandedOver(w.rows, Next(w, RotateStep(Some(presented), false)).rows, presented, w.next, w.now)
  {
    assert RowOk(w, presented) && RowOk(w, w.next);
    RotationHandsOver(w.rows, presented, w.next, w.now);
  }
}
