/** What every step of every run keeps. */
module GrantInvariants {
  import opened Prelude
  import opened GrantTables
  import opened GrantSteps
  import opened GrantMachine

  /** The lifetimes a deployment may choose. The last two bounds are where the retention periods
      of cleanup meet the reuse grace: an early clock reading may be old, but not older than this. */
  ghost predicate Sound(cfg: Config) {
    && cfg.lag >= 0
    && 0 <= cfg.grace <= MINUTE
    && cfg.lag + cfg.grace <= 7 * DAY
    && cfg.lag + cfg.grace <= cfg.ttl + DAY
  }

  /** Redeemed, and a replay could still be let through. */
  predicate InGrace(cfg: Config, row: Token, clock: Time) {
    row.usedAt.Some? && clock <= row.usedAt.value + cfg.grace
  }

  /** Identifiers are unique, and every row carries the grant its family was opened with. */
  ghost predicate NamedRows(t: Tokens, ids: set<TokenId>, hashes: set<TokenHash>, origins: map<FamilyId, Grant>) {
    && t.Keys <= ids
    && UniqueHashes(t)
    && (forall i :: i in t ==>
          && t[i].hash in hashes
          && t[i].family in origins
          && t[i].grant == origins[t[i].family]
          && (t[i].parent.Some? ==> t[i].parent.value in ids))
  }

  ghost predicate Named(w: World) {
    NamedRows(w.db.tokens, w.ids, w.hashes, w.origins) && w.db.tombstones.Keys <= w.origins.Keys
  }

  ghost predicate RowOk(cfg: Config, row: Token, clock: Time) {
    && (row.usedAt.Some? ==> row.revokedAt == row.usedAt && row.usedAt.value <= clock)
    && (row.revokedAt.Some? ==> row.revokedAt.value <= clock)
    && row.createdAt <= clock
    && row.expiresAt == row.createdAt + cfg.ttl
  }

  ghost predicate RowsOk(cfg: Config, t: Tokens, clock: Time) {
    forall i :: i in t ==> RowOk(cfg, t[i], clock)
  }

  /** `row` was neither created nor revoked before `t` (give or take the lag). */
  predicate NotBefore(cfg: Config, row: Token, t: Time) {
    row.createdAt >= t - cfg.lag && (row.revokedAt.Some? ==> row.revokedAt.value >= t - cfg.lag)
  }

  /** A child is in its parent's family and came after the parent's redemption. */
  ghost predicate KinOk(cfg: Config, t: Tokens) {
    forall c :: c in t && t[c].parent.Some? && t[c].parent.value in t ==>
      var p := t[t[c].parent.value];
      p.family == t[c].family && p.usedAt.Some? && NotBefore(cfg, t[c], p.usedAt.value)
  }

  ghost predicate NoLive(t: Tokens, f: FamilyId) {
    forall i :: i in t && t[i].family == f ==> !t[i].Live()
  }

  /** No live row in the family, and nothing created or redeemed after `at` (give or take the lag). */
  ghost predicate Ended(cfg: Config, t: Tokens, f: FamilyId, at: Time) {
    && NoLive(t, f)
    && forall i :: i in t && t[i].family == f ==>
         t[i].createdAt <= at + cfg.lag && (t[i].usedAt.Some? ==> t[i].usedAt.value <= at + cfg.lag)
  }

  ghost predicate PurposeOk(cfg: Config, t: Tokens) {
    forall r :: r in t && t[r].RevokedOnPurpose() ==> Ended(cfg, t, t[r].family, t[r].revokedAt.value)
  }

  ghost predicate TombstonesOk(cfg: Config, db: Db) {
    forall f :: f in db.tombstones ==> Ended(cfg, db.tokens, f, db.tombstones[f].revokedAt)
  }

  /** A row of the same family that cleanup leaves alone while `p` is in grace. */
  predicate Relative(cfg: Config, t: Tokens, p: Token, d: TokenId)
    requires p.usedAt.Some?
  {
    d in t && t[d].family == p.family && NotBefore(cfg, t[d], p.usedAt.value)
  }

  predicate Heir(cfg: Config, t: Tokens, p: Token, d: TokenId)
    requires p.usedAt.Some?
  {
    Relative(cfg, t, p, d) && t[d].usedAt.None?
  }

  ghost predicate HeirsOk(cfg: Config, t: Tokens, clock: Time) {
    forall p :: p in t && InGrace(cfg, t[p], clock) ==> exists d :: Heir(cfg, t, t[p], d)
  }

  /** A family whose client gets no grace never has two live tokens. */
  ghost predicate SinglesOk(cfg: Config, t: Tokens) {
    forall i, j :: (i in t && j in t && t[i].family == t[j].family && t[i].Live() && t[j].Live()
                    && t[i].grant.client !in cfg.graceClients) ==> i == j
  }

  ghost predicate Inv(cfg: Config, w: World) {
    && Named(w)
    && RowsOk(cfg, w.db.tokens, w.clock)
    && KinOk(cfg, w.db.tokens)
    && PurposeOk(cfg, w.db.tokens)
    && TombstonesOk(cfg, w.db)
    && HeirsOk(cfg, w.db.tokens, w.clock)
    && SinglesOk(cfg, w.db.tokens)
  }


  // ---------- steps that only revoke and delete ----------

  /** `row2` is `row`, or `row` freshly revoked by a transaction that took effect at `at`. */
  predicate FadedRow(cfg: Config, row: Token, row2: Token, at: Time) {
    || row2 == row
    || (row.revokedAt.None? && row2.revokedAt.Some? && at - cfg.lag <= row2.revokedAt.value <= at
        && row2 == row.(revokedAt := row2.revokedAt))
  }

  /** Rows were only deleted or revoked, families were revoked whole, and no relative of a row in grace was deleted. */
  ghost predicate Faded(cfg: Config, t: Tokens, t2: Tokens, at: Time) {
    && t2.Keys <= t.Keys
    && (forall i :: i in t2 ==> FadedRow(cfg, t[i], t2[i], at))
    && (forall i, j :: i in t2 && j in t2 && t2[i] != t[i] && t[j].family == t[i].family ==> !t2[j].Live())
    && (forall p, d :: p in t2 && InGrace(cfg, t[p], at) && Relative(cfg, t, t[p], d) ==> d in t2)
  }

  ghost predicate Issues(cfg: Config, w: World, op: Op) {
    IssueOf(cfg, w.db, op).Some?
  }

  lemma RevokingAFamilyFades(cfg: Config, t: Tokens, f: FamilyId, now: Time, at: Time)
    requires at - cfg.lag <= now <= at
    ensures Faded(cfg, t, RevokeFamily(t, f, now), at)
  {
  }

  lemma RevokingAUserFades(cfg: Config, w: World, u: UserId, now: Time, at: Time)
    requires Named(w) && at - cfg.lag <= now <= at
    ensures Faded(cfg, w.db.tokens, RevokeUser(w.db.tokens, u, now), at)
  {
  }

  lemma WipingFades(cfg: Config, w: World, u: UserId, at: Time)
    requires Named(w)
    ensures Faded(cfg, w.db.tokens, DropUserTokens(w.db.tokens, u), at)
  {
  }

  /** Rows cleanup may delete are too old to be a relative of a row still in grace. */
  lemma CleaningFades(cfg: Config, t: Tokens, victims: set<TokenId>, clock: Time, now: Time, at: Time)
    requires Sound(cfg) && RowsOk(cfg, t, clock) && now <= at
    requires forall i :: i in victims ==> i in t && (RevokedLongAgo(t[i], now) || ExpiredLongAgo(t[i], now))
    ensures Faded(cfg, t, t - victims, at)
  {
  }

  lemma ReplayFades(cfg: Config, w: World, op: Op)
    requires cfg.lag >= 0 && op.Present? && !Issues(cfg, w, op)
    ensures Faded(cfg, w.db.tokens, Next(cfg, w, op).db.tokens, op.at)
  {
    var t, v := w.db.tokens, Decide(cfg, w.db, op.p, op.at);
    if v.Kill? {
      RevokingAFamilyFades(cfg, t, t[v.id].family, op.at, op.at);
    }
  }

  lemma RevocationFades(cfg: Config, w: World, op: Op)
    requires op.RevokeToken? && op.at - cfg.lag <= op.sampledAt <= op.at
    ensures Faded(cfg, w.db.tokens, Next(cfg, w, op).db.tokens, op.at)
  {
    var t, r := w.db.tokens, LookupGrant(w.db.tokens, op.hash, op.byId, op.client);
    if r.Some? {
      RevokingAFamilyFades(cfg, t, t[r.value].family, op.sampledAt, op.at);
    }
  }

  lemma AccountStepFades(cfg: Config, w: World, op: Op)
    requires Named(w) && Timely(cfg, w, op) && (op.AskDeletion? || op.WipeUser?)
    ensures Faded(cfg, w.db.tokens, Next(cfg, w, op).db.tokens, op.at)
  {
    if op.AskDeletion? {
      RevokingAUserFades(cfg, w, op.user, op.sampledAt, op.at);
    } else {
      WipingFades(cfg, w, op.user, op.at);
    }
  }

  lemma CleanStepFades(cfg: Config, w: World, op: Op)
    requires Sound(cfg) && RowsOk(cfg, w.db.tokens, w.clock) && Enabled(cfg, w, op) &&
      (op.CleanRevoked? || op.CleanExpired?)
    ensures Faded(cfg, w.db.tokens, Next(cfg, w, op).db.tokens, op.at)
  {
    CleaningFades(cfg, w.db.tokens, op.victims, w.clock, op.sampledAt, op.at);
  }

  lemma QuietStepFades(cfg: Config, w: World, op: Op)
    requires Sound(cfg) && Named(w) && RowsOk(cfg, w.db.tokens, w.clock)
    requires Enabled(cfg, w, op) && !Issues(cfg, w, op)
    ensures Faded(cfg, w.db.tokens, Next(cfg, w, op).db.tokens, op.at)
  {
    if op.Present? {
      ReplayFades(cfg, w, op);
    } else if op.RevokeToken? {
      RevocationFades(cfg, w, op);
    } else if op.RevokeFound? {
      RevokingAFamilyFades(cfg, w.db.tokens, op.family, op.sampledAt, op.at);
    } else if op.AskDeletion? || op.WipeUser? {
      AccountStepFades(cfg, w, op);
    } else if op.CleanRevoked? || op.CleanExpired? {
      CleanStepFades(cfg, w, op);
    } else {
      assert Next(cfg, w, op).db.tokens == w.db.tokens;
    }
  }

  lemma FadingKeepsRows(cfg: Config, t: Tokens, t2: Tokens, clock: Time, at: Time)
    requires RowsOk(cfg, t, clock) && Faded(cfg, t, t2, at) && clock <= at
    ensures RowsOk(cfg, t2, at)
  {
  }

  lemma FadingKeepsKin(cfg: Config, t: Tokens, t2: Tokens, clock: Time, at: Time)
    requires RowsOk(cfg, t, clock) && KinOk(cfg, t) && Faded(cfg, t, t2, at) && clock <= at
    ensures KinOk(cfg, t2)
  {
  }

  lemma FadingKeepsPurpose(cfg: Config, t: Tokens, t2: Tokens, clock: Time, at: Time)
    requires RowsOk(cfg, t, clock) && PurposeOk(cfg, t) && Faded(cfg, t, t2, at) && clock <= at
    ensures PurposeOk(cfg, t2)
  {
  }

  lemma FadingKeepsHeirs(cfg: Config, t: Tokens, t2: Tokens, clock: Time, at: Time)
    requires RowsOk(cfg, t, clock) && HeirsOk(cfg, t, clock) && Faded(cfg, t, t2, at) && clock <= at
    ensures HeirsOk(cfg, t2, at)
  {
    forall p | p in t2 && InGrace(cfg, t2[p], at)
      ensures exists d :: Heir(cfg, t2, t2[p], d)
    {
      var d :| Heir(cfg, t, t[p], d);
      assert Heir(cfg, t2, t2[p], d);
    }
  }

  lemma FadingKeepsSingles(cfg: Config, t: Tokens, t2: Tokens, at: Time)
    requires SinglesOk(cfg, t) && Faded(cfg, t, t2, at)
    ensures SinglesOk(cfg, t2)
  {
  }

  /** A tombstone is there from before, or was added together with the revocation of its whole family. */
  ghost predicate TombstonesFollow(cfg: Config, db: Db, db2: Db, at: Time) {
    forall f :: f in db2.tombstones ==>
      || (f in db.tombstones && db2.tombstones[f] == db.tombstones[f])
      || (at - cfg.lag <= db2.tombstones[f].revokedAt && NoLive(db2.tokens, f))
  }

  lemma QuietStepTombstones(cfg: Config, w: World, op: Op)
    requires cfg.lag >= 0 && Enabled(cfg, w, op) && !Issues(cfg, w, op)
    ensures TombstonesFollow(cfg, w.db, Next(cfg, w, op).db, op.at)
  {
  }

  lemma FadingKeepsTombstones(cfg: Config, db: Db, db2: Db, clock: Time, at: Time)
    requires RowsOk(cfg, db.tokens, clock) && TombstonesOk(cfg, db) && Faded(cfg, db.tokens, db2.tokens, at) &&
      clock <= at
    requires TombstonesFollow(cfg, db, db2, at)
    ensures TombstonesOk(cfg, db2)
  {
  }

  lemma FadingKeepsNames(cfg: Config, w: World, t2: Tokens, at: Time)
    requires Named(w) && Faded(cfg, w.db.tokens, t2, at)
    ensures NamedRows(t2, w.ids, w.hashes, w.origins)
  {
  }

  lemma QuietStepNamesTombstones(cfg: Config, w: World, op: Op)
    requires Named(w) && Enabled(cfg, w, op) && !Issues(cfg, w, op)
    ensures Next(cfg, w, op).db.tombstones.Keys <= w.origins.Keys
  {
  }

  lemma QuietStepKeeps(cfg: Config, w: World, op: Op)
    requires Sound(cfg) && Inv(cfg, w) && Enabled(cfg, w, op) && !Issues(cfg, w, op)
    ensures Inv(cfg, Next(cfg, w, op))
  {
    var t, t2 := w.db.tokens, Next(cfg, w, op).db.tokens;
    QuietStepFades(cfg, w, op);
    QuietStepNamesTombstones(cfg, w, op);
    QuietStepTombstones(cfg, w, op);
    FadingKeepsTombstones(cfg, w.db, Next(cfg, w, op).db, w.clock, op.at);
    FadingKeepsNames(cfg, w, t2, op.at);
    FadingKeepsRows(cfg, t, t2, w.clock, op.at);
    FadingKeepsKin(cfg, t, t2, w.clock, op.at);
    FadingKeepsPurpose(cfg, t, t2, w.clock, op.at);
    FadingKeepsHeirs(cfg, t, t2, w.clock, op.at);
    FadingKeepsSingles(cfg, t, t2, op.at);
  }

  // ---------- steps that issue a token ----------

  /** `child` was inserted under `p`, which was redeemed just now or is still in grace;
      nothing in the family was revoked on purpose or tombstoned. */
  ghost predicate Born(cfg: Config, db: Db, t2: Tokens, p: TokenId, child: TokenId, at: Time) {
    var t := db.tokens;
    && p in t && child !in t && t2.Keys == t.Keys + {child}
    && (forall i :: i in t && i != p ==> t2[i] == t[i])
    && at - cfg.lag <= t2[child].createdAt <= at
    && t2[child] == ChildOf(cfg, t[p], p, t2[child].hash, t2[child].createdAt)
    && (if t[p].Live()
        then t2[p] == t[p].(usedAt := Some(at), revokedAt := Some(at))
        else t2[p] == t[p] && InGrace(cfg, t[p], at) && t[p].grant.client in cfg.graceClients)
    && t[p].family !in db.tombstones
    && !HasRevokedOnPurpose(t, t[p].family)
  }

  lemma RedemptionGivesBirth(cfg: Config, w: World, op: Op)
    requires cfg.lag >= 0 && Named(w) && PurposeOk(cfg, w.db.tokens) && Enabled(cfg, w, op) && op.Present?
    requires Decide(cfg, w.db, op.p, op.at).Redeem?
    ensures Born(cfg, w.db, Next(cfg, w, op).db.tokens, Decide(cfg, w.db, op.p, op.at).id, op.id, op.at)
  {
  }

  lemma GraceGivesBirth(cfg: Config, w: World, op: Op)
    requires Sound(cfg) && Named(w) && Enabled(cfg, w, op) && op.Present?
    requires Decide(cfg, w.db, op.p, op.at).GraceChild?
    ensures Born(cfg, w.db, Next(cfg, w, op).db.tokens, Decide(cfg, w.db, op.p, op.at).id, op.id, op.at)
  {
  }

  lemma RotationGivesBirth(cfg: Config, w: World, op: Op)
    requires Sound(cfg) && Named(w) && PurposeOk(cfg, w.db.tokens) && Enabled(cfg, w, op) && op.Present? &&
      Issues(cfg, w, op)
    ensures Born(cfg, w.db, Next(cfg, w, op).db.tokens, Decide(cfg, w.db, op.p, op.at).id, op.id, op.at)
  {
    if Decide(cfg, w.db, op.p, op.at).Redeem? {
      RedemptionGivesBirth(cfg, w, op);
    } else {
      GraceGivesBirth(cfg, w, op);
    }
  }

  lemma BirthKeepsNames(cfg: Config, w: World, t2: Tokens, p: TokenId, child: TokenId, at: Time)
    requires Named(w) && Born(cfg, w.db, t2, p, child, at) && t2[child].hash !in w.hashes && child !in w.ids
    ensures NamedRows(t2, w.ids + {child}, w.hashes + {t2[child].hash}, w.origins)
  {
  }

  lemma BirthKeepsRows(cfg: Config, db: Db, t2: Tokens, p: TokenId, child: TokenId, clock: Time, at: Time)
    requires RowsOk(cfg, db.tokens, clock) && Born(cfg, db, t2, p, child, at) && clock <= at
    ensures RowsOk(cfg, t2, at)
  {
  }

  lemma BirthKeepsKin(cfg: Config, w: World, t2: Tokens, p: TokenId, child: TokenId, at: Time)
    requires Named(w) && RowsOk(cfg, w.db.tokens, w.clock) && KinOk(cfg, w.db.tokens)
    requires Born(cfg, w.db, t2, p, child, at) && w.clock <= at && child !in w.ids
    ensures KinOk(cfg, t2)
  {
  }

  lemma BirthKeepsPurpose(cfg: Config, db: Db, t2: Tokens, p: TokenId, child: TokenId, at: Time)
    requires PurposeOk(cfg, db.tokens) && Born(cfg, db, t2, p, child, at)
    ensures PurposeOk(cfg, t2)
  {
  }

  lemma BirthKeepsTombstones(cfg: Config, db: Db, t2: Tokens, p: TokenId, child: TokenId, at: Time)
    requires TombstonesOk(cfg, db) && Born(cfg, db, t2, p, child, at)
    ensures TombstonesOk(cfg, db.(tokens := t2))
  {
  }

  /** The new child is an heir of every row of its family. */
  lemma BirthKeepsHeirs(cfg: Config, db: Db, t2: Tokens, p: TokenId, child: TokenId, clock: Time, at: Time)
    requires RowsOk(cfg, db.tokens, clock) && HeirsOk(cfg, db.tokens, clock) && Born(cfg, db, t2, p, child, at) &&
      clock <= at
    ensures HeirsOk(cfg, t2, at)
  {
    var t := db.tokens;
    forall q | q in t2 && InGrace(cfg, t2[q], at)
      ensures exists d :: Heir(cfg, t2, t2[q], d)
    {
      if t2[q].family == t[p].family {
        assert Heir(cfg, t2, t2[q], child);
      } else {
        var d :| Heir(cfg, t, t[q], d);
        assert Heir(cfg, t2, t2[q], d);
      }
    }
  }

  lemma BirthKeepsSingles(cfg: Config, w: World, t2: Tokens, p: TokenId, child: TokenId, at: Time)
    requires Named(w) && SinglesOk(cfg, w.db.tokens) && Born(cfg, w.db, t2, p, child, at)
    ensures SinglesOk(cfg, t2)
  {
  }

  lemma RotationKeeps(cfg: Config, w: World, op: Op)
    requires Sound(cfg) && Inv(cfg, w) && Enabled(cfg, w, op) && op.Present? && Issues(cfg, w, op)
    ensures Inv(cfg, Next(cfg, w, op))
  {
    var p, w2 := Decide(cfg, w.db, op.p, op.at).id, Next(cfg, w, op);
    var t2 := w2.db.tokens;
    RotationGivesBirth(cfg, w, op);
    BirthKeepsNames(cfg, w, t2, p, op.id, op.at);
    BirthKeepsRows(cfg, w.db, t2, p, op.id, w.clock, op.at);
    BirthKeepsKin(cfg, w, t2, p, op.id, op.at);
    BirthKeepsPurpose(cfg, w.db, t2, p, op.id, op.at);
    BirthKeepsTombstones(cfg, w.db, t2, p, op.id, op.at);
    BirthKeepsHeirs(cfg, w.db, t2, p, op.id, w.clock, op.at);
    BirthKeepsSingles(cfg, w, t2, p, op.id, op.at);
    assert w2.db == w.db.(tokens := t2);
  }

  /** The first token of a family nobody has seen before. */
  lemma OpeningKeepsHeirs(cfg: Config, w: World, op: Op)
    requires Sound(cfg) && Named(w) && RowsOk(cfg, w.db.tokens, w.clock) && HeirsOk(cfg, w.db.tokens, w.clock) &&
      Enabled(cfg, w, op) && op.Open?
    ensures HeirsOk(cfg, Next(cfg, w, op).db.tokens, op.at)
  {
    var t, t2 := w.db.tokens, Next(cfg, w, op).db.tokens;
    forall q | q in t2 && InGrace(cfg, t2[q], op.at)
      ensures exists d :: Heir(cfg, t2, t2[q], d)
    {
      var d :| Heir(cfg, t, t[q], d);
      assert Heir(cfg, t2, t2[q], d);
    }
  }

  lemma OpeningKeepsNames(cfg: Config, w: World, op: Op)
    requires Named(w) && Enabled(cfg, w, op) && op.Open?
    ensures Named(Next(cfg, w, op))
  {
  }

  lemma OpeningKeepsEnds(cfg: Config, w: World, op: Op)
    requires Named(w) && PurposeOk(cfg, w.db.tokens) && TombstonesOk(cfg, w.db) && Enabled(cfg, w, op) && op.Open?
    ensures PurposeOk(cfg, Next(cfg, w, op).db.tokens) && TombstonesOk(cfg, Next(cfg, w, op).db)
  {
  }

  lemma OpeningKeepsLines(cfg: Config, w: World, op: Op)
    requires Named(w) && KinOk(cfg, w.db.tokens) && SinglesOk(cfg, w.db.tokens) && Enabled(cfg, w, op) && op.Open?
    ensures KinOk(cfg, Next(cfg, w, op).db.tokens) && SinglesOk(cfg, Next(cfg, w, op).db.tokens)
  {
  }

  lemma OpeningKeeps(cfg: Config, w: World, op: Op)
    requires Sound(cfg) && Inv(cfg, w) && Enabled(cfg, w, op) && op.Open?
    ensures Inv(cfg, Next(cfg, w, op))
  {
    OpeningKeepsNames(cfg, w, op);
    OpeningKeepsEnds(cfg, w, op);
    OpeningKeepsLines(cfg, w, op);
    OpeningKeepsHeirs(cfg, w, op);
  }

  // ---------- every run ----------

  lemma StepKeeps(cfg: Config, w: World, op: Op)
    requires Sound(cfg) && Inv(cfg, w) && Enabled(cfg, w, op)
    ensures Inv(cfg, Next(cfg, w, op))
  {
    if !Issues(cfg, w, op) {
      QuietStepKeeps(cfg, w, op);
    } else if op.Open? {
      OpeningKeeps(cfg, w, op);
    } else {
      RotationKeeps(cfg, w, op);
    }
  }

  lemma {:induction false} RunKeeps(cfg: Config, w: World, ops: seq<Op>)
    requires Sound(cfg) && Inv(cfg, w) && Runnable(cfg, w, ops)
    ensures Inv(cfg, After(cfg, w, ops))
    decreases |ops|
  {
    if ops == [] {
    } else {
      StepKeeps(cfg, w, ops[0]);
      RunKeeps(cfg, Next(cfg, w, ops[0]), ops[1..]);
    }
  }

  lemma ReachableIsSafe(cfg: Config, w: World)
    requires Sound(cfg) && Reachable(cfg, w)
    ensures Inv(cfg, w)
  {
    var t, ops :| Runnable(cfg, Start(t), ops) && w == After(cfg, Start(t), ops);
    RunKeeps(cfg, Start(t), ops);
  }
}
