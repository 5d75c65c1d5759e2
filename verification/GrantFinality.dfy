/** What stays ended: tombstoned families, deleted accounts, refused presentations, and the
    columns of a token row. */
module GrantFinality {
  import opened Prelude
  import opened GrantTables
  import opened GrantSteps
  import opened GrantMachine
  import opened GrantInvariants

  /** No entry from position `n` on issues into `f`. */
  ghost predicate NothingIssuedSince(log: seq<Issue>, n: nat, f: FamilyId) {
    forall k :: n <= k < |log| ==> log[k].family != f
  }

  /** The grace never lets a replay through unless the family still has a live token: the heir of the
      replayed row is unredeemed, and were it revoked on purpose the grace would be closed. */
  lemma GraceNeedsALiveRow(cfg: Config, w: World, id: TokenId, now: Time)
    requires Inv(cfg, w) && id in w.db.tokens && w.clock <= now && GraceDecision(cfg, w.db, id, now) == GraceIssue
    ensures !NoLive(w.db.tokens, w.db.tokens[id].family)
  {
    var t := w.db.tokens;
    var d :| Heir(cfg, t, t[id], d);
    assert t[d].Live();
  }

  lemma NoIssueWithoutLiveRow(cfg: Config, w: World, op: Op, f: FamilyId)
    requires Sound(cfg) && Inv(cfg, w) && Enabled(cfg, w, op) && f in w.origins && NoLive(w.db.tokens, f)
    requires Issues(cfg, w, op)
    ensures IssueOf(cfg, w.db, op).value.family != f
  {
    if op.Present? {
      var v := Decide(cfg, w.db, op.p, op.at);
      if v.GraceChild? {
        GraceNeedsALiveRow(cfg, w, v.id, op.at);
      }
    }
  }

  lemma NoLiveIsKept(cfg: Config, w: World, op: Op, f: FamilyId)
    requires Sound(cfg) && Inv(cfg, w) && Enabled(cfg, w, op) && f in w.origins && NoLive(w.db.tokens, f)
    ensures NoLive(Next(cfg, w, op).db.tokens, f)
  {
    if !Issues(cfg, w, op) {
      QuietStepFades(cfg, w, op);
    } else {
      NoIssueWithoutLiveRow(cfg, w, op, f);
      if op.Present? {
        RotationGivesBirth(cfg, w, op);
      }
    }
  }

  /** The heart of the matter: a family that has lost its last live token never gets another one. */
  lemma {:induction false} EndedForever(cfg: Config, w: World, ops: seq<Op>, f: FamilyId)
    requires Sound(cfg) && Inv(cfg, w) && Runnable(cfg, w, ops) && f in w.origins && NoLive(w.db.tokens, f)
    ensures |After(cfg, w, ops).log| >= |w.log|
    ensures NoLive(After(cfg, w, ops).db.tokens, f)
    ensures NothingIssuedSince(After(cfg, w, ops).log, |w.log|, f)
    decreases |ops|
  {
    if ops == [] {
    } else {
      var op, w2 := ops[0], Next(cfg, w, ops[0]);
      StepKeeps(cfg, w, op);
      NoLiveIsKept(cfg, w, op, f);
      if Issues(cfg, w, op) {
        NoIssueWithoutLiveRow(cfg, w, op, f);
      }
      EndedForever(cfg, w2, ops[1..], f);
      LogOnlyGrows(cfg, w2, ops[1..]);
    }
  }

  lemma {:induction false} LogOnlyGrows(cfg: Config, w: World, ops: seq<Op>)
    ensures w.log <= After(cfg, w, ops).log
    decreases |ops|
  {
    if ops == [] {
    } else {
      LogOnlyGrows(cfg, Next(cfg, w, ops[0]), ops[1..]);
    }
  }

  /** Once tombstoned, no later step of any run issues into the family, even after cleanup
      has dropped the tombstone. */
  lemma TombstonedForever(cfg: Config, w: World, ops: seq<Op>, f: FamilyId)
    requires Sound(cfg) && Reachable(cfg, w) && Runnable(cfg, w, ops) && f in w.db.tombstones
    ensures NoLive(After(cfg, w, ops).db.tokens, f)
    ensures NothingIssuedSince(After(cfg, w, ops).log, |w.log|, f)
  {
    ReachableIsSafe(cfg, w);
    EndedForever(cfg, w, ops, f);
  }

  /** A tombstone outlives every token it guards: when cleanup drops it, all rows of the family have expired. */
  lemma TombstoneOutlivesItsFamily(cfg: Config, w: World, op: Op, f: FamilyId, i: TokenId)
    requires Sound(cfg) && Reachable(cfg, w) && Enabled(cfg, w, op) && op.CleanTombstones? && f in op.dropped
    requires i in w.db.tokens && w.db.tokens[i].family == f
    ensures w.db.tokens[i].expiresAt <= op.sampledAt
  {
    ReachableIsSafe(cfg, w);
    assert Ended(cfg, w.db.tokens, f, w.db.tombstones[f].revokedAt);
  }

  /** After an accepted deletion request nothing is ever issued into a family the user had,
      whatever follows: recovery, replays inside the grace, cleanup. */
  lemma DeletionRequestIsFinal(cfg: Config, w: World, op: Op, ops: seq<Op>, f: FamilyId)
    requires Sound(cfg) && Reachable(cfg, w) && Enabled(cfg, w, op) && op.AskDeletion?
    requires RequestDeletionAnswer(w.db, op.user) == Accepted
    requires f in w.origins && w.origins[f].user == op.user
    requires Runnable(cfg, Next(cfg, w, op), ops)
    ensures NoLive(After(cfg, Next(cfg, w, op), ops).db.tokens, f)
    ensures NothingIssuedSince(After(cfg, Next(cfg, w, op), ops).log, |w.log|, f)
  {
    ReachableIsSafe(cfg, w);
    StepKeeps(cfg, w, op);
    assert NoLive(Next(cfg, w, op).db.tokens, f);
    EndedForever(cfg, Next(cfg, w, op), ops, f);
  }

  /** A refused presentation changes nothing, or leaves the family of the presented token tombstoned without a
      live row and touches no other family. */
  lemma RefusalIsHarmlessOrFinal(cfg: Config, w: World, op: Op)
    requires Enabled(cfg, w, op) && op.Present? && !Issues(cfg, w, op)
    ensures var db, db2, found := w.db, Next(cfg, w, op).db, FindByHash(w.db.tokens, op.p.hash);
      || db2 == db
      || (&& found.Some?
          && var f := db.tokens[found.value].family;
             && f in db2.tombstones && NoLive(db2.tokens, f)
             && db2.tombstones.Keys == db.tombstones.Keys + {f}
             && db2.tokens.Keys == db.tokens.Keys
             && (forall g :: g in db.tombstones ==> db2.tombstones[g] == db.tombstones[g])
             && (forall i :: i in db.tokens && db.tokens[i].family != f ==> db2.tokens[i] == db.tokens[i])
             && db2 == db.(tokens := db2.tokens, tombstones := db2.tombstones))
  {
  }

  /** In every reachable state a tombstoned family has no live token, and a family whose client
      gets no grace has at most one. */
  lemma LiveTokensAreFew(cfg: Config, w: World)
    requires Sound(cfg) && Reachable(cfg, w)
    ensures forall f :: f in w.db.tombstones ==> NoLive(w.db.tokens, f)
    ensures forall i, j :: (i in w.db.tokens && j in w.db.tokens && w.db.tokens[i].family == w.db.tokens[j].family
              && w.db.tokens[i].Live() && w.db.tokens[j].Live()
              && w.db.tokens[i].grant.client !in cfg.graceClients) ==> i == j
  {
    ReachableIsSafe(cfg, w);
    forall f | f in w.db.tombstones ensures NoLive(w.db.tokens, f) {
      assert Ended(cfg, w.db.tokens, f, w.db.tombstones[f].revokedAt);
    }
  }

  // ---------- columns ----------

  /** `row2` is a later version of `row`: only an empty revoked_at or used_at was filled in. */
  ghost predicate LaterVersion(row: Token, row2: Token) {
    && row2 == row.(revokedAt := row2.revokedAt, usedAt := row2.usedAt)
    && (row.revokedAt.Some? ==> row2 == row)
    && (row.usedAt.Some? ==> row2.usedAt == row.usedAt)
  }

  lemma StepWritesOnce(cfg: Config, w: World, op: Op, i: TokenId)
    requires Sound(cfg) && Inv(cfg, w) && Enabled(cfg, w, op) && i in w.ids
    ensures i in Next(cfg, w, op).db.tokens ==>
      i in w.db.tokens && LaterVersion(w.db.tokens[i], Next(cfg, w, op).db.tokens[i])
  {
    if !Issues(cfg, w, op) {
      QuietStepFades(cfg, w, op);
    } else if op.Present? {
      RotationGivesBirth(cfg, w, op);
    }
  }

  /** Over any run a row keeps its family, grant, parent and expiry; redemption and revocation times
      are written once; and a deleted row never comes back. */
  lemma {:induction false} RowsAreWriteOnce(cfg: Config, w: World, ops: seq<Op>, i: TokenId)
    requires Sound(cfg) && Inv(cfg, w) && Runnable(cfg, w, ops) && i in w.ids
    ensures i in After(cfg, w, ops).db.tokens ==>
      i in w.db.tokens && LaterVersion(w.db.tokens[i], After(cfg, w, ops).db.tokens[i])
    decreases |ops|
  {
    if ops == [] {
    } else {
      StepKeeps(cfg, w, ops[0]);
      StepWritesOnce(cfg, w, ops[0], i);
      RowsAreWriteOnce(cfg, Next(cfg, w, ops[0]), ops[1..], i);
    }
  }
}
