/** Cleanup of token rows and tombstones is invisible to whoever presents a token. */
module GrantCleanup {
  import opened Prelude
  import opened GrantTables
  import opened GrantSteps
  import opened GrantMachine
  import opened GrantInvariants
  import opened GrantChildren

  predicate Cleanable(cfg: Config, db: Db, victims: set<TokenId>, dropped: set<FamilyId>, now: Time) {
    && (forall i :: i in victims ==>
         i in db.tokens && (RevokedLongAgo(db.tokens[i], now) || ExpiredLongAgo(db.tokens[i], now)))
    && (forall f :: f in dropped ==> f in db.tombstones && StaleTombstone(cfg, db.tombstones[f], now))
  }

  function Cleaned(db: Db, victims: set<TokenId>, dropped: set<FamilyId>): Db {
    db.(tokens := db.tokens - victims, tombstones := db.tombstones - dropped)
  }

  predicate Issuing(v: Verdict) {
    v.Redeem? || v.GraceChild?
  }

  /** Both issue, from the same parent, or neither does. */
  predicate Alike(v: Verdict, v2: Verdict) {
    Issuing(v) == Issuing(v2) && (Issuing(v) ==> v == v2)
  }

  /** A row cleanup may delete would be refused anyway. */
  lemma VictimsAreRefused(cfg: Config, w: World, victims: set<TokenId>, dropped: set<FamilyId>, now: Time,
                          id: TokenId, p: Presentation, at: Time)
    requires Sound(cfg) && Inv(cfg, w) && Cleanable(cfg, w.db, victims, dropped, now) && now <= at
    requires id in victims
    ensures !Issuing(DecideRow(cfg, w.db, id, p, at))
  {
  }

  /** The evidence of a revocation on purpose survives as long as it matters: the heir of a row in grace. */
  lemma EvidenceSurvives(cfg: Config, w: World, victims: set<TokenId>, now: Time, id: TokenId, at: Time)
    requires Sound(cfg) && Inv(cfg, w) && Cleanable(cfg, w.db, victims, {}, now) && now <= at && w.clock <= at
    requires id in w.db.tokens && InGrace(cfg, w.db.tokens[id], at) && id !in victims
    ensures HasRevokedOnPurpose(w.db.tokens, w.db.tokens[id].family)
       <==> HasRevokedOnPurpose(w.db.tokens - victims, w.db.tokens[id].family)
  {
    var t, f := w.db.tokens, w.db.tokens[id].family;
    var t2 := t - victims;
    CleaningFades(cfg, t, victims, w.clock, now, at);
    if HasRevokedOnPurpose(t, f) {
      var r :| r in t && t[r].family == f && t[r].RevokedOnPurpose();
      assert Ended(cfg, t, f, t[r].revokedAt.value);
      var d :| Heir(cfg, t, t[id], d);
      assert d in t2 && t2[d].RevokedOnPurpose();
    }
    if HasRevokedOnPurpose(t2, f) {
      var r :| r in t2 && t2[r].family == f && t2[r].RevokedOnPurpose();
      assert t[r].RevokedOnPurpose();
    }
  }

  /** In grace a tombstone is still young, and none of the children has gone. */
  lemma TombstoneSurvives(cfg: Config, w: World, dropped: set<FamilyId>, now: Time, id: TokenId, at: Time)
    requires Sound(cfg) && Inv(cfg, w) && Cleanable(cfg, w.db, {}, dropped, now) && now <= at
    requires id in w.db.tokens && InGrace(cfg, w.db.tokens[id], at)
    ensures w.db.tokens[id].family !in dropped
  {
    var f := w.db.tokens[id].family;
    if f in w.db.tombstones {
      assert Ended(cfg, w.db.tokens, f, w.db.tombstones[f].revokedAt);
    }
  }

  lemma GraceSurvives(cfg: Config, w: World, victims: set<TokenId>, dropped: set<FamilyId>, now: Time, id: TokenId,
                      at: Time)
    requires Sound(cfg) && Inv(cfg, w) && Cleanable(cfg, w.db, victims, dropped, now) && now <= at && w.clock <= at
    requires id in w.db.tokens && id !in victims
    ensures GraceDecision(cfg, w.db, id, at) == GraceDecision(cfg, Cleaned(w.db, victims, dropped), id, at)
  {
    var t, rt := w.db.tokens, w.db.tokens[id];
    if InGrace(cfg, rt, at) {
      TombstoneSurvives(cfg, w, dropped, now, id, at);
      EvidenceSurvives(cfg, w, victims, now, id, at);
      assert Children(t - victims, id) == Children(t, id) by {
        CleaningFades(cfg, t, victims, w.clock, now, at);
        FadingSparesChildren(cfg, t, t - victims, id, at);
      }
    }
  }

  lemma TombstonedIsNotLive(cfg: Config, w: World, id: TokenId)
    requires Inv(cfg, w) && id in w.db.tokens && w.db.tokens[id].family in w.db.tombstones
    ensures !w.db.tokens[id].Live()
  {
    var f := w.db.tokens[id].family;
    assert Ended(cfg, w.db.tokens, f, w.db.tombstones[f].revokedAt);
  }

  lemma SurvivorsAreDecidedAlike(cfg: Config, w: World, victims: set<TokenId>, dropped: set<FamilyId>, now: Time,
                                 id: TokenId, p: Presentation, at: Time)
    requires Sound(cfg) && Inv(cfg, w) && Cleanable(cfg, w.db, victims, dropped, now) && now <= at && w.clock <= at
    requires id in w.db.tokens && id !in victims
    ensures DecideRow(cfg, w.db, id, p, at) == DecideRow(cfg, Cleaned(w.db, victims, dropped), id, p, at)
  {
    GraceSurvives(cfg, w, victims, dropped, now, id, at);
    if w.db.tokens[id].family in w.db.tombstones {
      TombstonedIsNotLive(cfg, w, id);
    }
  }

  /** For every reachable store and every presentation at or after the cleanup: whichever old rows and
      stale tombstones are deleted, the presentation issues exactly when it would have, from the same parent. */
  lemma CleanupIsInvisible(cfg: Config, w: World, victims: set<TokenId>, dropped: set<FamilyId>, now: Time,
                           p: Presentation, at: Time)
    requires Sound(cfg) && Reachable(cfg, w) && Cleanable(cfg, w.db, victims, dropped, now) && now <= at &&
      w.clock <= at
    ensures Alike(Decide(cfg, w.db, p, at), Decide(cfg, Cleaned(w.db, victims, dropped), p, at))
  {
    ReachableIsSafe(cfg, w);
    var found, found2 := FindByHash(w.db.tokens, p.hash), FindByHash(w.db.tokens - victims, p.hash);
    if found.Some? {
      if found.value in victims {
        assert found2.None?;
        VictimsAreRefused(cfg, w, victims, dropped, now, found.value, p, at);
      } else {
        assert (w.db.tokens - victims)[found.value].hash == p.hash;
        SurvivorsAreDecidedAlike(cfg, w, victims, dropped, now, found.value, p, at);
      }
    }
  }

  /** Reuse detection is not as invisible: after cleaning, a replay ends its family exactly when it would have ended it
      before and the presented row itself was spared. */
  lemma ReplayIsDetectedExactlyWhenItsRowIsKept(cfg: Config, w: World, victims: set<TokenId>, dropped: set<FamilyId>,
                                               now: Time, p: Presentation, at: Time)
    requires Sound(cfg) && Reachable(cfg, w) && Cleanable(cfg, w.db, victims, dropped, now) && now <= at &&
      w.clock <= at
    ensures var v, v2 := Decide(cfg, w.db, p, at), Decide(cfg, Cleaned(w.db, victims, dropped), p, at);
      && (v2.Kill? <==> v.Kill? && v.id !in victims)
      && (v2.Kill? ==> v2 == v)
  {
    ReachableIsSafe(cfg, w);
    var found, found2 := FindByHash(w.db.tokens, p.hash), FindByHash(w.db.tokens - victims, p.hash);
    if found.Some? && found.value !in victims {
      assert (w.db.tokens - victims)[found.value].hash == p.hash;
      SurvivorsAreDecidedAlike(cfg, w, victims, dropped, now, found.value, p, at);
    }
  }
}
