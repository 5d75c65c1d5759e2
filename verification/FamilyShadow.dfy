/** Every interleaving is a run of the atomic machine.

Beside the interleaved system a shadow is kept: a run of atomic transactions, each placed at the moment its
interleaved counterpart read the clock that decides it, or committed. A rotation is thus in the shadow from its clock
reading on, but in the database only after its commit; between the two its family is ahead in the shadow by
exactly what the rotation is going to write.
*/
module FamilyShadow {
  import opened Prelude
  import opened GrantTables
  import opened GrantSteps
  import opened GrantMachine
  import opened GrantInvariants
  import opened FamilyLock

  /** Sound even if a cleanup falls between the clock reading of a rotation and its queries. */
  ghost predicate Prompt(cfg: Config) {
    && Sound(cfg)
    && 2 * cfg.lag + cfg.grace <= 7 * DAY
    && 2 * cfg.lag + cfg.grace <= cfg.ttl + DAY
  }

  /** `verdicts` and `places` are for rotations being judged; `positions` says where in the run each finished
      transaction is. */
  datatype Shadow = Shadow(w: World, trace: seq<Op>, verdicts: map<Pid, Verdict>, places: map<Pid, nat>,
      positions: seq<nat>)

  // ---------- agreement, family by family ----------

  ghost predicate SameFamily(d: Db, e: Db, f: FamilyId) {
    && (forall i :: i in d.tokens && d.tokens[i].family == f ==> i in e.tokens && e.tokens[i] == d.tokens[i])
    && (forall i :: i in e.tokens && e.tokens[i].family == f ==> i in d.tokens && d.tokens[i] == e.tokens[i])
    && (f in d.tombstones <==> f in e.tombstones)
    && (f in d.tombstones ==> e.tombstones[f] == d.tombstones[f])
  }

  /** A rotation in this family is being judged. */
  predicate Judged(s: Sys, f: FamilyId) {
    f in s.locks && s.locks[f] in s.jobs && s.jobs[s.locks[f]].phase.Judging?
  }

  ghost predicate JudgedOk(cfg: Config, db: Db, r: Running, v: Verdict, d: Db) {
    r.job.Rotate? && r.phase.Judging? && SameFamily(d, Written(cfg, db, r, v), r.phase.family)
  }

  ghost predicate Agree(cfg: Config, s: Sys, h: Shadow) {
    && h.w.db.users == s.db.users && h.w.db.identities == s.db.identities && h.w.db.sessions == s.db.sessions
    && (forall f :: !Judged(s, f) ==> SameFamily(h.w.db, s.db, f))
    && (forall q :: q in s.jobs && s.jobs[q].phase.Judging? ==>
          q in h.verdicts && JudgedOk(cfg, s.db, s.jobs[q], h.verdicts[q], h.w.db))
  }

  lemma SameFamilyTrans(a: Db, b: Db, c: Db, f: FamilyId)
    requires SameFamily(a, b, f) && SameFamily(b, c, f)
    ensures SameFamily(a, c, f) && SameFamily(b, a, f)
  {
  }

  /** The row this rotation holds, as it was read, is still there. */
  ghost predicate RowThere(db: Db, ph: Phase) {
    ph.HoldsRow() && ph.id in db.tokens && db.tokens[ph.id] == ph.row && ph.row.family == ph.family
  }

  /** Writing depends only on the family, and changes nothing in any other. */
  lemma WritingIsLocal(cfg: Config, db: Db, db2: Db, r: Running, v: Verdict)
    requires r.job.Rotate? && r.phase.Judging? && RowThere(db, r.phase) && SameFamily(db, db2, r.phase.family)
    requires v.Redeem? ==> v.id == r.phase.id
    requires r.job.newId !in db.tokens && r.job.newId !in db2.tokens
    ensures SameFamily(Written(cfg, db, r, v), Written(cfg, db2, r, v), r.phase.family)
  {
  }

  lemma WritingStaysInFamily(cfg: Config, db: Db, r: Running, v: Verdict, g: FamilyId)
    requires r.job.Rotate? && r.phase.Judging? && RowThere(db, r.phase) && r.job.newId !in db.tokens &&
      g != r.phase.family
    ensures SameFamily(Written(cfg, db, r, v), db, g)
  {
  }

  lemma KillingIsLocal(db: Db, db2: Db, f: FamilyId, tomb: Tombstone)
    requires SameFamily(db, db2, f)
    ensures SameFamily(KillFamily(db, f, tomb), KillFamily(db2, f, tomb), f)
  {
  }

  lemma KillingStaysInFamily(db: Db, f: FamilyId, tomb: Tombstone, g: FamilyId)
    requires g != f
    ensures SameFamily(KillFamily(db, f, tomb), db, g)
  {
  }

  /** Once nothing is being judged the database is the shadow's. */
  lemma NobodyJudgingMeansEqual(cfg: Config, s: Sys, h: Shadow)
    requires Agree(cfg, s, h) && forall q :: q in s.jobs ==> !s.jobs[q].phase.Judging?
    ensures s.db == h.w.db
  {
    var t, t2 := s.db.tokens, h.w.db.tokens;
    forall i | i in t ensures i in t2 && t2[i] == t[i] {
      assert !Judged(s, t[i].family);
    }
    forall i | i in t2 ensures i in t {
      assert !Judged(s, t2[i].family);
    }
    assert t == t2;
    forall f ensures SameFamily(h.w.db, s.db, f) {
      assert !Judged(s, f);
    }
    var ts, ts2 := s.db.tombstones, h.w.db.tombstones;
    forall f ensures (f in ts <==> f in ts2) && (f in ts ==> ts2[f] == ts[f]) {
      assert SameFamily(h.w.db, s.db, f);
    }
    assert ts == ts2;
  }

  // ---------- rows here and there ----------

  /** Equal but for when it was redeemed or revoked. */
  predicate SameRow(row: Token, row2: Token) {
    row2 == row.(revokedAt := row2.revokedAt, usedAt := row2.usedAt)
  }

  lemma WritingKeepsRows(cfg: Config, db: Db, r: Running, v: Verdict, i: TokenId)
    requires r.job.Rotate? && r.phase.Judging? && i in db.tokens && i != r.job.newId
    ensures i in Written(cfg, db, r, v).tokens && SameRow(db.tokens[i], Written(cfg, db, r, v).tokens[i])
    ensures db.tokens[i].revokedAt.Some? && i != r.phase.id ==> Written(cfg, db, r, v).tokens[i] == db.tokens[i]
  {
  }

  /** Every committed row is in the shadow, the same but for when it was redeemed or revoked; and a revoked one that is
      not being judged is the same altogether. */
  lemma RowInShadow(cfg: Config, s: Sys, h: Shadow, i: TokenId)
    requires Agree(cfg, s, h) && LocksOk(s.jobs, s.locks) && i in s.db.tokens
    requires forall q :: q in s.jobs && s.jobs[q].job.Rotate? ==> s.jobs[q].job.newId != i
    ensures i in h.w.db.tokens && SameRow(s.db.tokens[i], h.w.db.tokens[i])
    ensures s.db.tokens[i].revokedAt.Some? && !RowHeld(s, i) ==> h.w.db.tokens[i] == s.db.tokens[i]
  {
    var f := s.db.tokens[i].family;
    if Judged(s, f) {
      var q := s.locks[f];
      WritingKeepsRows(cfg, s.db, s.jobs[q], h.verdicts[q], i);
      assert SameFamily(h.w.db, Written(cfg, s.db, s.jobs[q], h.verdicts[q]), f);
    } else {
      assert SameFamily(h.w.db, s.db, f);
    }
  }

  /** Every row of the shadow is committed, or is the child of a rotation being judged. */
  lemma RowFromShadow(cfg: Config, s: Sys, h: Shadow, i: TokenId) returns (q: Pid)
    requires Agree(cfg, s, h) && LocksOk(s.jobs, s.locks) && i in h.w.db.tokens
    ensures i in s.db.tokens
         || (q in s.jobs && s.jobs[q].job.Rotate? && s.jobs[q].job.newId == i &&
             s.jobs[q].job.newHash == h.w.db.tokens[i].hash)
  {
    var f := h.w.db.tokens[i].family;
    q := 0;
    if Judged(s, f) {
      q := s.locks[f];
      assert SameFamily(h.w.db, Written(cfg, s.db, s.jobs[q], h.verdicts[q]), f);
    } else {
      assert SameFamily(h.w.db, s.db, f);
    }
  }

  // ---------- locks ----------

  ghost predicate LocksOk(jobs: map<Pid, Running>, locks: map<FamilyId, Pid>) {
    && (forall q :: q in jobs && jobs[q].phase.Holds() ==>
          jobs[q].phase.family in locks && locks[jobs[q].phase.family] == q)
    && (forall f :: f in locks ==> locks[f] in jobs && jobs[locks[f]].phase.Holds() && jobs[locks[f]].phase.family == f)
  }

  // ---------- what a rotation being judged can rely on ----------

  ghost predicate Evidence(cfg: Config, t: Tokens, ph: Phase, d: TokenId)
    requires ph.Judging? && ph.row.usedAt.Some?
  {
    d in t && t[d].family == ph.family && t[d].RevokedOnPurpose() && NotBefore(cfg, t[d], ph.row.usedAt.value)
  }

  /** None of the children can be cleaned up yet. */
  ghost predicate ChildrenYoung(cfg: Config, t: Tokens, ph: Phase)
    requires ph.Judging? && ph.row.usedAt.Some?
  {
    forall c :: c in t && t[c].parent == Some(ph.id) ==> NotBefore(cfg, t[c], ph.row.usedAt.value)
  }

  /** Whatever is still to be read, and whatever cleanup does meanwhile, the verdict is going to be `v`. */
  ghost predicate Steady(cfg: Config, db: Db, ph: Phase, v: Verdict)
    requires ph.Judging?
  {
    && RowThere(db, ph)
    && ph.row.expiresAt == ph.row.createdAt + cfg.ttl && ph.now < ph.row.expiresAt
    && (ph.family in db.tombstones ==> ph.row.createdAt <= db.tombstones[ph.family].revokedAt + cfg.lag)
    && if ph.row.Live() then
         v == Redeem(ph.id) && ph.family !in db.tombstones && ph.tombstoned != Some(true)
       else if !InWindow(cfg, ph.row, ph.now) then
         v == Kill(ph.id)
       else if v == Kill(ph.id) then
         ph.onPurpose != Some(false) && exists d :: Evidence(cfg, db.tokens, ph, d)
       else
         && ph.family !in db.tombstones && ph.tombstoned != Some(true)
         && !HasRevokedOnPurpose(db.tokens, ph.family) && ph.onPurpose != Some(true)
         && v == (if |Children(db.tokens, ph.id)| < MAX_CHILDREN then GraceChild(ph.id) else Refuse(GraceExhausted))
         && (ph.children.Some? ==> ph.children.value == |Children(db.tokens, ph.id)|)
         && ChildrenYoung(cfg, db.tokens, ph)
  }

  /** When enough has been read, what comes out is the verdict. */
  lemma SettledIsTheVerdict(cfg: Config, db: Db, ph: Phase, v: Verdict)
    requires ph.Judging? && Steady(cfg, db, ph, v) && Settled(cfg, ph).Some?
    ensures Settled(cfg, ph).value == v
  {
  }

  lemma QueriesKeepSteady(cfg: Config, db: Db, ph: Phase, v: Verdict)
    requires ph.Judging? && Steady(cfg, db, ph, v)
    ensures Steady(cfg, db, ph.(tombstoned := Some(ph.family in db.tombstones)), v)
    ensures Steady(cfg, db, ph.(onPurpose := Some(HasRevokedOnPurpose(db.tokens, ph.family))), v)
    ensures Steady(cfg, db, ph.(children := Some(|Children(db.tokens, ph.id)|)), v)
  {
    var p1 := ph.(tombstoned := Some(ph.family in db.tombstones));
    var p2 := ph.(onPurpose := Some(HasRevokedOnPurpose(db.tokens, ph.family)));
    var p3 := ph.(children := Some(|Children(db.tokens, ph.id)|));
    if !ph.row.Live() && InWindow(cfg, ph.row, ph.now) && v == Kill(ph.id) {
      var d :| Evidence(cfg, db.tokens, ph, d);
      assert Evidence(cfg, db.tokens, p1, d) && Evidence(cfg, db.tokens, p2, d) && Evidence(cfg, db.tokens, p3, d);
    }
  }

  ghost predicate ChildrenHome(t: Tokens, ph: Phase)
    requires ph.HoldsRow()
  {
    forall c :: c in t && t[c].parent == Some(ph.id) ==> t[c].family == ph.family
  }

  /** What happens in other families does not matter. */
  lemma SteadyIsLocal(cfg: Config, db: Db, db2: Db, ph: Phase, v: Verdict)
    requires ph.Judging? && Steady(cfg, db, ph, v) && SameFamily(db, db2, ph.family)
    requires ChildrenHome(db.tokens, ph) && ChildrenHome(db2.tokens, ph)
    ensures Steady(cfg, db2, ph, v)
  {
    assert Children(db2.tokens, ph.id) == Children(db.tokens, ph.id);
    if !ph.row.Live() && InWindow(cfg, ph.row, ph.now) {
      if v == Kill(ph.id) {
        var d :| Evidence(cfg, db.tokens, ph, d);
        assert Evidence(cfg, db2.tokens, ph, d);
      }
    }
  }

  /** A row that is not too old by the time of the cleanup is spared. */
  lemma YoungIsSpared(cfg: Config, row: Token, used: Time, now: Time)
    requires Prompt(cfg) && NotBefore(cfg, row, used) && row.expiresAt == row.createdAt + cfg.ttl
    requires now <= used + cfg.grace + cfg.lag
    ensures !RevokedLongAgo(row, now) && !ExpiredLongAgo(row, now)
  {
  }

  /** Cleanup between the queries takes away nothing the verdict depends on. */
  lemma SteadyThroughCleanup(cfg: Config, db: Db, victims: set<TokenId>, ph: Phase, v: Verdict, now: Time)
    requires Prompt(cfg) && ph.Judging? && Steady(cfg, db, ph, v) && now <= ph.now + cfg.lag
    requires forall i :: i in db.tokens ==> db.tokens[i].expiresAt == db.tokens[i].createdAt + cfg.ttl
    requires forall i :: i in victims ==>
      i in db.tokens && i != ph.id && (RevokedLongAgo(db.tokens[i], now) || ExpiredLongAgo(db.tokens[i], now))
    ensures Steady(cfg, db.(tokens := db.tokens - victims), ph, v)
  {
    var t, t2 := db.tokens, db.tokens - victims;
    if !ph.row.Live() && InWindow(cfg, ph.row, ph.now) {
      var used := ph.row.usedAt.value;
      if v == Kill(ph.id) {
        var d :| Evidence(cfg, t, ph, d);
        YoungIsSpared(cfg, t[d], used, now);
        assert Evidence(cfg, t2, ph, d);
      } else {
        forall c | c in t && t[c].parent == Some(ph.id) ensures c in t2 {
          YoungIsSpared(cfg, t[c], used, now);
        }
        assert Children(t2, ph.id) == Children(t, ph.id);
      }
    }
  }

  /** The tombstone of a family being judged is not stale. */
  lemma SteadyTombstoneIsYoung(cfg: Config, db: Db, ph: Phase, v: Verdict, now: Time)
    requires Prompt(cfg) && ph.Judging? && Steady(cfg, db, ph, v) && now <= ph.now + cfg.lag &&
      ph.family in db.tombstones
    ensures !StaleTombstone(cfg, db.tombstones[ph.family], now)
  {
  }

  /** At the clock reading the invariant of the shadow makes the verdict steady. */
  lemma ShadowIsSteady(cfg: Config, w: World, id: TokenId, p: Presentation, ticket: nat, now: Time)
    requires Sound(cfg) && Inv(cfg, w) && id in w.db.tokens && w.clock <= now &&
      Validate(w.db, w.db.tokens[id], p, now).None?
    ensures Steady(cfg, w.db, Fresh(w.db, id, ticket, now), DecideRow(cfg, w.db, id, p, now))
  {
    var t, row, f := w.db.tokens, w.db.tokens[id], w.db.tokens[id].family;
    if f in w.db.tombstones {
      assert Ended(cfg, t, f, w.db.tombstones[f].revokedAt);
    }
    if !row.Live() && InWindow(cfg, row, now) {
      var d :| Heir(cfg, t, row, d);
      if HasRevokedOnPurpose(t, f) {
        var r :| r in t && t[r].family == f && t[r].RevokedOnPurpose();
        assert Ended(cfg, t, f, t[r].revokedAt.value);
      }
      if f in w.db.tombstones || HasRevokedOnPurpose(t, f) {
        assert Evidence(cfg, t, Fresh(w.db, id, ticket, now), d);
      }
    }
  }

  /** A rotation that has just read the clock. */
  function Fresh(db: Db, id: TokenId, ticket: nat, now: Time): Phase
    requires id in db.tokens
  {
    Judging(db.tokens[id].family, ticket, id, db.tokens[id], now, None, None, None)
  }
}
