/** When a deletion request is final in the interleaved system.

A family is spent when all its rows are revoked and none of them can be replayed, or when a revocation that is going to
end it holds its lock. A spent family stays spent, whatever is interleaved and whatever follows, calm or not.
*/
module FamilyFinality {
  import opened Prelude
  import opened GrantTables
  import opened GrantSteps
  import opened GrantMachine
  import opened GrantInvariants
  import opened FamilyLock
  import opened FamilyShadow
  import opened FamilyBooks
  import opened FamilyTransactions
  import opened FamilySurroundings
  import opened FamilyTidy
  import opened FamilyKin

  // ---------- spent families ----------

  /** A row revoked on purpose that cleanup leaves alone while a row redeemed at `used` can be replayed. */
  ghost predicate Proof(cfg: Config, t: Tokens, f: FamilyId, used: Time, d: TokenId) {
    d in t && t[d].family == f && t[d].RevokedOnPurpose() && NotBefore(cfg, t[d], used)
  }

  /** A redeemed row that no presentation from now on is let through with. */
  ghost predicate Covered(cfg: Config, db: Db, clock: Time, p: Token)
    requires p.usedAt.Some?
  {
    || clock > p.usedAt.value + cfg.grace
    || clock >= p.expiresAt
    || p.family in db.tombstones
    || exists d :: Proof(cfg, db.tokens, p.family, p.usedAt.value, d)
  }

  ghost predicate Over(cfg: Config, db: Db, clock: Time, f: FamilyId) {
    forall i :: i in db.tokens && db.tokens[i].family == f ==>
      db.tokens[i].revokedAt.Some? && (db.tokens[i].usedAt.Some? ==> Covered(cfg, db, clock, db.tokens[i]))
  }

  /** The tombstone is not older than the rows it guards. */
  ghost predicate Guarded(cfg: Config, db: Db, f: FamilyId) {
    f in db.tombstones ==>
      forall i :: i in db.tokens && db.tokens[i].family == f ==>
        db.tokens[i].createdAt <= db.tombstones[f].revokedAt + cfg.lag
  }

  predicate RevokerHolds(s: Sys, f: FamilyId) {
    f in s.locks && s.locks[f] in s.jobs && s.jobs[s.locks[f]].job.Revoke? && s.jobs[s.locks[f]].phase.Locked?
  }

  /** Whatever is still to be read, this rotation is going to end its family. */
  ghost predicate Ends(cfg: Config, db: Db, ph: Phase)
    requires ph.Judging?
  {
    && !ph.row.Live()
    && (InWindow(cfg, ph.row, ph.now) ==>
          || ph.tombstoned == Some(true) || (ph.tombstoned.None? && ph.family in db.tombstones)
          || ph.onPurpose == Some(true)
          || (ph.onPurpose.None? && exists d :: Proof(cfg, db.tokens, ph.family, ph.row.usedAt.value, d)))
  }

  ghost predicate JudgesEnd(cfg: Config, s: Sys, f: FamilyId) {
    forall q :: q in s.jobs && s.jobs[q].phase.Judging? && s.jobs[q].phase.family == f ==>
      Ends(cfg, s.db, s.jobs[q].phase)
  }

  ghost predicate Spent(cfg: Config, s: Sys, f: FamilyId, u: UserId) {
    && f in s.families && OwnedBy(s.db.tokens, f, u) && Guarded(cfg, s.db, f)
    && (RevokerHolds(s, f) || Over(cfg, s.db, s.clock, f))
    && JudgesEnd(cfg, s, f)
  }

  // ---------- reading ----------

  lemma OverLater(cfg: Config, db: Db, clock: Time, at: Time, f: FamilyId)
    requires Over(cfg, db, clock, f) && clock <= at
    ensures Over(cfg, db, at, f)
  {
    forall i | i in db.tokens && db.tokens[i].family == f && db.tokens[i].usedAt.Some?
      ensures Covered(cfg, db, at, db.tokens[i])
    {
      assert Covered(cfg, db, clock, db.tokens[i]);
    }
  }

  lemma QueriesKeepEnding(cfg: Config, db: Db, ph: Phase)
    requires ph.Judging? && Ends(cfg, db, ph)
    ensures ph.tombstoned.None? ==> Ends(cfg, db, ph.(tombstoned := Some(ph.family in db.tombstones)))
    ensures ph.onPurpose.None? ==> Ends(cfg, db, ph.(onPurpose := Some(HasRevokedOnPurpose(db.tokens, ph.family))))
    ensures forall n :: Ends(cfg, db, ph.(children := n))
  {
    if InWindow(cfg, ph.row, ph.now) && !HasRevokedOnPurpose(db.tokens, ph.family) {
      assert !exists d :: Proof(cfg, db.tokens, ph.family, ph.row.usedAt.value, d);
    }
  }

  /** Whoever reads the clock with a row of a spent family is going to end it. */
  lemma CheckEnds(cfg: Config, s: Sys, pid: Pid, at: Time)
    requires pid in s.jobs && s.jobs[pid].job.Rotate? && s.jobs[pid].phase.Reading? && RowThere(s.db, s.jobs[pid].phase)
    requires Over(cfg, s.db, at, s.jobs[pid].phase.family) && at < s.jobs[pid].phase.row.expiresAt
    ensures Ends(cfg, s.db, Checked(s.jobs[pid], at).phase)
  {
    var row := s.jobs[pid].phase.row;
    if row.usedAt.Some? {
      assert Covered(cfg, s.db, at, row);
    }
  }

  /** The rows stay, a revoker keeps its lock, and judges are going to end the family. */
  lemma WaitingKeepsSpent(cfg: Config, s: Sys, s2: Sys, f: FamilyId, u: UserId)
    requires Spent(cfg, s, f, u) && s2.db == s.db && s2.families == s.families && s.clock <= s2.clock
    requires RevokerHolds(s, f) ==> RevokerHolds(s2, f)
    requires JudgesEnd(cfg, s2, f)
    ensures Spent(cfg, s2, f, u)
  {
    if !RevokerHolds(s, f) {
      OverLater(cfg, s.db, s.clock, s2.clock, f);
    }
  }

  lemma RevokerStays(cfg: Config, s: Sys, step: Step, f: FamilyId)
    requires LocksOk(s.jobs, s.locks) && Can(cfg, s, step) && RevokerHolds(s, f) && !step.Env?
    requires step.Commit? ==> step.pid != s.locks[f]
    ensures RevokerHolds(Do(cfg, s, step), f)
  {
  }

  lemma QueryKeepsJudges(cfg: Config, s: Sys, step: Step, f: FamilyId)
    requires JudgesEnd(cfg, s, f) && Can(cfg, s, step) &&
      (step.SeeTombstone? || step.SeeOnPurpose? || step.SeeChildren?)
    ensures JudgesEnd(cfg, Do(cfg, s, step), f)
  {
    if s.jobs[step.pid].phase.family == f {
      QueriesKeepEnding(cfg, s.db, s.jobs[step.pid].phase);
    }
  }

  lemma CheckKeepsJudges(cfg: Config, s: Sys, pid: Pid, at: Time, f: FamilyId, u: UserId)
    requires Tidy(cfg, s) && Spent(cfg, s, f, u) && Can(cfg, s, Check(at, pid))
    ensures JudgesEnd(cfg, Do(cfg, s, Check(at, pid)), f)
  {
    var r := s.jobs[pid];
    assert JobTidy(s.clock, s.db, r);
    if r.phase.family == f && Validate(s.db, r.phase.row, r.job.p, at).None? {
      OverLater(cfg, s.db, s.clock, at, f);
      CheckEnds(cfg, s, pid, at);
    }
  }

  lemma OtherReadsKeepJudges(cfg: Config, s: Sys, step: Step, f: FamilyId)
    requires JudgesEnd(cfg, s, f) && Can(cfg, s, step)
    requires step.Spawn? || step.Lookup? || step.Lock? || step.Reload? || step.Snapshot?
    ensures JudgesEnd(cfg, Do(cfg, s, step), f)
  {
  }

  lemma ReadsLeaveRows(cfg: Config, s: Sys, step: Step)
    requires Can(cfg, s, step) && !step.Commit? && !step.Env?
    ensures Do(cfg, s, step).db == s.db && Do(cfg, s, step).families == s.families && Do(cfg, s, step).clock == step.at
  {
  }

  lemma ReadingKeepsSpent(cfg: Config, s: Sys, step: Step, f: FamilyId, u: UserId)
    requires Tidy(cfg, s) && Spent(cfg, s, f, u) && Can(cfg, s, step) && !step.Commit? && !step.Env?
    ensures Spent(cfg, Do(cfg, s, step), f, u)
  {
    if step.SeeTombstone? || step.SeeOnPurpose? || step.SeeChildren? {
      QueryKeepsJudges(cfg, s, step, f);
    } else if step.Check? {
      CheckKeepsJudges(cfg, s, step.pid, step.at, f, u);
    } else {
      OtherReadsKeepJudges(cfg, s, step, f);
    }
    if RevokerHolds(s, f) {
      RevokerStays(cfg, s, step, f);
    }
    ReadsLeaveRows(cfg, s, step);
    WaitingKeepsSpent(cfg, s, Do(cfg, s, step), f, u);
  }

  // ---------- writing elsewhere ----------

  lemma OverIsLocal(cfg: Config, db: Db, db2: Db, clock: Time, f: FamilyId)
    requires Over(cfg, db, clock, f) && SameFamily(db, db2, f)
    ensures Over(cfg, db2, clock, f)
  {
    forall i | i in db2.tokens && db2.tokens[i].family == f && db2.tokens[i].usedAt.Some?
      ensures Covered(cfg, db2, clock, db2.tokens[i])
    {
      var p := db2.tokens[i];
      assert Covered(cfg, db, clock, p);
      if exists d :: Proof(cfg, db.tokens, f, p.usedAt.value, d) {
        var d :| Proof(cfg, db.tokens, f, p.usedAt.value, d);
        assert Proof(cfg, db2.tokens, f, p.usedAt.value, d);
      }
    }
  }

  lemma EndingIsLocal(cfg: Config, db: Db, db2: Db, ph: Phase)
    requires ph.Judging? && Ends(cfg, db, ph) && SameFamily(db, db2, ph.family)
    ensures Ends(cfg, db2, ph)
  {
    if InWindow(cfg, ph.row, ph.now) && exists d :: Proof(cfg, db.tokens, ph.family, ph.row.usedAt.value, d) {
      var d :| Proof(cfg, db.tokens, ph.family, ph.row.usedAt.value, d);
      assert Proof(cfg, db2.tokens, ph.family, ph.row.usedAt.value, d);
    }
  }

  /** Nothing in the family changes, and its judges and its revoker stay or leave. */
  lemma SpentIsLocal(cfg: Config, s: Sys, s2: Sys, f: FamilyId, u: UserId)
    requires Spent(cfg, s, f, u) && SameFamily(s.db, s2.db, f) && s.families <= s2.families && s.clock <= s2.clock
    requires RevokerHolds(s, f) ==> RevokerHolds(s2, f)
    requires forall q :: q in s2.jobs && s2.jobs[q].phase.Judging? ==> q in s.jobs && s2.jobs[q] == s.jobs[q]
    ensures Spent(cfg, s2, f, u)
  {
    if !RevokerHolds(s, f) {
      OverIsLocal(cfg, s.db, s2.db, s.clock, f);
      OverLater(cfg, s2.db, s.clock, s2.clock, f);
    }
    forall q | q in s2.jobs && s2.jobs[q].phase.Judging? && s2.jobs[q].phase.family == f
      ensures Ends(cfg, s2.db, s2.jobs[q].phase)
    {
      EndingIsLocal(cfg, s.db, s2.db, s.jobs[q].phase);
    }
  }

  // ---------- commits ----------

  /** Once ended, a family is over and guarded by its tombstone. */
  lemma KilledIsOver(cfg: Config, db: Db, f: FamilyId, tomb: Tombstone, clock: Time, at: Time)
    requires RowsOk(cfg, db.tokens, clock) && Guarded(cfg, db, f) && clock <= tomb.revokedAt + cfg.lag
    ensures Over(cfg, KillFamily(db, f, tomb), at, f) && Guarded(cfg, KillFamily(db, f, tomb), f)
  {
    var db2 := KillFamily(db, f, tomb);
    forall i | i in db2.tokens && db2.tokens[i].family == f
      ensures db2.tokens[i].createdAt <= db2.tombstones[f].revokedAt + cfg.lag
    {
      assert RowOk(cfg, db.tokens[i], clock);
    }
  }

  lemma EndingSettles(cfg: Config, db: Db, ph: Phase)
    requires ph.Judging? && Ends(cfg, db, ph) && Settled(cfg, ph).Some?
    ensures Settled(cfg, ph).value == Kill(ph.id)
  {
  }

  /** The one who holds the lock ends the family. */
  lemma KillKeepsSpent(cfg: Config, s: Sys, pid: Pid, tomb: Tombstone, result: Result, at: Time, f: FamilyId, u: UserId)
    requires Tidy(cfg, s) && Spent(cfg, s, f, u) && pid in s.jobs && s.jobs[pid].phase.Holds() && s.clock <= at
    requires s.jobs[pid].phase.family == f && s.clock <= tomb.revokedAt + cfg.lag
    ensures Spent(cfg, Finish(s, pid, KillFamily(s.db, f, tomb), result).(clock := at), f, u)
  {
    KilledIsOver(cfg, s.db, f, tomb, s.clock, at);
    JudgedAfterFinish(s, pid, KillFamily(s.db, f, tomb), result, at);
  }

  lemma HolderKeepsSpent(cfg: Config, s: Sys, pid: Pid, at: Time, f: FamilyId, u: UserId)
    requires cfg.lag >= 0 && Tidy(cfg, s) && Spent(cfg, s, f, u) && Can(cfg, s, Commit(at, pid))
    requires s.jobs[pid].phase.Holds() && s.jobs[pid].phase.family == f
    ensures Spent(cfg, Do(cfg, s, Commit(at, pid)), f, u)
  {
    var r := s.jobs[pid];
    assert JobTidy(s.clock, s.db, r);
    if r.job.Rotate? {
      EndingSettles(cfg, s.db, r.phase);
      KillKeepsSpent(cfg, s, pid, Tombstone(r.phase.row.grant.user, ReuseDetected, r.phase.now),
                     Rotated(Reply(Kill(r.phase.id))), at, f, u);
    } else {
      KillKeepsSpent(cfg, s, pid, Tombstone(r.phase.user, Revoked, r.since),
                     RevokedRows(Unrevoked(s.db.tokens, f)), at, f, u);
    }
  }

  lemma FinishElsewhereKeepsSpent(cfg: Config, s: Sys, pid: Pid, db2: Db, result: Result, at: Time, f: FamilyId,
                                  u: UserId)
    requires Tidy(cfg, s) && Spent(cfg, s, f, u) && pid in s.jobs && s.clock <= at && SameFamily(s.db, db2, f)
    requires s.jobs[pid].phase.Holds() ==> s.jobs[pid].phase.family != f
    ensures Spent(cfg, Finish(s, pid, db2, result).(clock := at), f, u)
  {
    SpentIsLocal(cfg, s, Finish(s, pid, db2, result).(clock := at), f, u);
  }

  lemma OtherHolderKeepsSpent(cfg: Config, s: Sys, pid: Pid, at: Time, f: FamilyId, u: UserId)
    requires Tidy(cfg, s) && Spent(cfg, s, f, u) && Can(cfg, s, Commit(at, pid))
    requires s.jobs[pid].phase.Holds() && s.jobs[pid].phase.family != f
    ensures Spent(cfg, Do(cfg, s, Commit(at, pid)), f, u)
  {
    var r := s.jobs[pid];
    assert JobTidy(s.clock, s.db, r) && NewNames(s.db.tokens, s.ids, s.hashes, r.job);
    if r.job.Rotate? {
      var v := Settled(cfg, r.phase).value;
      WritingElsewhere(cfg, s.db, r, v);
      FinishElsewhereKeepsSpent(cfg, s, pid, Written(cfg, s.db, r, v), Rotated(Reply(v)), at, f, u);
    } else {
      var g, tomb := r.phase.family, Tombstone(r.phase.user, Revoked, r.since);
      KillingElsewhere(s.db, g, tomb);
      FinishElsewhereKeepsSpent(cfg, s, pid, KillFamily(s.db, g, tomb), RevokedRows(Unrevoked(s.db.tokens, g)), at, f,
          u);
    }
  }

  /** Revoked rows stay as they are. */
  lemma AskingLeavesOver(cfg: Config, db: Db, clock: Time, f: FamilyId, u: UserId, seen: set<TokenId>, now: Time)
    requires Over(cfg, db, clock, f)
    ensures SameFamily(db, AskedDb(db, u, seen, now), f)
  {
  }

  /** While a revoker holds the lock rows may be revoked and deleted, but nothing else. */
  lemma FadingKeepsHeld(cfg: Config, s: Sys, s2: Sys, f: FamilyId, u: UserId)
    requires Spent(cfg, s, f, u) && RevokerHolds(s2, f) && s.families <= s2.families && LocksOk(s2.jobs, s2.locks)
    requires s2.db.tokens.Keys <= s.db.tokens.Keys && forall i :: i in s2.db.tokens ==>
      SameRow(s.db.tokens[i], s2.db.tokens[i])
    requires f in s2.db.tombstones ==> f in s.db.tombstones && s2.db.tombstones[f] == s.db.tombstones[f]
    ensures Spent(cfg, s2, f, u)
  {
  }

  lemma RequestKeepsSpent(cfg: Config, s: Sys, pid: Pid, at: Time, f: FamilyId, u: UserId)
    requires Tidy(cfg, s) && Spent(cfg, s, f, u) && Can(cfg, s, Commit(at, pid)) && s.jobs[pid].job.Ask?
    ensures Spent(cfg, Do(cfg, s, Commit(at, pid)), f, u)
  {
    var r := s.jobs[pid];
    var db2 := AskedDb(s.db, r.job.user, r.phase.seen, r.since);
    if RevokerHolds(s, f) {
      RevokerStays(cfg, s, Commit(at, pid), f);
      LocksFinish(s, pid, db2, Asked(Accepted));
      FadingKeepsHeld(cfg, s, Do(cfg, s, Commit(at, pid)), f, u);
    } else {
      AskingLeavesOver(cfg, s.db, s.clock, f, r.job.user, r.phase.seen, r.since);
      FinishElsewhereKeepsSpent(cfg, s, pid, db2, Asked(Accepted), at, f, u);
    }
  }

  lemma CommitKeepsSpent(cfg: Config, s: Sys, pid: Pid, at: Time, f: FamilyId, u: UserId)
    requires cfg.lag >= 0 && Tidy(cfg, s) && Spent(cfg, s, f, u) && Can(cfg, s, Commit(at, pid))
    ensures Spent(cfg, Do(cfg, s, Commit(at, pid)), f, u)
  {
    if s.jobs[pid].job.Ask? {
      RequestKeepsSpent(cfg, s, pid, at, f, u);
    } else if s.jobs[pid].phase.family == f {
      HolderKeepsSpent(cfg, s, pid, at, f, u);
    } else {
      OtherHolderKeepsSpent(cfg, s, pid, at, f, u);
    }
  }

  // ---------- the surroundings ----------

  lemma SurroundedElsewhere(cfg: Config, s: Sys, op: Op, f: FamilyId, u: UserId)
    requires Spent(cfg, s, f, u) && s.clock <= op.at && SameFamily(s.db, DbAfter(cfg, s.db, op), f)
    ensures Spent(cfg, Surrounded(cfg, s, op).(clock := op.at), f, u)
  {
    SpentIsLocal(cfg, s, Surrounded(cfg, s, op).(clock := op.at), f, u);
  }

  lemma RowsOfWiped(cfg: Config, s: Sys, op: Op, q: Pid)
    requires JobsTidy(s.clock, s.db, s.jobs) && op.WipeUser? && EnvReady(cfg, s, op)
    requires q in s.jobs && s.jobs[q].phase.HoldsRow()
    ensures s.db.tokens[s.jobs[q].phase.id].grant.user != op.user
  {
    assert JobTidy(s.clock, s.db, s.jobs[q]);
    assert RowHeld(s, s.jobs[q].phase.id);
  }

  lemma OwnWipeKeepsSpent(cfg: Config, s: Sys, op: Op, f: FamilyId, u: UserId)
    requires Tidy(cfg, s) && Spent(cfg, s, f, u) && Can(cfg, s, Env(op.at, op)) && op.WipeUser? && op.user == u
    requires Wipeable(s.db, u, op.sampledAt)
    ensures Spent(cfg, Do(cfg, s, Env(op.at, op)), f, u)
  {
    var t2 := DbAfter(cfg, s.db, op).tokens;
    forall q | q in s.jobs && s.jobs[q].phase.Judging? ensures s.jobs[q].phase.family != f {
      assert JobTidy(s.clock, s.db, s.jobs[q]);
      RowsOfWiped(cfg, s, op, q);
    }
    assert forall i :: i in t2 ==> t2[i].family != f;
  }

  lemma WipeKeepsSpent(cfg: Config, s: Sys, op: Op, f: FamilyId, u: UserId)
    requires Tidy(cfg, s) && Spent(cfg, s, f, u) && Can(cfg, s, Env(op.at, op)) && op.WipeUser?
    ensures Spent(cfg, Do(cfg, s, Env(op.at, op)), f, u)
  {
    if op.user != u {
      WipingIsUserWide(s.db, op.user, op.sampledAt);
      OtherOwnersUntouched(s.db, DbAfter(cfg, s.db, op), op.user, f, u);
      SurroundedElsewhere(cfg, s, op, f, u);
    } else if Wipeable(s.db, u, op.sampledAt) {
      OwnWipeKeepsSpent(cfg, s, op, f, u);
    } else {
      SurroundedElsewhere(cfg, s, op, f, u);
    }
  }

  /** Cleanup spares the proof as long as it matters. */
  lemma OverThroughCleanup(cfg: Config, db: Db, victims: set<TokenId>, now: Time, at: Time, f: FamilyId)
    requires Prompt(cfg) && Over(cfg, db, at, f) && now <= at
    requires forall i :: i in db.tokens ==> db.tokens[i].expiresAt == db.tokens[i].createdAt + cfg.ttl
    requires forall i :: i in victims ==>
      i in db.tokens && (RevokedLongAgo(db.tokens[i], now) || ExpiredLongAgo(db.tokens[i], now))
    ensures Over(cfg, Removed(db, victims), at, f)
  {
    var db2 := Removed(db, victims);
    forall i | i in db2.tokens && db2.tokens[i].family == f && db2.tokens[i].usedAt.Some?
      ensures Covered(cfg, db2, at, db2.tokens[i])
    {
      var used := db2.tokens[i].usedAt.value;
      assert Covered(cfg, db, at, db.tokens[i]);
      if at <= used + cfg.grace && exists d :: Proof(cfg, db.tokens, f, used, d) {
        var d :| Proof(cfg, db.tokens, f, used, d);
        YoungIsSpared(cfg, db.tokens[d], used, now);
        assert Proof(cfg, db2.tokens, f, used, d);
      }
    }
  }

  lemma EndingThroughCleanup(cfg: Config, db: Db, victims: set<TokenId>, now: Time, ph: Phase)
    requires Prompt(cfg) && ph.Judging? && Ends(cfg, db, ph) && now <= ph.now + cfg.lag
    requires forall i :: i in db.tokens ==> db.tokens[i].expiresAt == db.tokens[i].createdAt + cfg.ttl
    requires forall i :: i in victims ==>
      i in db.tokens && (RevokedLongAgo(db.tokens[i], now) || ExpiredLongAgo(db.tokens[i], now))
    ensures Ends(cfg, Removed(db, victims), ph)
  {
    if InWindow(cfg, ph.row, ph.now) && exists d :: Proof(cfg, db.tokens, ph.family, ph.row.usedAt.value, d) {
      var d :| Proof(cfg, db.tokens, ph.family, ph.row.usedAt.value, d);
      YoungIsSpared(cfg, db.tokens[d], ph.row.usedAt.value, now);
      assert Proof(cfg, Removed(db, victims).tokens, ph.family, ph.row.usedAt.value, d);
    }
  }

  lemma Lifetimes(cfg: Config, t: Tokens, clock: Time)
    requires RowsOk(cfg, t, clock)
    ensures forall i :: i in t ==> t[i].expiresAt == t[i].createdAt + cfg.ttl
  {
    forall i | i in t ensures t[i].expiresAt == t[i].createdAt + cfg.ttl {
      assert RowOk(cfg, t[i], clock);
    }
  }

  lemma LatelyJudged(cfg: Config, s: Sys, step: Step, q: Pid)
    requires JobsTidy(s.clock, s.db, s.jobs) && Can(cfg, s, step) && q in s.jobs && s.jobs[q].phase.Judging?
    ensures step.at <= s.jobs[q].phase.now + cfg.lag
  {
    assert JobTidy(s.clock, s.db, s.jobs[q]);
  }

  lemma CleanupKeepsSpent(cfg: Config, s: Sys, op: Op, f: FamilyId, u: UserId)
    requires Prompt(cfg) && Tidy(cfg, s) && Spent(cfg, s, f, u) && Can(cfg, s, Env(op.at, op)) && CleansTokens(op)
    ensures Spent(cfg, Do(cfg, s, Env(op.at, op)), f, u)
  {
    var s2 := Do(cfg, s, Env(op.at, op));
    assert s2.db == Removed(s.db, op.victims);
    Lifetimes(cfg, s.db.tokens, s.clock);
    if !RevokerHolds(s, f) {
      OverLater(cfg, s.db, s.clock, op.at, f);
      OverThroughCleanup(cfg, s.db, op.victims, op.sampledAt, op.at, f);
    }
    forall q | q in s2.jobs && s2.jobs[q].phase.Judging? && s2.jobs[q].phase.family == f
      ensures Ends(cfg, s2.db, s2.jobs[q].phase)
    {
      LatelyJudged(cfg, s, Env(op.at, op), q);
      EndingThroughCleanup(cfg, s.db, op.victims, op.sampledAt, s.jobs[q].phase);
    }
  }

  /** When a tombstone goes, the rows it guarded have expired. */
  lemma OverWithoutTombstone(cfg: Config, db: Db, dropped: set<FamilyId>, now: Time, at: Time, f: FamilyId)
    requires Prompt(cfg) && Over(cfg, db, at, f) && Guarded(cfg, db, f) && now <= at
    requires forall i :: i in db.tokens ==> db.tokens[i].expiresAt == db.tokens[i].createdAt + cfg.ttl
    requires f in dropped ==> f in db.tombstones && StaleTombstone(cfg, db.tombstones[f], now)
    ensures Over(cfg, Dropped(db, dropped), at, f)
  {
    forall i | i in db.tokens && db.tokens[i].family == f && db.tokens[i].usedAt.Some?
      ensures Covered(cfg, Dropped(db, dropped), at, db.tokens[i])
    {
      assert Covered(cfg, db, at, db.tokens[i]);
    }
  }

  lemma GuardedJudgesKeepTheirTombstone(cfg: Config, s: Sys, op: Op, q: Pid)
    requires Prompt(cfg) && Tidy(cfg, s) && Can(cfg, s, Env(op.at, op)) && op.CleanTombstones?
    requires q in s.jobs && s.jobs[q].phase.Judging? && Guarded(cfg, s.db, s.jobs[q].phase.family)
    ensures s.jobs[q].phase.family !in op.dropped
  {
    LatelyJudged(cfg, s, Env(op.at, op), q);
    assert JobTidy(s.clock, s.db, s.jobs[q]);
    assert RowOk(cfg, s.jobs[q].phase.row, s.clock);
  }

  lemma DroppingKeepsSpent(cfg: Config, s: Sys, op: Op, f: FamilyId, u: UserId)
    requires Prompt(cfg) && Tidy(cfg, s) && Spent(cfg, s, f, u) && Can(cfg, s, Env(op.at, op)) && op.CleanTombstones?
    ensures Spent(cfg, Do(cfg, s, Env(op.at, op)), f, u)
  {
    var s2 := Do(cfg, s, Env(op.at, op));
    assert s2.db == Dropped(s.db, op.dropped);
    Lifetimes(cfg, s.db.tokens, s.clock);
    if !RevokerHolds(s, f) {
      OverLater(cfg, s.db, s.clock, op.at, f);
      OverWithoutTombstone(cfg, s.db, op.dropped, op.sampledAt, op.at, f);
    }
    forall q | q in s2.jobs && s2.jobs[q].phase.Judging? && s2.jobs[q].phase.family == f
      ensures Ends(cfg, s2.db, s2.jobs[q].phase)
    {
      GuardedJudgesKeepTheirTombstone(cfg, s, op, q);
    }
  }

  lemma SurroundingsKeepSpent(cfg: Config, s: Sys, op: Op, f: FamilyId, u: UserId)
    requires Prompt(cfg) && Tidy(cfg, s) && Spent(cfg, s, f, u) && Can(cfg, s, Env(op.at, op))
    ensures Spent(cfg, Do(cfg, s, Env(op.at, op)), f, u)
  {
    if op.Open? {
      OpeningAlike(cfg, s.db, s.db, op, f);
      SurroundedElsewhere(cfg, s, op, f, u);
    } else if op.WipeUser? {
      WipeKeepsSpent(cfg, s, op, f, u);
    } else if CleansTokens(op) {
      CleanupKeepsSpent(cfg, s, op, f, u);
    } else if op.CleanTombstones? {
      DroppingKeepsSpent(cfg, s, op, f, u);
    } else {
      SurroundedElsewhere(cfg, s, op, f, u);
    }
  }

  lemma StepKeepsSpent(cfg: Config, s: Sys, step: Step, f: FamilyId, u: UserId)
    requires Prompt(cfg) && Tidy(cfg, s) && Spent(cfg, s, f, u) && Can(cfg, s, step)
    ensures Spent(cfg, Do(cfg, s, step), f, u)
  {
    if step.Commit? {
      CommitKeepsSpent(cfg, s, step.pid, step.at, f, u);
    } else if step.Env? {
      SurroundingsKeepSpent(cfg, s, step.op, f, u);
    } else {
      ReadingKeepsSpent(cfg, s, step, f, u);
    }
  }

  // ---------- families of others ----------

  ghost predicate Foreign(s: Sys, f: FamilyId, u: UserId) {
    f in s.families && forall i :: i in s.db.tokens && s.db.tokens[i].family == f ==> s.db.tokens[i].grant.user != u
  }

  /** Every row has the family and the grant of one that was there before. */
  ghost predicate Descend(t: Tokens, t2: Tokens) {
    forall i :: i in t2 ==> exists j :: j in t && t[j].family == t2[i].family && t[j].grant == t2[i].grant
  }

  lemma WritingDescends(cfg: Config, db: Db, r: Running, v: Verdict)
    requires r.job.Rotate? && r.phase.Judging? && RowThere(db, r.phase)
    ensures Descend(db.tokens, Written(cfg, db, r, v).tokens)
  {
    var t, t2 := db.tokens, Written(cfg, db, r, v).tokens;
    forall i | i in t2 ensures exists j :: j in t && t[j].family == t2[i].family && t[j].grant == t2[i].grant {
      var j := if i in t && i != r.job.newId then i else r.phase.id;
      if i != r.job.newId || v.Kill? || v.Refuse? {
        assert t[i].family == t2[i].family && t[i].grant == t2[i].grant;
      } else {
        assert t[j].family == t2[i].family && t[j].grant == t2[i].grant;
      }
    }
  }

  lemma FadingDescends(t: Tokens, t2: Tokens)
    requires t2.Keys <= t.Keys && forall i :: i in t2 ==> SameRow(t[i], t2[i])
    ensures Descend(t, t2)
  {
    forall i | i in t2 ensures exists j :: j in t && t[j].family == t2[i].family && t[j].grant == t2[i].grant {
      assert t[i].family == t2[i].family && t[i].grant == t2[i].grant;
    }
  }

  lemma CommitDescends(cfg: Config, s: Sys, pid: Pid, at: Time)
    requires Tidy(cfg, s) && Can(cfg, s, Commit(at, pid))
    ensures Descend(s.db.tokens, Do(cfg, s, Commit(at, pid)).db.tokens)
  {
    var r := s.jobs[pid];
    assert JobTidy(s.clock, s.db, r);
    if r.job.Rotate? {
      WritingDescends(cfg, s.db, r, Settled(cfg, r.phase).value);
    } else {
      FadingDescends(s.db.tokens, Do(cfg, s, Commit(at, pid)).db.tokens);
    }
  }

  lemma SurroundingsDescend(cfg: Config, s: Sys, op: Op)
    requires EnvReady(cfg, s, op) && !op.Open?
    ensures Descend(s.db.tokens, DbAfter(cfg, s.db, op).tokens)
  {
    FadingDescends(s.db.tokens, DbAfter(cfg, s.db, op).tokens);
  }

  lemma DescendKeepsForeign(s: Sys, s2: Sys, f: FamilyId, u: UserId)
    requires Foreign(s, f, u) && s.families <= s2.families && Descend(s.db.tokens, s2.db.tokens)
    ensures Foreign(s2, f, u)
  {
  }

  lemma StepKeepsForeign(cfg: Config, s: Sys, step: Step, f: FamilyId, u: UserId)
    requires Tidy(cfg, s) && Foreign(s, f, u) && Can(cfg, s, step)
    ensures Foreign(Do(cfg, s, step), f, u)
  {
    if step.Commit? {
      CommitDescends(cfg, s, step.pid, step.at);
      DescendKeepsForeign(s, Do(cfg, s, step), f, u);
    } else if !step.Env? {
      ReadsLeaveRows(cfg, s, step);
    } else if !step.op.Open? {
      SurroundingsDescend(cfg, s, step.op);
      DescendKeepsForeign(s, Do(cfg, s, step), f, u);
    }
  }

  // ---------- answers ----------

  /** A rotation of this user was given a token in one of these families. */
  predicate GivesToken(e: Entry, u: UserId, families: set<FamilyId>) {
    && e.job.Rotate? && e.job.p.subject == u && e.family.Some? && e.family.value in families
    && e.result.Rotated? && e.result.a.Issued?
  }

  /** At most one more answer; and tokens are given by commits of rotations judged so. */
  ghost predicate AnswersNext(cfg: Config, s: Sys, step: Step, s2: Sys) {
    || s2.done == s.done
    || (|s2.done| == |s.done| + 1 && s2.done[..|s.done|] == s.done
        && var e := s2.done[|s.done|];
           (e.result.Rotated? && e.result.a.Issued? ==>
              && step.Commit? && step.pid in s.jobs && s.jobs[step.pid].phase.Judging?
              && e.job == s.jobs[step.pid].job && e.family == Some(s.jobs[step.pid].phase.family)
              && Settled(cfg, s.jobs[step.pid].phase).Some?
              && !Settled(cfg, s.jobs[step.pid].phase).value.Kill?))
  }

  lemma StepAnswers(cfg: Config, s: Sys, step: Step)
    requires Can(cfg, s, step)
    ensures AnswersNext(cfg, s, step, Do(cfg, s, step))
  {
  }

  /** No rotation of `u` can ever be given a token in `f`. */
  ghost predicate Shut(cfg: Config, s: Sys, f: FamilyId, u: UserId) {
    Spent(cfg, s, f, u) || Foreign(s, f, u)
  }

  lemma StepKeepsShut(cfg: Config, s: Sys, step: Step, f: FamilyId, u: UserId)
    requires Prompt(cfg) && Tidy(cfg, s) && Shut(cfg, s, f, u) && Can(cfg, s, step)
    ensures Shut(cfg, Do(cfg, s, step), f, u)
  {
    if Spent(cfg, s, f, u) {
      StepKeepsSpent(cfg, s, step, f, u);
    } else {
      StepKeepsForeign(cfg, s, step, f, u);
    }
  }

  lemma ShutGivesNothing(cfg: Config, s: Sys, step: Step, f: FamilyId, u: UserId)
    requires Tidy(cfg, s) && Shut(cfg, s, f, u) && Can(cfg, s, step)
    ensures NothingGiven(Do(cfg, s, step).done, |s.done|, f, u)
  {
    StepAnswers(cfg, s, step);
    if step.Commit? && s.jobs[step.pid].phase.Judging? && s.jobs[step.pid].phase.family == f {
      JudgeGivesNothing(cfg, s, step.pid, f, u);
    }
  }

  lemma JudgeGivesNothing(cfg: Config, s: Sys, pid: Pid, f: FamilyId, u: UserId)
    requires Tidy(cfg, s) && Shut(cfg, s, f, u) && pid in s.jobs && s.jobs[pid].phase.Judging?
    requires s.jobs[pid].phase.family == f && Settled(cfg, s.jobs[pid].phase).Some?
    ensures Settled(cfg, s.jobs[pid].phase).value.Kill? || (s.jobs[pid].job.Rotate? && s.jobs[pid].job.p.subject != u)
  {
    assert JobTidy(s.clock, s.db, s.jobs[pid]);
    if Spent(cfg, s, f, u) {
      EndingSettles(cfg, s.db, s.jobs[pid].phase);
    }
  }

  lemma {:induction false} DoneOnlyGrows(cfg: Config, s: Sys, steps: seq<Step>)
    requires Feasible(cfg, s, steps)
    ensures s.done <= Final(cfg, s, steps).done
    decreases |steps|
  {
    if steps == [] {
    } else {
      StepAnswers(cfg, s, steps[0]);
      DoneOnlyGrows(cfg, Do(cfg, s, steps[0]), steps[1..]);
    }
  }

  lemma ShutStep(cfg: Config, s: Sys, step: Step, f: FamilyId, u: UserId)
    requires Prompt(cfg) && Tidy(cfg, s) && Shut(cfg, s, f, u) && Can(cfg, s, step)
    ensures Tidy(cfg, Do(cfg, s, step)) && Shut(cfg, Do(cfg, s, step), f, u)
    ensures NothingGiven(Do(cfg, s, step).done, |s.done|, f, u)
  {
    StepIsTidy(cfg, s, step);
    StepKeepsShut(cfg, s, step, f, u);
    ShutGivesNothing(cfg, s, step, f, u);
  }

  predicate NothingGiven(done: seq<Entry>, n: nat, f: FamilyId, u: UserId) {
    forall k :: n <= k < |done| ==> !GivesToken(done[k], u, {f})
  }

  lemma {:induction false} ShutForever(cfg: Config, s: Sys, after: seq<Step>, f: FamilyId, u: UserId)
    requires Prompt(cfg) && Tidy(cfg, s) && Shut(cfg, s, f, u) && Feasible(cfg, s, after)
    ensures NothingGiven(Final(cfg, s, after).done, |s.done|, f, u)
    decreases |after|
  {
    if after == [] {
    } else {
      ShutStep(cfg, s, after[0], f, u);
      ShutForever(cfg, Do(cfg, s, after[0]), after[1..], f, u);
      DoneOnlyGrows(cfg, Do(cfg, s, after[0]), after[1..]);
    }
  }

  // ---------- deletion requests ----------

  /** Nothing that follows, calm or not, gives a rotation of this user a token in one of these families. */
  ghost predicate IsFinal(cfg: Config, s: Sys, u: UserId, families: set<FamilyId>) {
    forall after, k: nat :: LaterEntry(cfg, s, after, k) ==> !GivesToken(Final(cfg, s, after).done[k], u, families)
  }

  ghost predicate LaterEntry(cfg: Config, s: Sys, after: seq<Step>, k: nat) {
    Feasible(cfg, s, after) && |s.done| <= k < |Final(cfg, s, after).done|
  }

  lemma ShutIsFinal(cfg: Config, s: Sys, u: UserId, families: set<FamilyId>)
    requires Prompt(cfg) && Tidy(cfg, s) && forall f :: f in families ==> Shut(cfg, s, f, u)
    ensures IsFinal(cfg, s, u, families)
  {
    forall after, k: nat | LaterEntry(cfg, s, after, k)
      ensures !GivesToken(Final(cfg, s, after).done[k], u, families)
    {
      var e := Final(cfg, s, after).done[k];
      if e.family.Some? && e.family.value in families {
        ShutForever(cfg, s, after, e.family.value, u);
      }
    }
  }

  /** The unrevoked rows of its user that the request has not seen. */
  function Unseen(s: Sys, pid: Pid): set<TokenId>
    requires pid in s.jobs && s.jobs[pid].job.Ask? && s.jobs[pid].phase.Asking?
  {
    Unrevokeds(s.db.tokens, s.jobs[pid].job.user) - s.jobs[pid].phase.seen
  }

  /** A revocation is about to end the family of every row the request has not seen. */
  predicate UnseenAreHeld(s: Sys, pid: Pid)
    requires pid in s.jobs && s.jobs[pid].job.Ask? && s.jobs[pid].phase.Asking?
  {
    forall i :: i in Unseen(s, pid) ==> i in s.db.tokens && RevokerHolds(s, s.db.tokens[i].family)
  }

  /** A family of the user is theirs alone, and nobody judges it if nobody judges a rotation of the user. */
  lemma FamilyOfUser(cfg: Config, s: Sys, f: FamilyId, u: UserId, i: TokenId)
    requires Tidy(cfg, s) && Kin(cfg, s) && NobodyJudges(s, u)
    requires i in s.db.tokens && s.db.tokens[i].family == f && s.db.tokens[i].grant.user == u
    ensures f in s.families && OwnedBy(s.db.tokens, f, u) && !Judged(s, f)
  {
    forall q | q in s.jobs && s.jobs[q].phase.Judging? ensures s.jobs[q].phase.family != f {
      assert JobTidy(s.clock, s.db, s.jobs[q]);
    }
  }

  /** If the request leaves no unrevoked row in the family, the heir of every row in grace is proof. */
  lemma RequestCovers(cfg: Config, db: Db, u: UserId, seen: set<TokenId>, since: Time, clock: Time, at: Time,
                      f: FamilyId, i: TokenId)
    requires HeirsOk(cfg, db.tokens, clock) && OwnedBy(db.tokens, f, u) && clock <= at && at - cfg.lag <= since
    requires i in db.tokens && db.tokens[i].family == f && db.tokens[i].usedAt.Some? && db.tokens[i].usedAt.value <= at
    requires forall j :: j in db.tokens && db.tokens[j].family == f && db.tokens[j].revokedAt.None? ==> j in seen
    ensures Covered(cfg, AskedDb(db, u, seen, since), at, db.tokens[i])
  {
    var p, db2 := db.tokens[i], AskedDb(db, u, seen, since);
    if at <= p.usedAt.value + cfg.grace {
      assert InGrace(cfg, p, clock);
      var d :| Heir(cfg, db.tokens, p, d);
      assert Proof(cfg, db2.tokens, f, p.usedAt.value, d);
    }
  }

  lemma RequestIsOver(cfg: Config, db: Db, u: UserId, seen: set<TokenId>, since: Time, clock: Time, at: Time,
                      f: FamilyId)
    requires HeirsOk(cfg, db.tokens, clock) && OwnedBy(db.tokens, f, u) && RowsOk(cfg, db.tokens, clock)
    requires clock <= at && at - cfg.lag <= since
    requires forall j :: j in db.tokens && db.tokens[j].family == f && db.tokens[j].revokedAt.None? ==> j in seen
    ensures Over(cfg, AskedDb(db, u, seen, since), at, f)
  {
    var db2 := AskedDb(db, u, seen, since);
    forall i | i in db2.tokens && db2.tokens[i].family == f && db2.tokens[i].usedAt.Some?
      ensures db2.tokens[i] == db.tokens[i] && Covered(cfg, db2, at, db2.tokens[i])
    {
      assert RowOk(cfg, db.tokens[i], clock);
      RequestCovers(cfg, db, u, seen, since, clock, at, f, i);
    }
  }

  lemma SpentAfterRequest(cfg: Config, s: Sys, pid: Pid, at: Time, f: FamilyId, u: UserId)
    requires LocksOk(s.jobs, s.locks) && pid in s.jobs && s.jobs[pid].job == Ask(u) && s.jobs[pid].phase.Asking?
    requires f in s.families && OwnedBy(s.db.tokens, f, u) && Guarded(cfg, s.db, f) && !Judged(s, f)
    requires RevokerHolds(s, f) || Over(cfg, AskedDb(s.db, u, s.jobs[pid].phase.seen, s.jobs[pid].since), at, f)
    ensures Spent(cfg, Finish(s, pid, AskedDb(s.db, u, s.jobs[pid].phase.seen, s.jobs[pid].since),
      Asked(Accepted)).(clock := at),
                  f, u)
  {
  }

  lemma AllSeen(s: Sys, pid: Pid, f: FamilyId, j: TokenId)
    requires pid in s.jobs && s.jobs[pid].job.Ask? && s.jobs[pid].phase.Asking? && UnseenAreHeld(s, pid)
    requires !RevokerHolds(s, f) && j in s.db.tokens && s.db.tokens[j].family == f
    requires s.db.tokens[j].revokedAt.None? && s.db.tokens[j].grant.user == s.jobs[pid].job.user
    ensures j in s.jobs[pid].phase.seen
  {
    assert j in Unrevokeds(s.db.tokens, s.jobs[pid].job.user);
    assert j in Unseen(s, pid) || j in s.jobs[pid].phase.seen;
  }

  lemma FamilyIsSpent(cfg: Config, s: Sys, pid: Pid, at: Time, f: FamilyId, i: TokenId)
    requires Tidy(cfg, s) && Kin(cfg, s) && Can(cfg, s, Commit(at, pid)) && s.jobs[pid].job.Ask?
    requires NobodyJudges(s, s.jobs[pid].job.user) && UnseenAreHeld(s, pid)
    requires i in s.db.tokens && s.db.tokens[i].family == f && s.db.tokens[i].grant.user == s.jobs[pid].job.user
    ensures Spent(cfg, Do(cfg, s, Commit(at, pid)), f, s.jobs[pid].job.user)
  {
    var u, r := s.jobs[pid].job.user, s.jobs[pid];
    FamilyOfUser(cfg, s, f, u, i);
    if !RevokerHolds(s, f) {
      forall j | j in s.db.tokens && s.db.tokens[j].family == f && s.db.tokens[j].revokedAt.None?
        ensures j in r.phase.seen
      {
        AllSeen(s, pid, f, j);
      }
      RequestIsOver(cfg, s.db, u, r.phase.seen, r.since, s.clock, at, f);
    }
    SpentAfterRequest(cfg, s, pid, at, f, u);
  }

  /** What the request leaves behind is shut, if nobody was judging and what it has not seen is about to be ended. */
  lemma RequestShuts(cfg: Config, s: Sys, pid: Pid, at: Time, f: FamilyId)
    requires Tidy(cfg, s) && Kin(cfg, s) && Can(cfg, s, Commit(at, pid)) && s.jobs[pid].job.Ask?
    requires NobodyJudges(s, s.jobs[pid].job.user) && UnseenAreHeld(s, pid) && f in s.families
    ensures Shut(cfg, Do(cfg, s, Commit(at, pid)), f, s.jobs[pid].job.user)
  {
    var u := s.jobs[pid].job.user;
    if i :| i in s.db.tokens && s.db.tokens[i].family == f && s.db.tokens[i].grant.user == u {
      FamilyIsSpent(cfg, s, pid, at, f, i);
    } else {
      StepKeepsForeign(cfg, s, Commit(at, pid), f, u);
    }
  }

  /** In every interleaving a deletion request is final, whatever came before and whatever follows, if at its commit no
      rotation of the user is being judged and every unrevoked row it has not seen is in a family whose revocation holds
      the lock. */
  lemma RequestIsFinal(cfg: Config, start: Time, before: seq<Step>, pid: Pid, at: Time)
    requires Prompt(cfg) && Feasible(cfg, Begin(start), before)
    requires var s := Final(cfg, Begin(start), before);
      && Can(cfg, s, Commit(at, pid)) && s.jobs[pid].job.Ask?
      && NobodyJudges(s, s.jobs[pid].job.user) && UnseenAreHeld(s, pid)
    ensures var s := Final(cfg, Begin(start), before);
      IsFinal(cfg, Do(cfg, s, Commit(at, pid)), s.jobs[pid].job.user, s.families)
  {
    var s := Final(cfg, Begin(start), before);
    InterleavingsKeepKin(cfg, start, before);
    StepIsTidy(cfg, s, Commit(at, pid));
    forall f | f in s.families ensures Shut(cfg, Do(cfg, s, Commit(at, pid)), f, s.jobs[pid].job.user) {
      RequestShuts(cfg, s, pid, at, f);
    }
    ShutIsFinal(cfg, Do(cfg, s, Commit(at, pid)), s.jobs[pid].job.user, s.families);
  }

  /** In particular a request that commits calmly is final. */
  lemma CalmRequestIsFinal(cfg: Config, start: Time, before: seq<Step>, pid: Pid, at: Time)
    requires Prompt(cfg) && Feasible(cfg, Begin(start), before)
    requires var s := Final(cfg, Begin(start), before);
      Can(cfg, s, Commit(at, pid)) && s.jobs[pid].job.Ask? && Calm(s, pid)
    ensures var s := Final(cfg, Begin(start), before);
      IsFinal(cfg, Do(cfg, s, Commit(at, pid)), s.jobs[pid].job.user, s.families)
  {
    RequestIsFinal(cfg, start, before, pid, at);
  }
}
