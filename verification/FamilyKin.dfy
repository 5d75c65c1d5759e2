/** What every interleaving keeps of families and requests, whether or not its deletion requests are calm: a family has
one owner, a tombstoned family has no live row, a row in grace has an heir,
    and one request at a time asks for a user. */
module FamilyKin {
  import opened Prelude
  import opened GrantTables
  import opened GrantSteps
  import opened GrantMachine
  import opened GrantInvariants
  import opened FamilyLock
  import opened FamilyShadow
  import opened FamilyBooks
  import opened FamilyTransactions
  import opened FamilyTidy

  /** Families are known, and each has one owner. */
  ghost predicate Homes(db: Db, families: set<FamilyId>) {
    && db.tombstones.Keys <= families
    && (forall i :: i in db.tokens ==> db.tokens[i].family in families)
    && (forall i, j :: i in db.tokens && j in db.tokens && db.tokens[i].family == db.tokens[j].family ==>
          db.tokens[i].grant.user == db.tokens[j].grant.user)
  }

  /** A tombstoned family is revoked, and its rows are not younger than the tombstone (give or take the lag). */
  ghost predicate Sealed(cfg: Config, db: Db) {
    forall f, i :: f in db.tombstones && i in db.tokens && db.tokens[i].family == f ==>
      db.tokens[i].revokedAt.Some? && db.tokens[i].createdAt <= db.tombstones[f].revokedAt + cfg.lag
  }

  ghost predicate JobKin(db: Db, families: set<FamilyId>, r: Running) {
    && (r.phase.Looked? || r.phase.Locked? ==> r.phase.family in families)
    && (r.phase.Judging? && r.phase.tombstoned == Some(false) ==> r.phase.family !in db.tombstones)
    && (r.phase.Asking? ==> r.job.Ask? && RequestDeletionAnswer(db, r.job.user) == Accepted)
  }

  ghost predicate JobsKin(db: Db, families: set<FamilyId>, jobs: map<Pid, Running>) {
    && (forall q :: q in jobs ==> JobKin(db, families, jobs[q]))
    && (forall q, r :: q in jobs && r in jobs && BothAsk(jobs[q], jobs[r]) ==> q == r)
  }

  ghost predicate Kin(cfg: Config, s: Sys) {
    && Homes(s.db, s.families) && Sealed(cfg, s.db) && HeirsOk(cfg, s.db.tokens, s.clock)
    && JobsKin(s.db, s.families, s.jobs)
  }

  // ---------- steps that write nothing ----------

  lemma HeirsLater(cfg: Config, t: Tokens, clock: Time, at: Time)
    requires HeirsOk(cfg, t, clock) && clock <= at
    ensures HeirsOk(cfg, t, at)
  {
    forall p | p in t && InGrace(cfg, t[p], at) ensures exists d :: Heir(cfg, t, t[p], d) {
      assert InGrace(cfg, t[p], clock);
    }
  }

  lemma MoveKeepsKin(s: Sys, pid: Pid, phase: Phase)
    requires JobsKin(s.db, s.families, s.jobs) && pid in s.jobs
    requires JobKin(s.db, s.families, s.jobs[pid].(phase := phase))
    requires phase.Asking? ==> !UserHeld(s, s.jobs[pid].job.user)
    ensures JobsKin(s.db, s.families, s.jobs[pid := s.jobs[pid].(phase := phase)])
  {
  }

  lemma FewerJobsKin(db: Db, families: set<FamilyId>, jobs: map<Pid, Running>, pid: Pid)
    requires JobsKin(db, families, jobs)
    ensures JobsKin(db, families, jobs - {pid})
  {
  }

  lemma LookupKeepsKin(cfg: Config, s: Sys, pid: Pid, at: Time)
    requires Kin(cfg, s) && Can(cfg, s, Lookup(at, pid))
    ensures Kin(cfg, Do(cfg, s, Lookup(at, pid)))
  {
    var found := Found(s.db, s.jobs[pid].job);
    HeirsLater(cfg, s.db.tokens, s.clock, at);
    if found.Some? {
      MoveKeepsKin(s, pid, Looked(s.db.tokens[found.value].family, s.db.tokens[found.value].grant.user));
    } else {
      FewerJobsKin(s.db, s.families, s.jobs, pid);
    }
  }

  lemma ReloadKeepsKin(cfg: Config, s: Sys, pid: Pid, at: Time)
    requires Kin(cfg, s) && Can(cfg, s, Reload(at, pid))
    ensures Kin(cfg, Do(cfg, s, Reload(at, pid)))
  {
    var r, found := s.jobs[pid], Found(s.db, s.jobs[pid].job);
    HeirsLater(cfg, s.db.tokens, s.clock, at);
    if found.Some? {
      MoveKeepsKin(s, pid, Reading(r.phase.family, r.phase.ticket, found.value, s.db.tokens[found.value]));
    } else {
      FewerJobsKin(s.db, s.families, s.jobs, pid);
    }
  }

  lemma CheckKeepsKin(cfg: Config, s: Sys, pid: Pid, at: Time)
    requires Kin(cfg, s) && Can(cfg, s, Check(at, pid))
    ensures Kin(cfg, Do(cfg, s, Check(at, pid)))
  {
    var r := s.jobs[pid];
    HeirsLater(cfg, s.db.tokens, s.clock, at);
    if Validate(s.db, r.phase.row, r.job.p, at).None? {
      MoveKeepsKin(s, pid, Checked(r, at).phase);
    } else {
      FewerJobsKin(s.db, s.families, s.jobs, pid);
    }
  }

  lemma SnapshotKeepsKin(cfg: Config, s: Sys, pid: Pid, at: Time)
    requires Kin(cfg, s) && Can(cfg, s, Snapshot(at, pid))
    ensures Kin(cfg, Do(cfg, s, Snapshot(at, pid)))
  {
    var r := s.jobs[pid];
    HeirsLater(cfg, s.db.tokens, s.clock, at);
    if RequestDeletionAnswer(s.db, r.job.user) == Accepted {
      MoveKeepsKin(s, pid, Asking(Unrevokeds(s.db.tokens, r.job.user)));
    } else {
      FewerJobsKin(s.db, s.families, s.jobs, pid);
    }
  }

  lemma QueryKeepsKin(cfg: Config, s: Sys, step: Step)
    requires Kin(cfg, s) && Can(cfg, s, step) && (step.SeeTombstone? || step.SeeOnPurpose? || step.SeeChildren?)
    ensures Kin(cfg, Do(cfg, s, step))
  {
    var s2 := Do(cfg, s, step);
    HeirsLater(cfg, s.db.tokens, s.clock, step.at);
    assert JobKin(s.db, s.families, s.jobs[step.pid]);
    MoveKeepsKin(s, step.pid, s2.jobs[step.pid].phase);
  }

  lemma StartKeepsKin(cfg: Config, s: Sys, step: Step)
    requires Kin(cfg, s) && Can(cfg, s, step) && (step.Spawn? || step.Lock?)
    ensures Kin(cfg, Do(cfg, s, step))
  {
    HeirsLater(cfg, s.db.tokens, s.clock, step.at);
    if step.Lock? {
      assert JobKin(s.db, s.families, s.jobs[step.pid]);
      MoveKeepsKin(s, step.pid, Do(cfg, s, step).jobs[step.pid].phase);
    }
  }

  lemma ReadingKeepsKin(cfg: Config, s: Sys, step: Step)
    requires Kin(cfg, s) && Can(cfg, s, step) && !step.Commit? && !step.Env?
    ensures Kin(cfg, Do(cfg, s, step))
  {
    match step
    case Lookup(at, pid) => LookupKeepsKin(cfg, s, pid, at);
    case Reload(at, pid) => ReloadKeepsKin(cfg, s, pid, at);
    case Check(at, pid) => CheckKeepsKin(cfg, s, pid, at);
    case Snapshot(at, pid) => SnapshotKeepsKin(cfg, s, pid, at);
    case Spawn(_, _, _) => StartKeepsKin(cfg, s, step);
    case Lock(_, _) => StartKeepsKin(cfg, s, step);
    case _ => QueryKeepsKin(cfg, s, step);
  }

  // ---------- rows only fade ----------

  /** Rows are deleted or freshly revoked, and no relative of a row in grace is deleted. */
  ghost predicate Spares(cfg: Config, t: Tokens, t2: Tokens, at: Time) {
    && t2.Keys <= t.Keys
    && (forall i :: i in t2 ==> FadedRow(cfg, t[i], t2[i], at))
    && (forall p, d :: p in t2 && InGrace(cfg, t[p], at) && Relative(cfg, t, t[p], d) ==> d in t2)
  }

  lemma SparingKeepsHeirs(cfg: Config, t: Tokens, t2: Tokens, clock: Time, at: Time)
    requires RowsOk(cfg, t, clock) && HeirsOk(cfg, t, clock) && Spares(cfg, t, t2, at) && clock <= at
    ensures HeirsOk(cfg, t2, at)
  {
    forall p | p in t2 && InGrace(cfg, t2[p], at) ensures exists d :: Heir(cfg, t2, t2[p], d) {
      var d :| Heir(cfg, t, t[p], d);
      assert Heir(cfg, t2, t2[p], d);
    }
  }

  lemma SparingKeepsHomes(cfg: Config, db: Db, db2: Db, families: set<FamilyId>, at: Time)
    requires Homes(db, families) && Spares(cfg, db.tokens, db2.tokens, at) && db2.tombstones.Keys <= families
    ensures Homes(db2, families)
  {
  }

  /** Tombstones are old ones, or this family's, whose rows are all revoked. */
  lemma SparingKeepsSealed(cfg: Config, db: Db, db2: Db, clock: Time, at: Time)
    requires RowsOk(cfg, db.tokens, clock) && clock <= at && Sealed(cfg, db) && Spares(cfg, db.tokens, db2.tokens, at)
    requires forall f :: f in db2.tombstones ==>
      || (f in db.tombstones && db2.tombstones[f] == db.tombstones[f])
      || (at - cfg.lag <= db2.tombstones[f].revokedAt &&
          forall i :: i in db2.tokens && db2.tokens[i].family == f ==> db2.tokens[i].revokedAt.Some?)
    ensures Sealed(cfg, db2)
  {
  }

  /** One family is ended. */
  lemma KillingKeepsFamilies(cfg: Config, db: Db, families: set<FamilyId>, f: FamilyId, tomb: Tombstone, clock: Time,
                             at: Time)
    requires RowsOk(cfg, db.tokens, clock) && clock <= at && at - cfg.lag <= tomb.revokedAt <= at && f in families
    requires Homes(db, families) && Sealed(cfg, db) && HeirsOk(cfg, db.tokens, clock)
    ensures var db2 := KillFamily(db, f, tomb);
      Homes(db2, families) && Sealed(cfg, db2) && HeirsOk(cfg, db2.tokens, at)
  {
    var db2 := KillFamily(db, f, tomb);
    assert Spares(cfg, db.tokens, db2.tokens, at);
    SparingKeepsHeirs(cfg, db.tokens, db2.tokens, clock, at);
    SparingKeepsHomes(cfg, db, db2, families, at);
    SparingKeepsSealed(cfg, db, db2, clock, at);
  }

  lemma KillingKeepsJobs(s: Sys, pid: Pid, tomb: Tombstone)
    requires JobsKin(s.db, s.families, s.jobs) && LocksOk(s.jobs, s.locks) && pid in s.jobs && s.jobs[pid].phase.Holds()
    ensures JobsKin(KillFamily(s.db, s.jobs[pid].phase.family, tomb), s.families, s.jobs - {pid})
  {
    var db2, jobs2 := KillFamily(s.db, s.jobs[pid].phase.family, tomb), s.jobs - {pid};
    forall q | q in jobs2 ensures JobKin(db2, s.families, jobs2[q]) {
      assert JobKin(s.db, s.families, s.jobs[q]);
      if s.jobs[q].phase.Judging? {
        OthersHoldElsewhere(s, pid, q);
      }
    }
  }

  lemma RequestKeepsJobs(s: Sys, pid: Pid, u: UserId)
    requires JobsKin(s.db, s.families, s.jobs) && pid in s.jobs && s.jobs[pid].phase.Asking? &&
      s.jobs[pid].job == Ask(u)
    ensures JobsKin(AskedDb(s.db, u, s.jobs[pid].phase.seen, s.jobs[pid].since), s.families, s.jobs - {pid})
  {
    var jobs2 := s.jobs - {pid};
    var db2 := AskedDb(s.db, u, s.jobs[pid].phase.seen, s.jobs[pid].since);
    forall q | q in jobs2 ensures JobKin(db2, s.families, jobs2[q]) {
      assert JobKin(s.db, s.families, s.jobs[q]);
      assert !BothAsk(s.jobs[q], s.jobs[pid]);
    }
  }

  lemma RequestKeepsFamilies(cfg: Config, db: Db, families: set<FamilyId>, u: UserId, seen: set<TokenId>, now: Time,
                             clock: Time, at: Time)
    requires RowsOk(cfg, db.tokens, clock) && clock <= at && at - cfg.lag <= now <= at
    requires Homes(db, families) && Sealed(cfg, db) && HeirsOk(cfg, db.tokens, clock)
    ensures var db2 := AskedDb(db, u, seen, now);
      Homes(db2, families) && Sealed(cfg, db2) && HeirsOk(cfg, db2.tokens, at)
  {
    var db2 := AskedDb(db, u, seen, now);
    assert Spares(cfg, db.tokens, db2.tokens, at);
    SparingKeepsHeirs(cfg, db.tokens, db2.tokens, clock, at);
    SparingKeepsHomes(cfg, db, db2, families, at);
    SparingKeepsSealed(cfg, db, db2, clock, at);
  }

  // ---------- a rotation writes ----------

  lemma AddingKeepsHeirs(cfg: Config, t: Tokens, t2: Tokens, r: Running, clock: Time, at: Time)
    requires RowsOk(cfg, t, clock) && HeirsOk(cfg, t, clock) && clock <= at && Adds(cfg, t, t2, r, at)
    requires t[r.phase.id] == r.phase.row && r.phase.now <= clock && at <= r.since + cfg.lag
    ensures HeirsOk(cfg, t2, at)
  {
    forall p | p in t2 && InGrace(cfg, t2[p], at) ensures exists d :: Heir(cfg, t2, t2[p], d) {
      if t2[p].family == r.phase.row.family {
        assert Heir(cfg, t2, t2[p], r.job.newId);
      } else {
        var d :| Heir(cfg, t, t[p], d);
        assert Heir(cfg, t2, t2[p], d);
      }
    }
  }

  lemma AddingKeepsHomes(cfg: Config, db: Db, t2: Tokens, families: set<FamilyId>, r: Running, at: Time)
    requires Homes(db, families) && Adds(cfg, db.tokens, t2, r, at) && db.tokens[r.phase.id] == r.phase.row
    ensures Homes(db.(tokens := t2), families)
  {
  }

  lemma AddingKeepsSealed(cfg: Config, db: Db, t2: Tokens, r: Running, at: Time)
    requires Sealed(cfg, db) && Adds(cfg, db.tokens, t2, r, at) && db.tokens[r.phase.id] == r.phase.row
    requires r.phase.row.family !in db.tombstones
    ensures Sealed(cfg, db.(tokens := t2))
  {
  }

  lemma IssuingKeepsFamilies(cfg: Config, db: Db, families: set<FamilyId>, r: Running, v: Verdict, clock: Time,
                             at: Time)
    requires RowsOk(cfg, db.tokens, clock) && Homes(db, families) && Sealed(cfg, db) && HeirsOk(cfg, db.tokens, clock)
    requires clock <= at && JobTidy(clock, db, r) && JobKin(db, families, r) && r.phase.Judging? &&
      at <= r.since + cfg.lag
    requires r.job.newId !in db.tokens && Settled(cfg, r.phase) == Some(v) && Reply(v).Issued?
    ensures var db2 := Written(cfg, db, r, v);
      Homes(db2, families) && Sealed(cfg, db2) && HeirsOk(cfg, db2.tokens, at) && db2 == db.(tokens := db2.tokens)
  {
    var db2 := Written(cfg, db, r, v);
    IssuingAdds(cfg, db, r, v);
    AddingKeepsHeirs(cfg, db.tokens, db2.tokens, r, clock, at);
    AddingKeepsHomes(cfg, db, db2.tokens, families, r, at);
    AddingKeepsSealed(cfg, db, db2.tokens, r, at);
  }

  lemma IssuingKeepsKin(cfg: Config, s: Sys, pid: Pid, at: Time)
    requires Tidy(cfg, s) && Kin(cfg, s) && Can(cfg, s, Commit(at, pid)) && s.jobs[pid].job.Rotate?
    requires Reply(Settled(cfg, s.jobs[pid].phase).value).Issued?
    ensures Kin(cfg, Do(cfg, s, Commit(at, pid)))
  {
    var r := s.jobs[pid];
    assert JobTidy(s.clock, s.db, r) && NewNames(s.db.tokens, s.ids, s.hashes, r.job) && JobKin(s.db, s.families, r);
    IssuingKeepsFamilies(cfg, s.db, s.families, r, Settled(cfg, r.phase).value, s.clock, at);
    FewerJobsKin(s.db, s.families, s.jobs, pid);
  }

  lemma EndingKeepsKin(cfg: Config, s: Sys, pid: Pid, tomb: Tombstone, result: Result, at: Time)
    requires Tidy(cfg, s) && Kin(cfg, s) && pid in s.jobs && s.jobs[pid].phase.Holds() && s.clock <= at
    requires at - cfg.lag <= tomb.revokedAt <= at
    ensures Kin(cfg, Finish(s, pid, KillFamily(s.db, s.jobs[pid].phase.family, tomb), result).(clock := at))
  {
    assert JobTidy(s.clock, s.db, s.jobs[pid]) && JobKin(s.db, s.families, s.jobs[pid]);
    KillingKeepsFamilies(cfg, s.db, s.families, s.jobs[pid].phase.family, tomb, s.clock, at);
    KillingKeepsJobs(s, pid, tomb);
  }

  lemma CommitKeepsKin(cfg: Config, s: Sys, pid: Pid, at: Time)
    requires cfg.lag >= 0 && Tidy(cfg, s) && Kin(cfg, s) && Can(cfg, s, Commit(at, pid))
    ensures Kin(cfg, Do(cfg, s, Commit(at, pid)))
  {
    var r := s.jobs[pid];
    assert JobTidy(s.clock, s.db, r);
    match r.job
    case Rotate(_, _, _) =>
      var v := Settled(cfg, r.phase).value;
      if Reply(v).Issued? {
        IssuingKeepsKin(cfg, s, pid, at);
      } else if v.Kill? {
        var tomb := Tombstone(r.phase.row.grant.user, ReuseDetected, r.phase.now);
        EndingKeepsKin(cfg, s, pid, tomb, Rotated(Reply(v)), at);
      } else {
        HeirsLater(cfg, s.db.tokens, s.clock, at);
        FewerJobsKin(s.db, s.families, s.jobs, pid);
      }
    case Revoke(_, _, _) =>
      var tomb := Tombstone(r.phase.user, Revoked, r.since);
      EndingKeepsKin(cfg, s, pid, tomb, RevokedRows(Unrevoked(s.db.tokens, r.phase.family)), at);
    case Ask(u) =>
      RequestKeepsFamilies(cfg, s.db, s.families, u, r.phase.seen, r.since, s.clock, at);
      RequestKeepsJobs(s, pid, u);
  }

  // ---------- the surroundings ----------

  lemma WipingSpares(cfg: Config, db: Db, families: set<FamilyId>, u: UserId, now: Time, at: Time)
    requires Homes(db, families)
    ensures Spares(cfg, db.tokens, Wipe(db, u, now).tokens, at)
  {
  }

  lemma SurroundingsSpare(cfg: Config, s: Sys, op: Op)
    requires Sound(cfg) && RowsOk(cfg, s.db.tokens, s.clock) && Homes(s.db, s.families) && EnvReady(cfg, s, op) &&
      !op.Open?
    ensures Spares(cfg, s.db.tokens, DbAfter(cfg, s.db, op).tokens, op.at)
  {
    if op.CleanRevoked? || op.CleanExpired? {
      CleaningFades(cfg, s.db.tokens, op.victims, s.clock, op.sampledAt, op.at);
    } else if op.WipeUser? {
      WipingSpares(cfg, s.db, s.families, op.user, op.sampledAt, op.at);
    } else {
      assert DbAfter(cfg, s.db, op).tokens == s.db.tokens;
    }
  }

  lemma SurroundingsKeepJobs(cfg: Config, s: Sys, op: Op)
    requires JobsKin(s.db, s.families, s.jobs) && EnvReady(cfg, s, op) && !op.Open?
    ensures JobsKin(DbAfter(cfg, s.db, op), s.families, s.jobs)
  {
    forall q | q in s.jobs ensures JobKin(DbAfter(cfg, s.db, op), s.families, s.jobs[q]) {
      assert JobKin(s.db, s.families, s.jobs[q]);
    }
  }

  lemma SurroundingsAddNoTombstone(cfg: Config, s: Sys, op: Op)
    requires EnvReady(cfg, s, op)
    ensures var ts, ts2 := s.db.tombstones, DbAfter(cfg, s.db, op).tombstones;
      ts2.Keys <= ts.Keys && forall f :: f in ts2 ==> ts2[f] == ts[f]
  {
  }

  lemma SparingKeepsFamilies(cfg: Config, db: Db, db2: Db, families: set<FamilyId>, clock: Time, at: Time)
    requires RowsOk(cfg, db.tokens, clock) && clock <= at && Spares(cfg, db.tokens, db2.tokens, at)
    requires Homes(db, families) && Sealed(cfg, db) && HeirsOk(cfg, db.tokens, clock)
    requires db2.tombstones.Keys <= db.tombstones.Keys
    requires forall f :: f in db2.tombstones ==> db2.tombstones[f] == db.tombstones[f]
    ensures Homes(db2, families) && Sealed(cfg, db2) && HeirsOk(cfg, db2.tokens, at)
  {
    SparingKeepsHeirs(cfg, db.tokens, db2.tokens, clock, at);
    SparingKeepsHomes(cfg, db, db2, families, at);
    SparingKeepsSealed(cfg, db, db2, clock, at);
  }

  lemma QuietSurroundingsKeepKin(cfg: Config, s: Sys, op: Op)
    requires Sound(cfg) && Tidy(cfg, s) && Kin(cfg, s) && Can(cfg, s, Env(op.at, op)) && !op.Open?
    ensures Kin(cfg, Do(cfg, s, Env(op.at, op)))
  {
    SurroundingsSpare(cfg, s, op);
    SurroundingsKeepJobs(cfg, s, op);
    SurroundingsAddNoTombstone(cfg, s, op);
    SparingKeepsFamilies(cfg, s.db, DbAfter(cfg, s.db, op), s.families, s.clock, op.at);
  }

  lemma OpeningKeepsKin(cfg: Config, s: Sys, op: Op)
    requires Tidy(cfg, s) && Kin(cfg, s) && Can(cfg, s, Env(op.at, op)) && op.Open?
    ensures Kin(cfg, Do(cfg, s, Env(op.at, op)))
  {
    var s2, t := Do(cfg, s, Env(op.at, op)), s.db.tokens;
    forall p | p in s2.db.tokens && InGrace(cfg, s2.db.tokens[p], op.at)
      ensures exists d :: Heir(cfg, s2.db.tokens, s2.db.tokens[p], d)
    {
      var d :| Heir(cfg, t, t[p], d);
      assert Heir(cfg, s2.db.tokens, s2.db.tokens[p], d);
    }
    forall q | q in s2.jobs ensures JobKin(s2.db, s2.families, s2.jobs[q]) {
      assert JobKin(s.db, s.families, s.jobs[q]);
    }
  }

  // ---------- every interleaving ----------

  lemma StepKeepsKin(cfg: Config, s: Sys, step: Step)
    requires Sound(cfg) && Tidy(cfg, s) && Kin(cfg, s) && Can(cfg, s, step)
    ensures Kin(cfg, Do(cfg, s, step))
  {
    if step.Commit? {
      CommitKeepsKin(cfg, s, step.pid, step.at);
    } else if !step.Env? {
      ReadingKeepsKin(cfg, s, step);
    } else if step.op.Open? {
      OpeningKeepsKin(cfg, s, step.op);
    } else {
      QuietSurroundingsKeepKin(cfg, s, step.op);
    }
  }

  lemma {:induction false} RunKeepsKin(cfg: Config, s: Sys, steps: seq<Step>)
    requires Sound(cfg) && Tidy(cfg, s) && Kin(cfg, s) && Feasible(cfg, s, steps)
    ensures Tidy(cfg, Final(cfg, s, steps)) && Kin(cfg, Final(cfg, s, steps))
    decreases |steps|
  {
    if steps == [] {
    } else {
      StepIsTidy(cfg, s, steps[0]);
      StepKeepsKin(cfg, s, steps[0]);
      RunKeepsKin(cfg, Do(cfg, s, steps[0]), steps[1..]);
    }
  }

  /** Every state any interleaving leads to is tidy, and its families are in order. */
  lemma InterleavingsKeepKin(cfg: Config, start: Time, steps: seq<Step>)
    requires Sound(cfg) && Feasible(cfg, Begin(start), steps)
    ensures Tidy(cfg, Final(cfg, Begin(start), steps)) && Kin(cfg, Final(cfg, Begin(start), steps))
  {
    RunKeepsKin(cfg, Begin(start), steps);
  }
}
