/** What every interleaving keeps, whether or not its deletion requests are calm: locks, held rows, names and times. */
module FamilyTidy {
  import opened Prelude
  import opened GrantTables
  import opened GrantSteps
  import opened GrantMachine
  import opened GrantInvariants
  import opened FamilyLock
  import opened FamilyShadow
  import opened FamilyBooks
  import opened FamilyTransactions

  ghost predicate JobTidy(clock: Time, db: Db, r: Running) {
    && r.since <= clock
    && (r.phase.Looked? || r.phase.Locked? ==> !r.job.Ask?)
    && (Waits(r) ==> HashHome(db, r))
    && (r.phase.HoldsRow() ==> r.job.Rotate? && RowThere(db, r.phase) && r.phase.row.hash == r.job.p.hash)
    && (r.phase.Judging? ==>
          && r.since <= r.phase.now <= clock && r.phase.now < r.phase.row.expiresAt
          && r.job.p.subject == r.phase.row.grant.user)
  }

  ghost predicate JobsTidy(clock: Time, db: Db, jobs: map<Pid, Running>) {
    forall q :: q in jobs ==> JobTidy(clock, db, jobs[q])
  }

  /** The identifiers a rotation has reserved are out of use. */
  ghost predicate NewNames(t: Tokens, ids: set<TokenId>, hashes: set<TokenHash>, job: Job) {
    job.Rotate? ==>
      && job.newId in ids && job.newHash in hashes && job.p.hash in hashes && job.newId !in t
      && forall i :: i in t ==> t[i].hash != job.newHash
  }

  ghost predicate RowNames(t: Tokens, ids: set<TokenId>, hashes: set<TokenHash>) {
    t.Keys <= ids && UniqueHashes(t) && forall i :: i in t ==> t[i].hash in hashes
  }

  predicate Strange(job: Job, job2: Job) {
    job.Rotate? && job2.Rotate? ==> job.p.hash != job2.newHash
  }

  ghost predicate NamesTidy(t: Tokens, ids: set<TokenId>, hashes: set<TokenHash>, jobs: map<Pid, Running>) {
    && RowNames(t, ids, hashes)
    && (forall q :: q in jobs ==> NewNames(t, ids, hashes, jobs[q].job))
    && (forall q, r :: q in jobs && r in jobs ==> Strange(jobs[q].job, jobs[r].job))
    && (forall q, r :: q in jobs && r in jobs && q != r ==> Apart(jobs[q].job, jobs[r].job))
  }

  ghost predicate Tidy(cfg: Config, s: Sys) {
    && LocksOk(s.jobs, s.locks)
    && RowsOk(cfg, s.db.tokens, s.clock)
    && JobsTidy(s.clock, s.db, s.jobs)
    && NamesTidy(s.db.tokens, s.ids, s.hashes, s.jobs)
  }

  // ---------- steps that write nothing ----------

  lemma LaterIsTidy(clock: Time, at: Time, db: Db, jobs: map<Pid, Running>)
    requires JobsTidy(clock, db, jobs) && clock <= at
    ensures JobsTidy(at, db, jobs)
  {
    forall q | q in jobs ensures JobTidy(at, db, jobs[q]) {
      assert JobTidy(clock, db, jobs[q]);
    }
  }

  lemma NamesStay(t: Tokens, ids: set<TokenId>, hashes: set<TokenHash>, jobs: map<Pid, Running>, jobs2: map<Pid,
                  Running>)
    requires NamesTidy(t, ids, hashes, jobs)
    requires forall q :: q in jobs2 ==> q in jobs && jobs2[q].job == jobs[q].job
    ensures NamesTidy(t, ids, hashes, jobs2)
  {
  }

  /** Another phase of the same transaction. */
  lemma MoveIsTidy(cfg: Config, s: Sys, pid: Pid, phase: Phase, at: Time)
    requires Tidy(cfg, s) && pid in s.jobs && s.clock <= at && JobTidy(at, s.db, s.jobs[pid].(phase := phase))
    requires phase.Holds() == s.jobs[pid].phase.Holds() && (phase.Holds() ==> phase.family == s.jobs[pid].phase.family)
    ensures Tidy(cfg, Move(s, pid, phase).(clock := at))
  {
    var s2 := Move(s, pid, phase).(clock := at);
    LocksMove(s.jobs, s.locks, pid, s.jobs[pid].(phase := phase));
    LaterIsTidy(s.clock, at, s.db, s.jobs);
    NamesStay(s.db.tokens, s.ids, s.hashes, s.jobs, s2.jobs);
  }

  lemma LockIsTidy(cfg: Config, s: Sys, pid: Pid, at: Time)
    requires Tidy(cfg, s) && Can(cfg, s, Lock(at, pid))
    ensures Tidy(cfg, Do(cfg, s, Lock(at, pid)))
  {
    var ph, s2 := s.jobs[pid].phase, Do(cfg, s, Lock(at, pid));
    assert JobTidy(s.clock, s.db, s.jobs[pid]);
    LocksTaken(s.jobs, s.locks, pid, s2.jobs[pid]);
    LaterIsTidy(s.clock, at, s.db, s.jobs);
    NamesStay(s.db.tokens, s.ids, s.hashes, s.jobs, s2.jobs);
  }

  /** A transaction ends, and the rest is as tidy with the new database. */
  lemma FinishIsTidy(cfg: Config, s: Sys, pid: Pid, db2: Db, result: Result, at: Time)
    requires Tidy(cfg, s) && pid in s.jobs && RowsOk(cfg, db2.tokens, at) && JobsTidy(at, db2, s.jobs - {pid})
    requires NamesTidy(db2.tokens, s.ids, s.hashes, s.jobs - {pid})
    ensures Tidy(cfg, Finish(s, pid, db2, result).(clock := at))
  {
    LocksFinish(s, pid, db2, result);
  }

  lemma RefusalIsTidy(cfg: Config, s: Sys, pid: Pid, result: Result, at: Time)
    requires Tidy(cfg, s) && pid in s.jobs && s.clock <= at
    ensures Tidy(cfg, Finish(s, pid, s.db, result).(clock := at))
  {
    LaterIsTidy(s.clock, at, s.db, s.jobs);
    NamesStay(s.db.tokens, s.ids, s.hashes, s.jobs, s.jobs - {pid});
    FinishIsTidy(cfg, s, pid, s.db, result, at);
  }

  lemma SpawnIsTidy(cfg: Config, s: Sys, pid: Pid, job: Job, at: Time)
    requires Tidy(cfg, s) && Can(cfg, s, Spawn(at, pid, job))
    ensures Tidy(cfg, Do(cfg, s, Spawn(at, pid, job)))
  {
    var s2 := Do(cfg, s, Spawn(at, pid, job));
    LocksMove(s.jobs, s.locks, pid, s2.jobs[pid]);
    LaterIsTidy(s.clock, at, s.db, s.jobs);
    assert forall q :: q in s.jobs ==> NewNames(s.db.tokens, s.ids, s.hashes, s.jobs[q].job);
  }

  lemma LookupIsTidy(cfg: Config, s: Sys, pid: Pid, at: Time)
    requires Tidy(cfg, s) && Can(cfg, s, Lookup(at, pid))
    ensures Tidy(cfg, Do(cfg, s, Lookup(at, pid)))
  {
    var r, found := s.jobs[pid], Found(s.db, s.jobs[pid].job);
    assert JobTidy(s.clock, s.db, r);
    if found.Some? {
      MoveIsTidy(cfg, s, pid, Looked(s.db.tokens[found.value].family, s.db.tokens[found.value].grant.user), at);
    } else {
      RefusalIsTidy(cfg, s, pid, NotFound(r.job), at);
    }
  }

  lemma ReloadIsTidy(cfg: Config, s: Sys, pid: Pid, at: Time)
    requires Tidy(cfg, s) && Can(cfg, s, Reload(at, pid))
    ensures Tidy(cfg, Do(cfg, s, Reload(at, pid)))
  {
    var r, found := s.jobs[pid], Found(s.db, s.jobs[pid].job);
    assert JobTidy(s.clock, s.db, r);
    if found.Some? {
      MoveIsTidy(cfg, s, pid, Reading(r.phase.family, r.phase.ticket, found.value, s.db.tokens[found.value]), at);
    } else {
      RefusalIsTidy(cfg, s, pid, NotFound(r.job), at);
    }
  }

  lemma CheckIsTidy(cfg: Config, s: Sys, pid: Pid, at: Time)
    requires Tidy(cfg, s) && Can(cfg, s, Check(at, pid))
    ensures Tidy(cfg, Do(cfg, s, Check(at, pid)))
  {
    var r := s.jobs[pid];
    var why := Validate(s.db, r.phase.row, r.job.p, at);
    assert JobTidy(s.clock, s.db, r);
    if why.None? {
      MoveIsTidy(cfg, s, pid, Checked(r, at).phase, at);
    } else {
      RefusalIsTidy(cfg, s, pid, Rotated(Refused(why.value)), at);
    }
  }

  lemma QueryIsTidy(cfg: Config, s: Sys, step: Step)
    requires Tidy(cfg, s) && Can(cfg, s, step) && (step.SeeTombstone? || step.SeeOnPurpose? || step.SeeChildren?)
    ensures Tidy(cfg, Do(cfg, s, step))
  {
    var ph := s.jobs[step.pid].phase;
    assert JobTidy(s.clock, s.db, s.jobs[step.pid]);
    if step.SeeTombstone? {
      MoveIsTidy(cfg, s, step.pid, ph.(tombstoned := Some(ph.family in s.db.tombstones)), step.at);
    } else if step.SeeOnPurpose? {
      MoveIsTidy(cfg, s, step.pid, ph.(onPurpose := Some(HasRevokedOnPurpose(s.db.tokens, ph.family))), step.at);
    } else {
      MoveIsTidy(cfg, s, step.pid, ph.(children := Some(|Children(s.db.tokens, ph.id)|)), step.at);
    }
  }

  lemma SnapshotIsTidy(cfg: Config, s: Sys, pid: Pid, at: Time)
    requires Tidy(cfg, s) && Can(cfg, s, Snapshot(at, pid))
    ensures Tidy(cfg, Do(cfg, s, Snapshot(at, pid)))
  {
    var r := s.jobs[pid];
    var answer := RequestDeletionAnswer(s.db, r.job.user);
    assert JobTidy(s.clock, s.db, r);
    if answer == Accepted {
      MoveIsTidy(cfg, s, pid, Asking(Unrevokeds(s.db.tokens, r.job.user)), at);
    } else {
      RefusalIsTidy(cfg, s, pid, Asked(answer), at);
    }
  }

  // ---------- rows only fade ----------

  /** Rows are deleted or freshly revoked, except those some transaction holds. */
  ghost predicate Gentle(cfg: Config, t: Tokens, t2: Tokens, jobs: map<Pid, Running>, at: Time) {
    && t2.Keys <= t.Keys
    && (forall i :: i in t2 ==> FadedRow(cfg, t[i], t2[i], at))
    && (forall q :: q in jobs && jobs[q].phase.HoldsRow() && jobs[q].phase.id in t ==>
          jobs[q].phase.id in t2 && t2[jobs[q].phase.id] == t[jobs[q].phase.id])
  }

  lemma GentleKeepsJobs(cfg: Config, db: Db, db2: Db, jobs: map<Pid, Running>, clock: Time, at: Time)
    requires JobsTidy(clock, db, jobs) && Gentle(cfg, db.tokens, db2.tokens, jobs, at) && clock <= at
    ensures JobsTidy(at, db2, jobs)
  {
    forall q | q in jobs ensures JobTidy(at, db2, jobs[q]) {
      assert JobTidy(clock, db, jobs[q]);
    }
  }

  lemma GentleKeepsNames(cfg: Config, t: Tokens, t2: Tokens, ids: set<TokenId>, hashes: set<TokenHash>, jobs: map<Pid,
                         Running>,
                         at: Time)
    requires NamesTidy(t, ids, hashes, jobs) && Gentle(cfg, t, t2, jobs, at)
    ensures NamesTidy(t2, ids, hashes, jobs)
  {
    forall q | q in jobs ensures NewNames(t2, ids, hashes, jobs[q].job) {
      assert NewNames(t, ids, hashes, jobs[q].job);
    }
  }

  lemma GentleKeepsRows(cfg: Config, t: Tokens, t2: Tokens, jobs: map<Pid, Running>, clock: Time, at: Time)
    requires RowsOk(cfg, t, clock) && Gentle(cfg, t, t2, jobs, at) && clock <= at
    ensures RowsOk(cfg, t2, at)
  {
  }

  lemma GentleFinishIsTidy(cfg: Config, s: Sys, pid: Pid, db2: Db, result: Result, at: Time)
    requires Tidy(cfg, s) && pid in s.jobs && s.clock <= at && Gentle(cfg, s.db.tokens, db2.tokens, s.jobs - {pid}, at)
    ensures Tidy(cfg, Finish(s, pid, db2, result).(clock := at))
  {
    var jobs2 := s.jobs - {pid};
    assert JobsTidy(s.clock, s.db, jobs2);
    NamesStay(s.db.tokens, s.ids, s.hashes, s.jobs, jobs2);
    GentleKeepsJobs(cfg, s.db, db2, jobs2, s.clock, at);
    GentleKeepsNames(cfg, s.db.tokens, db2.tokens, s.ids, s.hashes, jobs2, at);
    GentleKeepsRows(cfg, s.db.tokens, db2.tokens, jobs2, s.clock, at);
    FinishIsTidy(cfg, s, pid, db2, result, at);
  }

  /** Ending a family touches no row anybody else holds. */
  lemma KillingIsGentle(cfg: Config, s: Sys, pid: Pid, tomb: Tombstone, at: Time)
    requires Tidy(cfg, s) && pid in s.jobs && s.jobs[pid].phase.Holds() && at - cfg.lag <= tomb.revokedAt <= at
    ensures Gentle(cfg, s.db.tokens, KillFamily(s.db, s.jobs[pid].phase.family, tomb).tokens, s.jobs - {pid}, at)
  {
    var jobs2 := s.jobs - {pid};
    forall q | q in jobs2 && jobs2[q].phase.HoldsRow()
      ensures jobs2[q].phase.id in s.db.tokens && s.db.tokens[jobs2[q].phase.id].family != s.jobs[pid].phase.family
    {
      assert JobTidy(s.clock, s.db, s.jobs[q]);
      OthersHoldElsewhere(s, pid, q);
    }
  }

  lemma AskingIsGentle(cfg: Config, s: Sys, u: UserId, seen: set<TokenId>, now: Time, at: Time)
    requires at - cfg.lag <= now <= at && forall i :: i in seen ==> !RowHeld(s, i)
    ensures Gentle(cfg, s.db.tokens, AskedDb(s.db, u, seen, now).tokens, s.jobs, at)
  {
  }

  // ---------- a rotation writes ----------

  /** The new row, its parent marked or not. */
  ghost predicate Adds(cfg: Config, t: Tokens, t2: Tokens, r: Running, at: Time) {
    && r.job.Rotate? && r.phase.Judging? && r.phase.id in t && r.job.newId !in t
    && t2.Keys == t.Keys + {r.job.newId}
    && t2[r.job.newId] == ChildOf(cfg, r.phase.row, r.phase.id, r.job.newHash, r.since)
    && (forall i :: i in t && i != r.phase.id ==> t2[i] == t[i])
    && (|| t2[r.phase.id] == t[r.phase.id]
        || t2[r.phase.id] == t[r.phase.id].(usedAt := Some(r.phase.now), revokedAt := Some(r.phase.now)))
  }

  lemma IssuingAdds(cfg: Config, db: Db, r: Running, v: Verdict)
    requires r.job.Rotate? && r.phase.Judging? && r.phase.id in db.tokens && r.job.newId !in db.tokens
    requires v.Redeem? || v.GraceChild?
    ensures Adds(cfg, db.tokens, Written(cfg, db, r, v).tokens, r, r.phase.now)
  {
  }

  lemma AddingKeepsJobs(cfg: Config, s: Sys, pid: Pid, db2: Db, at: Time)
    requires Tidy(cfg, s) && pid in s.jobs && s.clock <= at && Adds(cfg, s.db.tokens, db2.tokens, s.jobs[pid], at)
    ensures JobsTidy(at, db2, s.jobs - {pid})
  {
    var r, jobs2 := s.jobs[pid], s.jobs - {pid};
    assert JobTidy(s.clock, s.db, r);
    forall q | q in jobs2 ensures JobTidy(at, db2, jobs2[q]) {
      assert JobTidy(s.clock, s.db, s.jobs[q]) && Strange(s.jobs[q].job, r.job);
      if s.jobs[q].phase.HoldsRow() {
        OthersHoldElsewhere(s, pid, q);
      }
    }
  }

  lemma AddingKeepsNames(cfg: Config, s: Sys, pid: Pid, t2: Tokens, at: Time)
    requires Tidy(cfg, s) && pid in s.jobs && Adds(cfg, s.db.tokens, t2, s.jobs[pid], at)
    ensures NamesTidy(t2, s.ids, s.hashes, s.jobs - {pid})
  {
    var r, jobs2, t := s.jobs[pid], s.jobs - {pid}, s.db.tokens;
    assert NewNames(t, s.ids, s.hashes, r.job);
    forall q | q in jobs2 ensures NewNames(t2, s.ids, s.hashes, jobs2[q].job) {
      assert NewNames(t, s.ids, s.hashes, s.jobs[q].job) && Apart(s.jobs[q].job, r.job);
    }
    assert RowNames(t2, s.ids, s.hashes);
    NamesStay(t, s.ids, s.hashes, s.jobs, jobs2);
  }

  lemma AddingKeepsRows(cfg: Config, s: Sys, pid: Pid, t2: Tokens, at: Time)
    requires Tidy(cfg, s) && pid in s.jobs && s.clock <= at && Adds(cfg, s.db.tokens, t2, s.jobs[pid], at)
    ensures RowsOk(cfg, t2, at)
  {
    assert JobTidy(s.clock, s.db, s.jobs[pid]);
  }

  lemma CommitRotationIsTidy(cfg: Config, s: Sys, pid: Pid, at: Time)
    requires cfg.lag >= 0 && Tidy(cfg, s) && Can(cfg, s, Commit(at, pid)) && s.jobs[pid].job.Rotate?
    ensures Tidy(cfg, Do(cfg, s, Commit(at, pid)))
  {
    var r := s.jobs[pid];
    var v := Settled(cfg, r.phase).value;
    var db2 := Written(cfg, s.db, r, v);
    assert JobTidy(s.clock, s.db, r) && NewNames(s.db.tokens, s.ids, s.hashes, r.job);
    if v.Redeem? || v.GraceChild? {
      IssuingAdds(cfg, s.db, r, v);
      AddingKeepsJobs(cfg, s, pid, db2, at);
      AddingKeepsNames(cfg, s, pid, db2.tokens, at);
      AddingKeepsRows(cfg, s, pid, db2.tokens, at);
      FinishIsTidy(cfg, s, pid, db2, Rotated(Reply(v)), at);
    } else if v.Kill? {
      KillingIsGentle(cfg, s, pid, Tombstone(r.phase.row.grant.user, ReuseDetected, r.phase.now), at);
      GentleFinishIsTidy(cfg, s, pid, db2, Rotated(Reply(v)), at);
    } else {
      RefusalIsTidy(cfg, s, pid, Rotated(Reply(v)), at);
    }
  }

  lemma CommitIsTidy(cfg: Config, s: Sys, pid: Pid, at: Time)
    requires cfg.lag >= 0 && Tidy(cfg, s) && Can(cfg, s, Commit(at, pid))
    ensures Tidy(cfg, Do(cfg, s, Commit(at, pid)))
  {
    var r := s.jobs[pid];
    assert JobTidy(s.clock, s.db, r);
    match r.job
    case Rotate(_, _, _) => CommitRotationIsTidy(cfg, s, pid, at);
    case Revoke(_, _, _) =>
      var f, tomb := r.phase.family, Tombstone(r.phase.user, Revoked, r.since);
      KillingIsGentle(cfg, s, pid, tomb, at);
      GentleFinishIsTidy(cfg, s, pid, KillFamily(s.db, f, tomb), RevokedRows(Unrevoked(s.db.tokens, f)), at);
    case Ask(u) =>
      AskingIsGentle(cfg, s, u, r.phase.seen, r.since, at);
      GentleFinishIsTidy(cfg, s, pid, AskedDb(s.db, u, r.phase.seen, r.since), Asked(Accepted), at);
  }

  // ---------- the surroundings ----------

  lemma HeldRowsStay(cfg: Config, s: Sys, op: Op)
    requires EnvReady(cfg, s, op) && !op.Open? && JobsTidy(s.clock, s.db, s.jobs)
    ensures Gentle(cfg, s.db.tokens, DbAfter(cfg, s.db, op).tokens, s.jobs, op.at)
  {
    forall q | q in s.jobs && s.jobs[q].phase.HoldsRow() ensures RowHeld(s, s.jobs[q].phase.id) {
      assert JobTidy(s.clock, s.db, s.jobs[q]);
    }
  }

  lemma QuietSurroundingsAreTidy(cfg: Config, s: Sys, op: Op)
    requires Tidy(cfg, s) && Can(cfg, s, Env(op.at, op)) && !op.Open?
    ensures Tidy(cfg, Do(cfg, s, Env(op.at, op)))
  {
    var db2 := DbAfter(cfg, s.db, op);
    HeldRowsStay(cfg, s, op);
    GentleKeepsJobs(cfg, s.db, db2, s.jobs, s.clock, op.at);
    GentleKeepsNames(cfg, s.db.tokens, db2.tokens, s.ids, s.hashes, s.jobs, op.at);
    GentleKeepsRows(cfg, s.db.tokens, db2.tokens, s.jobs, s.clock, op.at);
  }

  lemma OpeningIsTidy(cfg: Config, s: Sys, op: Op)
    requires Tidy(cfg, s) && Can(cfg, s, Env(op.at, op)) && op.Open?
    ensures Tidy(cfg, Do(cfg, s, Env(op.at, op)))
  {
    var s2 := Do(cfg, s, Env(op.at, op));
    forall q | q in s2.jobs
      ensures JobTidy(op.at, s2.db, s2.jobs[q]) && NewNames(s2.db.tokens, s2.ids, s2.hashes, s2.jobs[q].job)
    {
      assert JobTidy(s.clock, s.db, s.jobs[q]) && NewNames(s.db.tokens, s.ids, s.hashes, s.jobs[q].job);
    }
  }

  // ---------- every interleaving ----------

  lemma ReadingIsTidy(cfg: Config, s: Sys, step: Step)
    requires Tidy(cfg, s) && Can(cfg, s, step) && !step.Commit? && !step.Env?
    ensures Tidy(cfg, Do(cfg, s, step))
  {
    match step
    case Spawn(at, pid, job) => SpawnIsTidy(cfg, s, pid, job, at);
    case Lookup(at, pid) => LookupIsTidy(cfg, s, pid, at);
    case Lock(at, pid) => LockIsTidy(cfg, s, pid, at);
    case Reload(at, pid) => ReloadIsTidy(cfg, s, pid, at);
    case Check(at, pid) => CheckIsTidy(cfg, s, pid, at);
    case Snapshot(at, pid) => SnapshotIsTidy(cfg, s, pid, at);
    case _ => QueryIsTidy(cfg, s, step);
  }

  lemma StepIsTidy(cfg: Config, s: Sys, step: Step)
    requires cfg.lag >= 0 && Tidy(cfg, s) && Can(cfg, s, step)
    ensures Tidy(cfg, Do(cfg, s, step))
  {
    if step.Commit? {
      CommitIsTidy(cfg, s, step.pid, step.at);
    } else if !step.Env? {
      ReadingIsTidy(cfg, s, step);
    } else if step.op.Open? {
      OpeningIsTidy(cfg, s, step.op);
    } else {
      QuietSurroundingsAreTidy(cfg, s, step.op);
    }
  }

  lemma {:induction false} RunIsTidy(cfg: Config, s: Sys, steps: seq<Step>)
    requires cfg.lag >= 0 && Tidy(cfg, s) && Feasible(cfg, s, steps)
    ensures Tidy(cfg, Final(cfg, s, steps))
    decreases |steps|
  {
    if steps == [] {
    } else {
      StepIsTidy(cfg, s, steps[0]);
      RunIsTidy(cfg, Do(cfg, s, steps[0]), steps[1..]);
    }
  }
}
