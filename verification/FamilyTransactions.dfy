/** Every step of a transaction keeps the system and its shadow together. */
module FamilyTransactions {
  import opened Prelude
  import opened GrantTables
  import opened GrantSteps
  import opened GrantMachine
  import opened GrantInvariants
  import opened FamilyLock
  import opened FamilyShadow
  import opened FamilyBooks

  // ---------- steps that only read ----------

  /** Waiting, reading, getting a snapshot: anything but reading the clock. */
  ghost predicate Moves(r: Running, phase: Phase) {
    && !r.phase.Judging? && !phase.Judging?
    && phase.Holds() == r.phase.Holds()
    && (phase.Holds() ==> phase.family == r.phase.family && phase.ticket == r.phase.ticket)
  }

  lemma MoveKeepsFacts(cfg: Config, start: Time, s: Sys, h: Shadow, pid: Pid, phase: Phase, at: Time)
    requires Facts(cfg, start, s, h) && pid in s.jobs && s.clock <= at && Moves(s.jobs[pid], phase)
    requires JobOk(at, s.db, h.w.origins, s.jobs[pid].(phase := phase))
    requires phase.Asking? ==> forall q :: q in s.jobs && s.jobs[q].phase.Asking? ==> s.jobs[q].job != s.jobs[pid].job
    ensures Facts(cfg, start, Move(s, pid, phase).(clock := at), h)
  {
    var r := s.jobs[pid].(phase := phase);
    LocksMove(s.jobs, s.locks, pid, r);
    JobsMove(s.clock, at, s.db, h.w.origins, s.jobs, pid, r);
    AgreeMove(cfg, s, h, pid, phase, at);
    SteadyMove(cfg, s.db, s.jobs, h.verdicts, pid, r);
  }

  lemma MoveKeepsBooks(cfg: Config, start: Time, s: Sys, h: Shadow, pid: Pid, phase: Phase, at: Time)
    requires Books(cfg, start, s, h) && pid in s.jobs
    requires Moves(s.jobs[pid], phase) || SameJudging(s.jobs[pid], s.jobs[pid].(phase := phase))
    ensures Books(cfg, start, Move(s, pid, phase).(clock := at), h)
  {
    var r := s.jobs[pid].(phase := phase);
    NamesMove(s, h.w, pid, phase);
    NamesTick(Move(s, pid, phase), h.w, at);
    AnswersMove(cfg, start, s.done, s.jobs, h, pid, r);
    OrderMove(s.done, s.jobs, s.tickets, h, pid, r);
  }

  lemma NamesTick(s: Sys, w: World, at: Time)
    requires NamesOk(s, w)
    ensures NamesOk(s.(clock := at), w)
  {
    var s2 := s.(clock := at);
    forall q | q in s2.jobs ensures NameOk(s2, w, s2.jobs[q]) && Mentioned(s2, s2.jobs[q].job) {
      assert NameOk(s, w, s.jobs[q]) && Mentioned(s, s.jobs[q].job);
    }
  }

  /** One query of a rotation being judged. */
  lemma QueryKeepsFacts(cfg: Config, start: Time, s: Sys, h: Shadow, pid: Pid, phase: Phase, at: Time)
    requires Facts(cfg, start, s, h) && pid in s.jobs && s.clock <= at &&
      SameJudging(s.jobs[pid], s.jobs[pid].(phase := phase))
    requires Steady(cfg, s.db, phase, h.verdicts[pid])
    ensures Facts(cfg, start, Move(s, pid, phase).(clock := at), h)
  {
    var r := s.jobs[pid].(phase := phase);
    assert JobOk(s.clock, s.db, h.w.origins, s.jobs[pid]);
    LocksMove(s.jobs, s.locks, pid, r);
    JobsMove(s.clock, at, s.db, h.w.origins, s.jobs, pid, r);
    AgreeMove(cfg, s, h, pid, phase, at);
    SteadyMove(cfg, s.db, s.jobs, h.verdicts, pid, r);
  }

  lemma AgreeLock(cfg: Config, s: Sys, h: Shadow, pid: Pid, phase: Phase, at: Time)
    requires Agree(cfg, s, h) && LocksOk(s.jobs, s.locks) && pid in s.jobs && phase.Locked? &&
      !s.jobs[pid].phase.Holds()
    requires phase.family !in s.locks
    ensures Agree(cfg, Move(s, pid, phase).(locks := s.locks[phase.family := pid], tickets := s.tickets + 1,
      clock := at), h)
  {
    AgreeStays(cfg, s, h, Move(s, pid, phase).(locks := s.locks[phase.family := pid], tickets := s.tickets + 1,
        clock := at), h);
  }

  lemma LockKeepsFacts(cfg: Config, start: Time, s: Sys, h: Shadow, pid: Pid, at: Time)
    requires Facts(cfg, start, s, h) && Can(cfg, s, Lock(at, pid))
    ensures Facts(cfg, start, Do(cfg, s, Lock(at, pid)), h)
  {
    var ph := s.jobs[pid].phase;
    var r := s.jobs[pid].(phase := Locked(ph.family, ph.user, s.tickets));
    assert JobOk(s.clock, s.db, h.w.origins, s.jobs[pid]);
    LocksTaken(s.jobs, s.locks, pid, r);
    JobsMove(s.clock, at, s.db, h.w.origins, s.jobs, pid, r);
    AgreeLock(cfg, s, h, pid, r.phase, at);
    SteadyMove(cfg, s.db, s.jobs, h.verdicts, pid, r);
  }

  lemma NamesLock(s: Sys, w: World, locks: map<FamilyId, Pid>, tickets: nat, at: Time)
    requires NamesOk(s, w)
    ensures NamesOk(s.(locks := locks, tickets := tickets, clock := at), w)
  {
    var s2 := s.(locks := locks, tickets := tickets, clock := at);
    forall q | q in s2.jobs ensures NameOk(s2, w, s2.jobs[q]) && Mentioned(s2, s2.jobs[q].job) {
      assert NameOk(s, w, s.jobs[q]) && Mentioned(s, s.jobs[q].job);
    }
  }

  lemma LockKeepsBooks(cfg: Config, start: Time, s: Sys, h: Shadow, pid: Pid, at: Time)
    requires Books(cfg, start, s, h) && Can(cfg, s, Lock(at, pid))
    ensures Books(cfg, start, Do(cfg, s, Lock(at, pid)), h)
  {
    var ph := s.jobs[pid].phase;
    var r := s.jobs[pid].(phase := Locked(ph.family, ph.user, s.tickets));
    NamesMove(s, h.w, pid, r.phase);
    NamesLock(Move(s, pid, r.phase), h.w, s.locks[ph.family := pid], s.tickets + 1, at);
    AnswersMove(cfg, start, s.done, s.jobs, h, pid, r);
    OrderTicket(s.done, s.jobs, s.tickets, h, pid, r);
  }

  lemma AgreeSpawn(cfg: Config, s: Sys, h: Shadow, pid: Pid, job: Job, at: Time)
    requires Agree(cfg, s, h) && LocksOk(s.jobs, s.locks) && pid !in s.jobs
    ensures Agree(cfg, Spawned(s, at, pid, job).(clock := at), h)
  {
    AgreeStays(cfg, s, h, Spawned(s, at, pid, job).(clock := at), h);
  }

  lemma SpawnKeepsFacts(cfg: Config, start: Time, s: Sys, h: Shadow, pid: Pid, job: Job, at: Time)
    requires Facts(cfg, start, s, h) && NamesOk(s, h.w) && Can(cfg, s, Spawn(at, pid, job))
    ensures Facts(cfg, start, Do(cfg, s, Spawn(at, pid, job)), h) && NamesOk(Do(cfg, s, Spawn(at, pid, job)), h.w)
  {
    var r := Running(job, at, Started);
    LocksMove(s.jobs, s.locks, pid, r);
    JobsMove(s.clock, at, s.db, h.w.origins, s.jobs, pid, r);
    AgreeSpawn(cfg, s, h, pid, job, at);
    SteadyMove(cfg, s.db, s.jobs, h.verdicts, pid, r);
    NamesSpawn(s, h.w, at, pid, job);
    NamesTick(Spawned(s, at, pid, job), h.w, at);
  }

  lemma SpawnKeepsBooks(cfg: Config, start: Time, s: Sys, h: Shadow, pid: Pid, job: Job, at: Time)
    requires Books(cfg, start, s, h) && Can(cfg, s, Spawn(at, pid, job)) &&
      NamesOk(Do(cfg, s, Spawn(at, pid, job)), h.w)
    ensures Books(cfg, start, Do(cfg, s, Spawn(at, pid, job)), h)
  {
    var r := Running(job, at, Started);
    AnswersMove(cfg, start, s.done, s.jobs, h, pid, r);
    OrderMove(s.done, s.jobs, s.tickets, h, pid, r);
  }

  lemma SpawnKeeps(cfg: Config, start: Time, s: Sys, h: Shadow, pid: Pid, job: Job, at: Time)
    requires Good(cfg, start, s, h) && Can(cfg, s, Spawn(at, pid, job))
    ensures Good(cfg, start, Do(cfg, s, Spawn(at, pid, job)), h)
  {
    SpawnKeepsFacts(cfg, start, s, h, pid, job, at);
    SpawnKeepsBooks(cfg, start, s, h, pid, job, at);
  }

  // ---------- what is found here is found there ----------

  lemma ReservedAreNoRows(s: Sys, w: World, i: TokenId)
    requires NamesOk(s, w) && i in s.db.tokens
    ensures forall q :: q in s.jobs && s.jobs[q].job.Rotate? ==> s.jobs[q].job.newId != i
  {
    forall q | q in s.jobs && s.jobs[q].job.Rotate? ensures s.jobs[q].job.newId != i {
      assert NameOk(s, w, s.jobs[q]);
    }
  }

  lemma HashIsThere(cfg: Config, s: Sys, h: Shadow, hash: TokenHash)
    requires Agree(cfg, s, h) && LocksOk(s.jobs, s.locks) && NamesOk(s, h.w) && UniqueHashes(h.w.db.tokens)
    requires forall q :: q in s.jobs && s.jobs[q].job.Rotate? ==> s.jobs[q].job.newHash != hash
    ensures FindByHash(h.w.db.tokens, hash) == FindByHash(s.db.tokens, hash)
  {
    var here, there := FindByHash(s.db.tokens, hash), FindByHash(h.w.db.tokens, hash);
    if here.Some? {
      ReservedAreNoRows(s, h.w, here.value);
      RowInShadow(cfg, s, h, here.value);
      assert there.Some?;
    }
    if there.Some? {
      var q := RowFromShadow(cfg, s, h, there.value);
      ReservedAreNoRows(s, h.w, there.value);
      RowInShadow(cfg, s, h, there.value);
      assert here.Some?;
    }
  }

  /** A job finds in the shadow exactly what it finds in the database. */
  lemma FoundAlike(cfg: Config, s: Sys, h: Shadow, pid: Pid)
    requires Agree(cfg, s, h) && LocksOk(s.jobs, s.locks) && NamesOk(s, h.w) && UniqueHashes(h.w.db.tokens)
    requires pid in s.jobs && !s.jobs[pid].job.Ask?
    ensures Found(h.w.db, s.jobs[pid].job) == Found(s.db, s.jobs[pid].job)
    ensures var found := Found(s.db, s.jobs[pid].job);
      found.Some? ==> found.value in h.w.db.tokens && SameRow(s.db.tokens[found.value], h.w.db.tokens[found.value])
  {
    var job := s.jobs[pid].job;
    forall q | q in s.jobs && s.jobs[q].job.Rotate? ensures !Names(job, s.jobs[q].job.newHash, s.jobs[q].job.newId) {
      assert Unnamed(job, s.jobs[q].job);
    }
    HashIsThere(cfg, s, h, if job.Rotate? then job.p.hash else job.hash);
    if job.Revoke? {
      RevokeFoundAlike(cfg, s, h, job);
    }
    var found := Found(s.db, job);
    if found.Some? {
      ReservedAreNoRows(s, h.w, found.value);
      RowInShadow(cfg, s, h, found.value);
    }
  }

  lemma RevokeFoundAlike(cfg: Config, s: Sys, h: Shadow, job: Job)
    requires Agree(cfg, s, h) && LocksOk(s.jobs, s.locks) && NamesOk(s, h.w) && job.Revoke?
    requires FindByHash(h.w.db.tokens, job.hash) == FindByHash(s.db.tokens, job.hash)
    requires forall q :: q in s.jobs && s.jobs[q].job.Rotate? ==>
      !Names(job, s.jobs[q].job.newHash, s.jobs[q].job.newId)
    ensures Found(h.w.db, job) == Found(s.db, job)
  {
    var byHash := FindByHash(s.db.tokens, job.hash);
    if byHash.Some? {
      ReservedAreNoRows(s, h.w, byHash.value);
      RowInShadow(cfg, s, h, byHash.value);
    }
    if job.byId.Some? {
      var i := job.byId.value;
      if i in s.db.tokens {
        ReservedAreNoRows(s, h.w, i);
        RowInShadow(cfg, s, h, i);
      } else if i in h.w.db.tokens {
        var q := RowFromShadow(cfg, s, h, i);
      }
    }
  }

  // ---------- transactions that end ----------

  lemma EndKeepsBooks(cfg: Config, start: Time, s: Sys, h: Shadow, pid: Pid, db2: Db, result: Result, op: Op)
    requires Books(cfg, start, s, h) && Linked(cfg, start, s.clock, h) && LocksOk(s.jobs, s.locks) && pid in s.jobs
    requires DrawsOnly(s, h.w, db2, Next(cfg, h.w, op), s.jobs[pid].job)
    requires AnswerAt(cfg, h.w.db, op, EntryOf(s.jobs[pid], result))
    ensures Books(cfg, start, Finish(s, pid, db2, result).(clock := op.at), EndWith(cfg, h, op))
  {
    NamesFinish(s, h.w, pid, db2, Next(cfg, h.w, op), result);
    NamesTick(Finish(s, pid, db2, result), Next(cfg, h.w, op), op.at);
    AnswersEnd(cfg, start, s, h, pid, db2, result, op);
    OrderEnd(cfg, s, h, pid, db2, result, op);
  }

  lemma AgreeEnd(cfg: Config, s: Sys, h: Shadow, pid: Pid, result: Result, op: Op)
    requires Agree(cfg, s, h) && LocksOk(s.jobs, s.locks) && pid in s.jobs && !s.jobs[pid].phase.Judging?
    requires Next(cfg, h.w, op).db == h.w.db
    ensures Agree(cfg, Finish(s, pid, s.db, result).(clock := op.at), EndWith(cfg, h, op))
  {
    AgreeStays(cfg, s, h, Finish(s, pid, s.db, result).(clock := op.at), EndWith(cfg, h, op));
  }

  /** A transaction ends without writing, and so does its counterpart. */
  lemma RefusalKeepsFacts(cfg: Config, start: Time, s: Sys, h: Shadow, pid: Pid, result: Result, op: Op)
    requires Facts(cfg, start, s, h) && pid in s.jobs && !s.jobs[pid].phase.Judging? && s.clock <= op.at
    requires Enabled(cfg, h.w, op) && Next(cfg, h.w, op).db == h.w.db && Next(cfg, h.w, op).origins == h.w.origins
    ensures Facts(cfg, start, Finish(s, pid, s.db, result).(clock := op.at), EndWith(cfg, h, op))
  {
    LinkedAppend(cfg, start, s.clock, h, op);
    AgreeEnd(cfg, s, h, pid, result, op);
    LocksFinish(s, pid, s.db, result);
    JobsLeftAlone(s.clock, op.at, s.db, s.db, h.w.origins, h.w.origins, s.jobs, s.jobs - {pid});
  }

  /** A job's counterpart is possible when it ends. */
  lemma OpIsEnabled(cfg: Config, s: Sys, h: Shadow, pid: Pid, at: Time)
    requires NamesOk(s, h.w) && pid in s.jobs && !s.jobs[pid].phase.Judging? && h.w.clock <= s.clock <= at
    requires s.jobs[pid].since <= at <= s.jobs[pid].since + cfg.lag
    ensures Enabled(cfg, h.w, OpOf(s.jobs[pid], at))
  {
    assert NameOk(s, h.w, s.jobs[pid]);
  }

  lemma NotFoundIsRefused(cfg: Config, s: Sys, h: Shadow, pid: Pid, at: Time)
    requires pid in s.jobs && !s.jobs[pid].job.Ask? && Found(h.w.db, s.jobs[pid].job).None?
    ensures var r, op := s.jobs[pid], OpOf(s.jobs[pid], at);
      && Next(cfg, h.w, op).db == h.w.db && Next(cfg, h.w, op).origins == h.w.origins
      && AnswerAt(cfg, h.w.db, op, EntryOf(r, NotFound(r.job)))
      && DrawsOnly(s, h.w, s.db, Next(cfg, h.w, op), r.job)
  {
  }

  lemma UniqueHere(cfg: Config, s: Sys, h: Shadow)
    requires Agree(cfg, s, h) && LocksOk(s.jobs, s.locks) && NamesOk(s, h.w) && UniqueHashes(h.w.db.tokens)
    ensures UniqueHashes(s.db.tokens)
  {
    forall i, j | i in s.db.tokens && j in s.db.tokens && s.db.tokens[i].hash == s.db.tokens[j].hash ensures i == j {
      ReservedAreNoRows(s, h.w, i);
      RowInShadow(cfg, s, h, i);
      ReservedAreNoRows(s, h.w, j);
      RowInShadow(cfg, s, h, j);
    }
  }

  lemma FoundFamily(cfg: Config, s: Sys, h: Shadow, pid: Pid)
    requires Agree(cfg, s, h) && LocksOk(s.jobs, s.locks) && NamesOk(s, h.w) && Named(h.w)
    requires pid in s.jobs && !s.jobs[pid].job.Ask? && Found(s.db, s.jobs[pid].job).Some?
    ensures var row := s.db.tokens[Found(s.db, s.jobs[pid].job).value];
      row.family in h.w.origins && h.w.origins[row.family].user == row.grant.user
    ensures UniqueHashes(s.db.tokens)
  {
    FoundAlike(cfg, s, h, pid);
    UniqueHere(cfg, s, h);
  }

  lemma LookupKeeps(cfg: Config, start: Time, s: Sys, h: Shadow, pid: Pid, at: Time)
    requires Sound(cfg) && Good(cfg, start, s, h) && Can(cfg, s, Lookup(at, pid))
    ensures Good(cfg, start, Do(cfg, s, Lookup(at, pid)), Follow(cfg, s, h, Lookup(at, pid)))
  {
    var r, found := s.jobs[pid], Found(s.db, s.jobs[pid].job);
    assert Named(h.w) by {
      LinkedIsSafe(cfg, start, s.clock, h);
    }
    if found.Some? {
      FoundFamily(cfg, s, h, pid);
      var phase := Looked(s.db.tokens[found.value].family, s.db.tokens[found.value].grant.user);
      assert JobOk(s.clock, s.db, h.w.origins, r);
      MoveKeepsFacts(cfg, start, s, h, pid, phase, at);
      MoveKeepsBooks(cfg, start, s, h, pid, phase, at);
    } else {
      NotFoundKeeps(cfg, start, s, h, pid, at);
    }
  }

  lemma NotFoundKeeps(cfg: Config, start: Time, s: Sys, h: Shadow, pid: Pid, at: Time)
    requires Sound(cfg) && Good(cfg, start, s, h) && s.clock <= at && pid in s.jobs && at <= s.jobs[pid].since + cfg.lag
    requires !s.jobs[pid].phase.Judging? && !s.jobs[pid].job.Ask? && Found(s.db, s.jobs[pid].job).None?
    ensures Good(cfg, start, Finish(s, pid, s.db, NotFound(s.jobs[pid].job)).(clock := at),
      EndWith(cfg, h, OpOf(s.jobs[pid], at)))
  {
    var r, op := s.jobs[pid], OpOf(s.jobs[pid], at);
    assert Named(h.w) by {
      LinkedIsSafe(cfg, start, s.clock, h);
    }
    assert JobOk(s.clock, s.db, h.w.origins, r);
    FoundAlike(cfg, s, h, pid);
    OpIsEnabled(cfg, s, h, pid, at);
    NotFoundIsRefused(cfg, s, h, pid, at);
    RefusalKeepsFacts(cfg, start, s, h, pid, NotFound(r.job), op);
    EndKeepsBooks(cfg, start, s, h, pid, s.db, NotFound(r.job), op);
  }

  lemma ReloadKeeps(cfg: Config, start: Time, s: Sys, h: Shadow, pid: Pid, at: Time)
    requires Sound(cfg) && Good(cfg, start, s, h) && Can(cfg, s, Reload(at, pid))
    ensures Good(cfg, start, Do(cfg, s, Reload(at, pid)), Follow(cfg, s, h, Reload(at, pid)))
  {
    var r, found := s.jobs[pid], Found(s.db, s.jobs[pid].job);
    if found.Some? {
      var phase := Reading(r.phase.family, r.phase.ticket, found.value, s.db.tokens[found.value]);
      assert JobOk(s.clock, s.db, h.w.origins, r);
      MoveKeepsFacts(cfg, start, s, h, pid, phase, at);
      MoveKeepsBooks(cfg, start, s, h, pid, phase, at);
    } else {
      NotFoundKeeps(cfg, start, s, h, pid, at);
    }
  }

  // ---------- reading the clock ----------

  lemma NotJudgedWhileReading(s: Sys, pid: Pid)
    requires LocksOk(s.jobs, s.locks) && pid in s.jobs && s.jobs[pid].phase.Holds() && !s.jobs[pid].phase.Judging?
    ensures !Judged(s, s.jobs[pid].phase.family)
  {
  }

  /** The row a rotation has locked is the same in the shadow, and is what the shadow finds. */
  lemma RowIsThere(cfg: Config, s: Sys, h: Shadow, pid: Pid)
    requires Agree(cfg, s, h) && LocksOk(s.jobs, s.locks) && UniqueHashes(h.w.db.tokens)
    requires pid in s.jobs && s.jobs[pid].phase.Reading? && s.jobs[pid].job.Rotate?
    requires RowThere(s.db, s.jobs[pid].phase) && s.jobs[pid].phase.row.hash == s.jobs[pid].job.p.hash
    ensures RowThere(h.w.db, s.jobs[pid].phase) && SameFamily(h.w.db, s.db, s.jobs[pid].phase.family)
    ensures FindByHash(h.w.db.tokens, s.jobs[pid].job.p.hash) == Some(s.jobs[pid].phase.id)
  {
    NotJudgedWhileReading(s, pid);
    assert SameFamily(h.w.db, s.db, s.jobs[pid].phase.family);
    assert h.w.db.tokens[s.jobs[pid].phase.id] == s.jobs[pid].phase.row;
  }

  lemma ValidationAlike(db: Db, db2: Db, row: Token, p: Presentation, now: Time)
    requires db2.users == db.users
    ensures Validate(db2, row, p, now) == Validate(db, row, p, now)
  {
  }

  lemma InvalidIsRefused(cfg: Config, s: Sys, h: Shadow, pid: Pid, at: Time, why: Refusal)
    requires pid in s.jobs && s.jobs[pid].job.Rotate? && s.jobs[pid].phase.Reading? &&
      RowThere(h.w.db, s.jobs[pid].phase)
    requires FindByHash(h.w.db.tokens, s.jobs[pid].job.p.hash) == Some(s.jobs[pid].phase.id)
    requires Validate(h.w.db, s.jobs[pid].phase.row, s.jobs[pid].job.p, at) == Some(why)
    ensures var r, op := s.jobs[pid], OpOf(s.jobs[pid], at);
      && Next(cfg, h.w, op).db == h.w.db && Next(cfg, h.w, op).origins == h.w.origins
      && AnswerAt(cfg, h.w.db, op, EntryOf(r, Rotated(Refused(why))))
      && DrawsOnly(s, h.w, s.db, Next(cfg, h.w, op), r.job)
  {
  }

  lemma CheckRefusedKeeps(cfg: Config, start: Time, s: Sys, h: Shadow, pid: Pid, at: Time, why: Refusal)
    requires Sound(cfg) && Good(cfg, start, s, h) && Can(cfg, s, Check(at, pid))
    requires Validate(s.db, s.jobs[pid].phase.row, s.jobs[pid].job.p, at) == Some(why)
    ensures Good(cfg, start, Do(cfg, s, Check(at, pid)), Follow(cfg, s, h, Check(at, pid)))
  {
    var r, op := s.jobs[pid], OpOf(s.jobs[pid], at);
    assert Named(h.w) by {
      LinkedIsSafe(cfg, start, s.clock, h);
    }
    assert JobOk(s.clock, s.db, h.w.origins, r);
    RowIsThere(cfg, s, h, pid);
    ValidationAlike(s.db, h.w.db, r.phase.row, r.job.p, at);
    OpIsEnabled(cfg, s, h, pid, at);
    InvalidIsRefused(cfg, s, h, pid, at, why);
    RefusalKeepsFacts(cfg, start, s, h, pid, Rotated(Refused(why)), op);
    EndKeepsBooks(cfg, start, s, h, pid, s.db, Rotated(Refused(why)), op);
  }

  lemma HomeThere(cfg: Config, w: World, ph: Phase)
    requires KinOk(cfg, w.db.tokens) && RowThere(w.db, ph)
    ensures ChildrenHome(w.db.tokens, ph)
  {
  }

  lemma HomeHere(cfg: Config, s: Sys, h: Shadow, ph: Phase)
    requires Agree(cfg, s, h) && LocksOk(s.jobs, s.locks) && NamesOk(s, h.w) && KinOk(cfg, h.w.db.tokens) &&
      RowThere(s.db, ph)
    ensures ChildrenHome(s.db.tokens, ph)
  {
    ReservedAreNoRows(s, h.w, ph.id);
    RowInShadow(cfg, s, h, ph.id);
    forall c | c in s.db.tokens && s.db.tokens[c].parent == Some(ph.id) ensures s.db.tokens[c].family == ph.family {
      ReservedAreNoRows(s, h.w, c);
      RowInShadow(cfg, s, h, c);
    }
  }

  /** The rotation as it is once it has read the clock. */
  function Checked(r: Running, now: Time): Running
    requires r.phase.Reading?
  {
    r.(phase := Judging(r.phase.family, r.phase.ticket, r.phase.id, r.phase.row, now, None, None, None))
  }

  lemma CheckIsSteady(cfg: Config, s: Sys, h: Shadow, pid: Pid, at: Time)
    requires Sound(cfg) && Inv(cfg, h.w) && Agree(cfg, s, h) && LocksOk(s.jobs, s.locks) && NamesOk(s, h.w) &&
      h.w.clock <= at
    requires pid in s.jobs && s.jobs[pid].phase.Reading? && s.jobs[pid].job.Rotate?
    requires RowThere(s.db, s.jobs[pid].phase) && s.jobs[pid].phase.row.hash == s.jobs[pid].job.p.hash
    requires Validate(s.db, s.jobs[pid].phase.row, s.jobs[pid].job.p, at).None?
    ensures Steady(cfg, s.db, Checked(s.jobs[pid], at).phase, Decide(cfg, h.w.db, s.jobs[pid].job.p, at))
  {
    var r, ph := s.jobs[pid], Checked(s.jobs[pid], at).phase;
    RowIsThere(cfg, s, h, pid);
    ValidationAlike(s.db, h.w.db, ph.row, r.job.p, at);
    ShadowIsSteady(cfg, h.w, ph.id, r.job.p, ph.ticket, at);
    HomeThere(cfg, h.w, ph);
    HomeHere(cfg, s, h, ph);
    SteadyIsLocal(cfg, h.w.db, s.db, ph, Decide(cfg, h.w.db, r.job.p, at));
  }

  lemma CarryIsWritten(cfg: Config, db: Db, r: Running, v: Verdict)
    requires r.job.Rotate? && r.phase.Judging? && RowThere(db, r.phase)
    requires v == Redeem(r.phase.id) || v == GraceChild(r.phase.id) || v == Kill(r.phase.id) || v.Refuse?
    ensures Carry(cfg, db, v, r.since, r.phase.now, r.job.newId, r.job.newHash) == Written(cfg, db, r, v)
  {
  }

  lemma SteadyVerdicts(cfg: Config, db: Db, ph: Phase, v: Verdict)
    requires ph.Judging? && Steady(cfg, db, ph, v)
    ensures v == Redeem(ph.id) || v == GraceChild(ph.id) || v == Kill(ph.id) || v.Refuse?
  {
  }

  /** The other rotations being judged do not notice what happens in other families. */
  lemma JudgedStays(cfg: Config, db: Db, db2: Db, d: Db, d2: Db, r: Running, v: Verdict)
    requires JudgedOk(cfg, db, r, v, d) && Steady(cfg, db, r.phase, v)
    requires SameFamily(db, db2, r.phase.family) && SameFamily(d, d2, r.phase.family)
    requires r.job.newId !in db.tokens && r.job.newId !in db2.tokens
    ensures JudgedOk(cfg, db2, r, v, d2)
  {
    WritingIsLocal(cfg, db, db2, r, v);
    SameFamilyTrans(d, Written(cfg, db, r, v), Written(cfg, db2, r, v), r.phase.family);
    SameFamilyTrans(d, d2, d, r.phase.family);
  }

  ghost predicate Elsewhere(db: Db, db2: Db, f: FamilyId) {
    forall g :: g != f ==> SameFamily(db, db2, g)
  }

  predicate JudgesOutside(r: Running, f: FamilyId) {
    r.phase.Judging? && r.phase.family != f
  }

  /** Outside the family `f` the same rotations are being judged. */
  ghost predicate OthersAlike(s: Sys, s2: Sys, f: FamilyId) {
    && (forall g :: g != f ==> Judged(s2, g) == Judged(s, g))
    && (forall q :: q in s2.jobs && s2.jobs[q].phase.Judging? && s2.jobs[q].phase.family != f ==>
          && q in s.jobs && s2.jobs[q] == s.jobs[q]
          && s.jobs[q].job.Rotate? && s.jobs[q].job.newId !in s.db.tokens && s.jobs[q].job.newId !in s2.db.tokens)
  }

  /** Both databases change in the family `f` only, where they agree afterwards. */
  lemma AgreeOutside(cfg: Config, s: Sys, h: Shadow, s2: Sys, h2: Shadow, f: FamilyId)
    requires Agree(cfg, s, h) && SteadyOk(cfg, s.db, s.jobs, h.verdicts)
    requires h2.w.db.users == s2.db.users && h2.w.db.identities == s2.db.identities &&
      h2.w.db.sessions == s2.db.sessions
    requires Elsewhere(s.db, s2.db, f) && Elsewhere(h.w.db, h2.w.db, f) && OthersAlike(s, s2, f)
    requires forall q :: q in h.verdicts && q in s2.jobs && JudgesOutside(s2.jobs[q], f) ==>
      q in h2.verdicts && h2.verdicts[q] == h.verdicts[q]
    requires !Judged(s2, f) ==> SameFamily(h2.w.db, s2.db, f)
    requires forall q :: q in s2.jobs && s2.jobs[q].phase.Judging? && s2.jobs[q].phase.family == f ==>
      q in h2.verdicts && JudgedOk(cfg, s2.db, s2.jobs[q], h2.verdicts[q], h2.w.db)
    ensures Agree(cfg, s2, h2)
  {
    forall g | !Judged(s2, g) ensures SameFamily(h2.w.db, s2.db, g) {
      if g != f {
        assert SameFamily(s.db, s2.db, g) && SameFamily(h.w.db, h2.w.db, g) && SameFamily(h.w.db, s.db, g);
        SameFamilyTrans(h.w.db, s.db, s2.db, g);
        SameFamilyTrans(h.w.db, h2.w.db, h.w.db, g);
        SameFamilyTrans(h2.w.db, h.w.db, s2.db, g);
      }
    }
    forall q | q in s2.jobs && s2.jobs[q].phase.Judging? && s2.jobs[q].phase.family != f
      ensures JudgedOk(cfg, s2.db, s2.jobs[q], h2.verdicts[q], h2.w.db)
    {
      var g := s2.jobs[q].phase.family;
      assert SameFamily(s.db, s2.db, g) && SameFamily(h.w.db, h2.w.db, g);
      JudgedStays(cfg, s.db, s2.db, h.w.db, h2.w.db, s.jobs[q], h.verdicts[q]);
    }
  }

  lemma JudgersHaveNames(s: Sys, h: Shadow)
    requires NamesOk(s, h.w) && forall q :: q in s.jobs && s.jobs[q].phase.Judging? ==> s.jobs[q].job.Rotate?
    ensures forall q :: q in s.jobs && s.jobs[q].phase.Judging? ==> s.jobs[q].job.newId !in s.db.tokens
  {
    forall q | q in s.jobs && s.jobs[q].phase.Judging? ensures s.jobs[q].job.newId !in s.db.tokens {
      assert NameOk(s, h.w, s.jobs[q]);
    }
  }

  lemma WritingElsewhere(cfg: Config, db: Db, r: Running, v: Verdict)
    requires r.job.Rotate? && r.phase.Judging? && RowThere(db, r.phase) && r.job.newId !in db.tokens
    ensures Elsewhere(db, Written(cfg, db, r, v), r.phase.family)
  {
    forall g | g != r.phase.family ensures SameFamily(db, Written(cfg, db, r, v), g) {
      WritingStaysInFamily(cfg, db, r, v, g);
      SameFamilyTrans(Written(cfg, db, r, v), db, Written(cfg, db, r, v), g);
    }
  }

  lemma UnchangedElsewhere(db: Db, f: FamilyId)
    ensures Elsewhere(db, db, f)
  {
  }

  lemma JudgedByCheck(s: Sys, h: Shadow, pid: Pid, r: Running, at: Time)
    requires LocksOk(s.jobs, s.locks) && pid in s.jobs && s.jobs[pid].phase.Reading? && r.phase.Judging?
    requires r.phase.family == s.jobs[pid].phase.family && NamesOk(s, h.w)
    requires forall q :: q in s.jobs && s.jobs[q].phase.Judging? ==> s.jobs[q].job.Rotate?
    ensures var s2 := s.(jobs := s.jobs[pid := r], clock := at);
      && Judged(s2, r.phase.family) && OthersAlike(s, s2, r.phase.family)
      && forall q :: q in s2.jobs && s2.jobs[q].phase.Judging? && s2.jobs[q].phase.family == r.phase.family ==> q == pid
  {
    JudgersHaveNames(s, h);
  }

  lemma AgreeCheck(cfg: Config, s: Sys, h: Shadow, pid: Pid, at: Time, h2: Shadow, v: Verdict)
    requires Agree(cfg, s, h) && LocksOk(s.jobs, s.locks) && SteadyOk(cfg, s.db, s.jobs, h.verdicts) && NamesOk(s, h.w)
    requires pid in s.jobs && s.jobs[pid].job.Rotate? && s.jobs[pid].phase.Reading? &&
      s.jobs[pid].job.newId !in h.w.db.tokens
    requires RowThere(s.db, s.jobs[pid].phase) && RowThere(h.w.db, s.jobs[pid].phase)
    requires SameFamily(h.w.db, s.db, s.jobs[pid].phase.family)
    requires v.Redeem? ==> v.id == s.jobs[pid].phase.id
    requires h2.w.db == Written(cfg, h.w.db, Checked(s.jobs[pid], at), v) && h2.verdicts == h.verdicts[pid := v]
    ensures Agree(cfg, s.(jobs := s.jobs[pid := Checked(s.jobs[pid], at)], clock := at), h2)
  {
    var r, f := Checked(s.jobs[pid], at), s.jobs[pid].phase.family;
    var s2 := s.(jobs := s.jobs[pid := r], clock := at);
    assert s.jobs[pid].job.newId !in s.db.tokens by {
      assert NameOk(s, h.w, s.jobs[pid]);
    }
    JudgedByCheck(s, h, pid, r, at);
    WritingElsewhere(cfg, h.w.db, r, v);
    UnchangedElsewhere(s.db, f);
    assert JudgedOk(cfg, s2.db, r, v, h2.w.db) by {
      WritingIsLocal(cfg, h.w.db, s.db, r, v);
    }
    AgreeOutside(cfg, s, h, s2, h2, f);
  }

  lemma CheckNext(cfg: Config, s: Sys, h: Shadow, pid: Pid, at: Time)
    requires pid in s.jobs && s.jobs[pid].job.Rotate? && s.jobs[pid].phase.Reading? &&
      RowThere(h.w.db, s.jobs[pid].phase)
    requires Steady(cfg, s.db, Checked(s.jobs[pid], at).phase, Decide(cfg, h.w.db, s.jobs[pid].job.p, at))
    ensures var r, v, w2 := Checked(s.jobs[pid], at), Decide(cfg, h.w.db, s.jobs[pid].job.p, at),
      Next(cfg, h.w, OpOf(s.jobs[pid], at));
      w2.db == Written(cfg, h.w.db, r, v) && w2.origins == h.w.origins && DrawsOnly(s, h.w, s.db, w2, r.job)
  {
    var r, v := Checked(s.jobs[pid], at), Decide(cfg, h.w.db, s.jobs[pid].job.p, at);
    SteadyVerdicts(cfg, s.db, r.phase, v);
    CarryIsWritten(cfg, h.w.db, r, v);
  }

  /** All that is known about a rotation that has just read the clock. */
  ghost predicate CheckedWell(cfg: Config, s: Sys, h: Shadow, pid: Pid, at: Time) {
    && pid in s.jobs && s.jobs[pid].job.Rotate? && s.jobs[pid].phase.Reading?
    && RowThere(s.db, s.jobs[pid].phase) && RowThere(h.w.db, s.jobs[pid].phase)
    && SameFamily(h.w.db, s.db, s.jobs[pid].phase.family)
    && s.jobs[pid].job.newId !in h.w.db.tokens
    && s.jobs[pid].job.p.subject == s.jobs[pid].phase.row.grant.user
    && Enabled(cfg, h.w, OpOf(s.jobs[pid], at))
    && var r, v, w2 := Checked(s.jobs[pid], at), Decide(cfg, h.w.db, s.jobs[pid].job.p, at),
         Next(cfg, h.w, OpOf(s.jobs[pid], at));
       && Steady(cfg, s.db, r.phase, v)
       && w2.db == Written(cfg, h.w.db, r, v) && w2.origins == h.w.origins && DrawsOnly(s, h.w, s.db, w2, r.job)
  }

  lemma CheckGoesWell(cfg: Config, start: Time, s: Sys, h: Shadow, pid: Pid, at: Time)
    requires Sound(cfg) && Linked(cfg, start, s.clock, h) && Agree(cfg, s, h) && LocksOk(s.jobs, s.locks) &&
      NamesOk(s, h.w)
    requires pid in s.jobs && JobOk(s.clock, s.db, h.w.origins, s.jobs[pid]) && Can(cfg, s, Check(at, pid))
    requires Validate(s.db, s.jobs[pid].phase.row, s.jobs[pid].job.p, at).None?
    ensures CheckedWell(cfg, s, h, pid, at)
  {
    LinkedIsSafe(cfg, start, s.clock, h);
    RowIsThere(cfg, s, h, pid);
    CheckIsSteady(cfg, s, h, pid, at);
    CheckNext(cfg, s, h, pid, at);
    OpIsEnabled(cfg, s, h, pid, at);
    assert NameOk(s, h.w, s.jobs[pid]);
  }

  lemma SteadyCheck(cfg: Config, db: Db, jobs: map<Pid, Running>, verdicts: map<Pid, Verdict>, pid: Pid, r: Running,
                    v: Verdict)
    requires SteadyOk(cfg, db, jobs, verdicts) && r.phase.Judging? && Steady(cfg, db, r.phase, v)
    ensures SteadyOk(cfg, db, jobs[pid := r], verdicts[pid := v])
  {
  }

  lemma CheckKeepsFacts(cfg: Config, start: Time, s: Sys, h: Shadow, pid: Pid, at: Time)
    requires Facts(cfg, start, s, h) && NamesOk(s, h.w) && s.clock <= at && CheckedWell(cfg, s, h, pid, at)
    ensures var r, v, op := s.jobs[pid], Decide(cfg, h.w.db, s.jobs[pid].job.p, at), OpOf(s.jobs[pid], at);
      Facts(cfg, start, s.(jobs := s.jobs[pid := Checked(r, at)], clock := at),
            Append(cfg, h, op).(verdicts := h.verdicts[pid := v], places := h.places[pid := |h.trace|]))
  {
    var r, v, op := s.jobs[pid], Decide(cfg, h.w.db, s.jobs[pid].job.p, at), OpOf(s.jobs[pid], at);
    var h2 := Append(cfg, h, op).(verdicts := h.verdicts[pid := v], places := h.places[pid := |h.trace|]);
    assert JobOk(s.clock, s.db, h.w.origins, r);
    LinkedAppend(cfg, start, s.clock, h, op);
    LocksMove(s.jobs, s.locks, pid, Checked(r, at));
    JobsMove(s.clock, at, s.db, h.w.origins, s.jobs, pid, Checked(r, at));
    SteadyCheck(cfg, s.db, s.jobs, h.verdicts, pid, Checked(r, at), v);
    AgreeCheck(cfg, s, h, pid, at, h2, v);
  }

  lemma AnswersCheck(cfg: Config, start: Time, clock: Time, done: seq<Entry>, jobs: map<Pid, Running>, h: Shadow,
                     pid: Pid, r: Running)
    requires Linked(cfg, start, clock, h) && AnswersOk(cfg, start, done, jobs, h) && r.job.Rotate? && r.phase.Judging?
    requires RowThere(h.w.db, r.phase)
    ensures var v, op := Decide(cfg, h.w.db, r.job.p, r.phase.now), OpOf(r, r.phase.now);
      (v.Redeem? || v.GraceChild? ==> v.id == r.phase.id) ==>
        AnswersOk(cfg, start, done, jobs[pid := r],
                  Append(cfg, h, op).(verdicts := h.verdicts[pid := v], places := h.places[pid := |h.trace|]))
  {
    var op := OpOf(r, r.phase.now);
    AnswersAppend(cfg, start, done, jobs, h, op);
    LastAnswer(cfg, start, clock, h, op);
  }

  lemma OrderCheck(cfg: Config, done: seq<Entry>, jobs: map<Pid, Running>, tickets: nat, h: Shadow, pid: Pid,
                   r: Running, v: Verdict, op: Op)
    requires OrderOk(done, jobs, tickets, h) && pid in jobs && jobs[pid].phase.Holds() && r.phase.Holds()
    requires r.phase.family == jobs[pid].phase.family && r.phase.ticket == jobs[pid].phase.ticket
    ensures OrderOk(done, jobs[pid := r], tickets,
                    Append(cfg, h, op).(verdicts := h.verdicts[pid := v], places := h.places[pid := |h.trace|]))
  {
    var h2 := Append(cfg, h, op).(verdicts := h.verdicts[pid := v], places := h.places[pid := |h.trace|]);
    var jobs2 := jobs[pid := r];
    forall q | q in jobs2 ensures HolderOk(done, tickets, h2, q, jobs2[q].phase) {
      assert q in jobs ==> HolderOk(done, tickets, h, q, jobs[q].phase);
      assert HolderOk(done, tickets, h, pid, jobs[pid].phase);
    }
  }

  lemma CheckKeepsBooks(cfg: Config, start: Time, s: Sys, h: Shadow, pid: Pid, at: Time)
    requires Books(cfg, start, s, h) && Linked(cfg, start, s.clock, h) && CheckedWell(cfg, s, h, pid, at)
    ensures var r, v, op := s.jobs[pid], Decide(cfg, h.w.db, s.jobs[pid].job.p, at), OpOf(s.jobs[pid], at);
      Books(cfg, start, s.(jobs := s.jobs[pid := Checked(r, at)], clock := at),
            Append(cfg, h, op).(verdicts := h.verdicts[pid := v], places := h.places[pid := |h.trace|]))
  {
    var r, v, op := Checked(s.jobs[pid], at), Decide(cfg, h.w.db, s.jobs[pid].job.p, at), OpOf(s.jobs[pid], at);
    SteadyVerdicts(cfg, s.db, r.phase, v);
    NamesJudging(s, h.w, pid, r.phase, Next(cfg, h.w, op));
    NamesTick(Move(s, pid, r.phase), Next(cfg, h.w, op), at);
    AnswersCheck(cfg, start, s.clock, s.done, s.jobs, h, pid, r);
    OrderCheck(cfg, s.done, s.jobs, s.tickets, h, pid, r, v, op);
  }

  lemma CheckKeeps(cfg: Config, start: Time, s: Sys, h: Shadow, pid: Pid, at: Time)
    requires Sound(cfg) && Good(cfg, start, s, h) && Can(cfg, s, Check(at, pid))
    ensures Good(cfg, start, Do(cfg, s, Check(at, pid)), Follow(cfg, s, h, Check(at, pid)))
  {
    var why := Validate(s.db, s.jobs[pid].phase.row, s.jobs[pid].job.p, at);
    if why.Some? {
      CheckRefusedKeeps(cfg, start, s, h, pid, at, why.value);
    } else {
      assert JobOk(s.clock, s.db, h.w.origins, s.jobs[pid]);
      CheckGoesWell(cfg, start, s, h, pid, at);
      CheckKeepsFacts(cfg, start, s, h, pid, at);
      CheckKeepsBooks(cfg, start, s, h, pid, at);
    }
  }

  // ---------- queries and snapshots ----------

  lemma QueryKeeps(cfg: Config, start: Time, s: Sys, h: Shadow, step: Step)
    requires Good(cfg, start, s, h) && Can(cfg, s, step) &&
      (step.SeeTombstone? || step.SeeOnPurpose? || step.SeeChildren?)
    ensures Good(cfg, start, Do(cfg, s, step), Follow(cfg, s, h, step))
  {
    var pid, ph := step.pid, s.jobs[step.pid].phase;
    var phase := if step.SeeTombstone? then ph.(tombstoned := Some(ph.family in s.db.tombstones))
    else if step.SeeOnPurpose? then ph.(onPurpose := Some(HasRevokedOnPurpose(s.db.tokens, ph.family)))
    else ph.(children := Some(|Children(s.db.tokens, ph.id)|));
    QueriesKeepSteady(cfg, s.db, ph, h.verdicts[pid]);
    QueryKeepsFacts(cfg, start, s, h, pid, phase, step.at);
    MoveKeepsBooks(cfg, start, s, h, pid, phase, step.at);
  }

  lemma ClosedIsRefused(cfg: Config, s: Sys, h: Shadow, pid: Pid, at: Time)
    requires pid in s.jobs && s.jobs[pid].job.Ask? && h.w.db.users == s.db.users
    requires RequestDeletionAnswer(s.db, s.jobs[pid].job.user) != Accepted
    ensures var r, op := s.jobs[pid], OpOf(s.jobs[pid], at);
      && Next(cfg, h.w, op).db == h.w.db && Next(cfg, h.w, op).origins == h.w.origins
      && AnswerAt(cfg, h.w.db, op, EntryOf(r, Asked(RequestDeletionAnswer(s.db, r.job.user))))
      && DrawsOnly(s, h.w, s.db, Next(cfg, h.w, op), r.job)
  {
  }

  lemma SnapshotTakenKeeps(cfg: Config, start: Time, s: Sys, h: Shadow, pid: Pid, at: Time)
    requires Good(cfg, start, s, h) && Can(cfg, s, Snapshot(at, pid))
    requires RequestDeletionAnswer(s.db, s.jobs[pid].job.user) == Accepted
    ensures Good(cfg, start, Move(s, pid, Asking(Unrevokeds(s.db.tokens, s.jobs[pid].job.user))).(clock := at), h)
  {
    var phase := Asking(Unrevokeds(s.db.tokens, s.jobs[pid].job.user));
    assert JobOk(s.clock, s.db, h.w.origins, s.jobs[pid]);
    MoveKeepsFacts(cfg, start, s, h, pid, phase, at);
    MoveKeepsBooks(cfg, start, s, h, pid, phase, at);
  }

  lemma SnapshotRefusedKeeps(cfg: Config, start: Time, s: Sys, h: Shadow, pid: Pid, at: Time, answer: DeletionAnswer)
    requires Good(cfg, start, s, h) && Can(cfg, s, Snapshot(at, pid))
    requires RequestDeletionAnswer(s.db, s.jobs[pid].job.user) == answer && answer != Accepted
    ensures Good(cfg, start, Finish(s, pid, s.db, Asked(answer)).(clock := at), EndWith(cfg, h, OpOf(s.jobs[pid], at)))
  {
    var op := OpOf(s.jobs[pid], at);
    assert JobOk(s.clock, s.db, h.w.origins, s.jobs[pid]);
    OpIsEnabled(cfg, s, h, pid, at);
    ClosedIsRefused(cfg, s, h, pid, at);
    RefusalKeepsFacts(cfg, start, s, h, pid, Asked(answer), op);
    EndKeepsBooks(cfg, start, s, h, pid, s.db, Asked(answer), op);
  }

  lemma SnapshotKeeps(cfg: Config, start: Time, s: Sys, h: Shadow, pid: Pid, at: Time)
    requires Good(cfg, start, s, h) && Can(cfg, s, Snapshot(at, pid))
    ensures Good(cfg, start, Do(cfg, s, Snapshot(at, pid)), Follow(cfg, s, h, Snapshot(at, pid)))
  {
    var answer := RequestDeletionAnswer(s.db, s.jobs[pid].job.user);
    if answer == Accepted {
      SnapshotTakenKeeps(cfg, start, s, h, pid, at);
    } else {
      SnapshotRefusedKeeps(cfg, start, s, h, pid, at, answer);
    }
  }

  // ---------- commits ----------

  lemma OthersHoldElsewhere(s: Sys, pid: Pid, q: Pid)
    requires LocksOk(s.jobs, s.locks) && pid in s.jobs && q in s.jobs && q != pid
    requires s.jobs[pid].phase.Holds() && s.jobs[q].phase.Holds()
    ensures s.jobs[q].phase.family != s.jobs[pid].phase.family
  {
  }

  lemma JudgedAfterFinish(s: Sys, pid: Pid, db2: Db, result: Result, at: Time)
    requires LocksOk(s.jobs, s.locks) && pid in s.jobs && s.jobs[pid].phase.Holds()
    ensures var s2, f := Finish(s, pid, db2, result).(clock := at), s.jobs[pid].phase.family;
      && !Judged(s2, f) && (forall g :: g != f ==> Judged(s2, g) == Judged(s, g))
      && forall q :: q in s2.jobs && s2.jobs[q].phase.Judging? ==> s2.jobs[q].phase.family != f
  {
  }

  lemma OthersKeepNames(s: Sys, h: Shadow, pid: Pid, q: Pid, db2: Db)
    requires NamesOk(s, h.w) && pid in s.jobs && q in s.jobs && q != pid && s.jobs[q].job.Rotate?
    requires db2.tokens.Keys <= s.db.tokens.Keys + (if s.jobs[pid].job.Rotate? then {s.jobs[pid].job.newId} else {})
    ensures s.jobs[q].job.newId !in s.db.tokens && s.jobs[q].job.newId !in db2.tokens
  {
    assert NameOk(s, h.w, s.jobs[q]) && Apart(s.jobs[q].job, s.jobs[pid].job);
  }

  /** Removing a holder and its lock leaves the others as they were. */
  lemma OthersAfterFinish(s: Sys, h: Shadow, pid: Pid, db2: Db, result: Result, at: Time)
    requires LocksOk(s.jobs, s.locks) && NamesOk(s, h.w) && pid in s.jobs && s.jobs[pid].phase.Holds()
    requires forall q :: q in s.jobs && s.jobs[q].phase.Judging? ==> s.jobs[q].job.Rotate?
    requires db2.tokens.Keys <= s.db.tokens.Keys + (if s.jobs[pid].job.Rotate? then {s.jobs[pid].job.newId} else {})
    ensures OthersAlike(s, Finish(s, pid, db2, result).(clock := at), s.jobs[pid].phase.family)
  {
    var s2 := Finish(s, pid, db2, result).(clock := at);
    JudgedAfterFinish(s, pid, db2, result, at);
    forall q | q in s2.jobs && s2.jobs[q].phase.Judging?
      ensures s.jobs[q].job.newId !in s.db.tokens && s.jobs[q].job.newId !in s2.db.tokens
    {
      OthersKeepNames(s, h, pid, q, db2);
    }
  }

  lemma WritingLeavesAlone(cfg: Config, s: Sys, h: Shadow, pid: Pid, v: Verdict)
    requires LocksOk(s.jobs, s.locks) && NamesOk(s, h.w) && pid in s.jobs && s.jobs[pid].job.Rotate? &&
      s.jobs[pid].phase.Judging?
    requires RowThere(s.db, s.jobs[pid].phase)
    ensures LeavesAlone(s.db, Written(cfg, s.db, s.jobs[pid], v), s.jobs - {pid})
  {
    var db2, r := Written(cfg, s.db, s.jobs[pid], v), s.jobs[pid];
    assert NameOk(s, h.w, r);
    forall q | q in s.jobs - {pid} && s.jobs[q].phase.HoldsRow() && RowThere(s.db, s.jobs[q].phase)
      ensures RowThere(db2, s.jobs[q].phase)
    {
      OthersHoldElsewhere(s, pid, q);
    }
    forall q | q in s.jobs - {pid} && s.jobs[q].job.Rotate? ensures s.jobs[q].job.p.hash != r.job.newHash {
      assert Unnamed(s.jobs[q].job, r.job);
    }
  }

  lemma WritingKeepsHome(cfg: Config, db: Db, r: Running, v: Verdict, ph: Phase)
    requires r.job.Rotate? && r.phase.Judging? && ph.HoldsRow() && ph.id != r.phase.id && ChildrenHome(db.tokens, ph)
    ensures ChildrenHome(Written(cfg, db, r, v).tokens, ph)
  {
  }

  lemma SteadyAfterWriting(cfg: Config, s: Sys, h: Shadow, pid: Pid, v: Verdict)
    requires Agree(cfg, s, h) && LocksOk(s.jobs, s.locks) && NamesOk(s, h.w) && KinOk(cfg, h.w.db.tokens)
    requires SteadyOk(cfg, s.db, s.jobs, h.verdicts)
    requires pid in s.jobs && s.jobs[pid].job.Rotate? && s.jobs[pid].phase.Judging? && RowThere(s.db, s.jobs[pid].phase)
    ensures SteadyOk(cfg, Written(cfg, s.db, s.jobs[pid], v), s.jobs - {pid}, h.verdicts)
  {
    var r, db2, jobs2 := s.jobs[pid], Written(cfg, s.db, s.jobs[pid], v), s.jobs - {pid};
    assert NameOk(s, h.w, r);
    forall q | q in jobs2 && jobs2[q].phase.Judging? ensures Steady(cfg, db2, jobs2[q].phase, h.verdicts[q]) {
      var ph := jobs2[q].phase;
      OthersHoldElsewhere(s, pid, q);
      HomeHere(cfg, s, h, ph);
      WritingKeepsHome(cfg, s.db, r, v, ph);
      WritingStaysInFamily(cfg, s.db, r, v, ph.family);
      SameFamilyTrans(db2, s.db, db2, ph.family);
      SteadyIsLocal(cfg, s.db, db2, ph, h.verdicts[q]);
    }
  }

  lemma AgreeRotated(cfg: Config, s: Sys, h: Shadow, pid: Pid, v: Verdict, result: Result, at: Time)
    requires Agree(cfg, s, h) && LocksOk(s.jobs, s.locks) && NamesOk(s, h.w) && SteadyOk(cfg, s.db, s.jobs, h.verdicts)
    requires pid in s.jobs && s.jobs[pid].job.Rotate? && s.jobs[pid].phase.Judging? && RowThere(s.db, s.jobs[pid].phase)
    requires pid in h.verdicts && v == h.verdicts[pid]
    ensures Agree(cfg, Finish(s, pid, Written(cfg, s.db, s.jobs[pid], v), result).(clock := at),
                  h.(positions := h.positions + [if pid in h.places then h.places[pid] else 0]))
  {
    var r := s.jobs[pid];
    var db2 := Written(cfg, s.db, r, v);
    assert r.job.newId !in s.db.tokens by {
      assert NameOk(s, h.w, r);
    }
    JudgedAfterFinish(s, pid, db2, result, at);
    OthersAfterFinish(s, h, pid, db2, result, at);
    WritingElsewhere(cfg, s.db, r, v);
    UnchangedElsewhere(h.w.db, r.phase.family);
    assert JudgedOk(cfg, s.db, r, v, h.w.db);
    AgreeOutside(cfg, s, h, Finish(s, pid, db2, result).(clock := at),
                 h.(positions := h.positions + [if pid in h.places then h.places[pid] else 0]), r.phase.family);
  }

  lemma RotatedKeepsFacts(cfg: Config, start: Time, s: Sys, h: Shadow, pid: Pid, v: Verdict, at: Time)
    requires Sound(cfg) && Facts(cfg, start, s, h) && NamesOk(s, h.w) && s.clock <= at && pid in h.places
    requires pid in s.jobs && s.jobs[pid].job.Rotate? && s.jobs[pid].phase.Judging? && pid in h.verdicts &&
      v == h.verdicts[pid]
    ensures Facts(cfg, start, Finish(s, pid, Written(cfg, s.db, s.jobs[pid], v), Rotated(Reply(v))).(clock := at),
                  h.(positions := h.positions + [h.places[pid]]))
  {
    var r := s.jobs[pid];
    var db2 := Written(cfg, s.db, r, v);
    assert KinOk(cfg, h.w.db.tokens) by {
      LinkedIsSafe(cfg, start, s.clock, h);
    }
    assert JobOk(s.clock, s.db, h.w.origins, r);
    AgreeRotated(cfg, s, h, pid, v, Rotated(Reply(v)), at);
    LocksFinish(s, pid, db2, Rotated(Reply(v)));
    WritingLeavesAlone(cfg, s, h, pid, v);
    JobsLeftAlone(s.clock, at, s.db, db2, h.w.origins, h.w.origins, s.jobs, s.jobs - {pid});
    SteadyAfterWriting(cfg, s, h, pid, v);
  }

  lemma RotatedKeepsBooks(cfg: Config, start: Time, s: Sys, h: Shadow, pid: Pid, v: Verdict, at: Time)
    requires Books(cfg, start, s, h) && LocksOk(s.jobs, s.locks)
    requires pid in s.jobs && s.jobs[pid].job.Rotate? && s.jobs[pid].phase.Judging? && pid in h.verdicts &&
      v == h.verdicts[pid]
    ensures pid in h.places
    ensures Books(cfg, start, Finish(s, pid, Written(cfg, s.db, s.jobs[pid], v), Rotated(Reply(v))).(clock := at),
                  h.(positions := h.positions + [h.places[pid]]))
  {
    var r, db2 := s.jobs[pid], Written(cfg, s.db, s.jobs[pid], v);
    assert JudgedAt(cfg, start, h.trace, h.places[pid], r, v);
    assert HolderOk(s.done, s.tickets, h, pid, r.phase);
    NamesFinish(s, h.w, pid, db2, h.w, Rotated(Reply(v)));
    NamesTick(Finish(s, pid, db2, Rotated(Reply(v))), h.w, at);
    AnswersFinish(cfg, start, s, h, pid, db2, Rotated(Reply(v)), h.places[pid]);
    OrderFinish(s, h, pid, db2, Rotated(Reply(v)), h.places[pid]);
  }

  lemma CommitRotationKeeps(cfg: Config, start: Time, s: Sys, h: Shadow, pid: Pid, at: Time)
    requires Sound(cfg) && Good(cfg, start, s, h) && Can(cfg, s, Commit(at, pid)) && s.jobs[pid].job.Rotate?
    ensures Good(cfg, start, Do(cfg, s, Commit(at, pid)), Follow(cfg, s, h, Commit(at, pid)))
  {
    var v := h.verdicts[pid];
    SettledIsTheVerdict(cfg, s.db, s.jobs[pid].phase, v);
    RotatedKeepsBooks(cfg, start, s, h, pid, v, at);
    RotatedKeepsFacts(cfg, start, s, h, pid, v, at);
  }

  /** A revocation ends the same family in the shadow, and answers the same. */
  ghost predicate RevokedWell(cfg: Config, s: Sys, h: Shadow, pid: Pid, op: Op) {
    && pid in s.jobs && s.jobs[pid].job.Revoke? && s.jobs[pid].phase.Locked? && Enabled(cfg, h.w, op)
    && var r, w2 := s.jobs[pid], Next(cfg, h.w, op);
       var tomb := Tombstone(r.phase.user, Revoked, r.since);
       && w2.db == KillFamily(h.w.db, r.phase.family, tomb) && w2.origins == h.w.origins
       && DrawsOnly(s, h.w, KillFamily(s.db, r.phase.family, tomb), w2, r.job)
       && AnswerAt(cfg, h.w.db, op, EntryOf(r, RevokedRows(Unrevoked(s.db.tokens, r.phase.family))))
  }

  lemma UnrevokedAlike(db: Db, db2: Db, f: FamilyId)
    requires SameFamily(db, db2, f)
    ensures Unrevoked(db.tokens, f) == Unrevoked(db2.tokens, f)
  {
    if Unrevoked(db.tokens, f) {
      var i :| i in db.tokens && db.tokens[i].family == f && db.tokens[i].revokedAt.None?;
      assert db2.tokens[i] == db.tokens[i];
    }
    if Unrevoked(db2.tokens, f) {
      var i :| i in db2.tokens && db2.tokens[i].family == f && db2.tokens[i].revokedAt.None?;
      assert db.tokens[i] == db2.tokens[i];
    }
  }

  lemma RevokeGoesWell(cfg: Config, start: Time, s: Sys, h: Shadow, pid: Pid, at: Time)
    requires Sound(cfg) && Linked(cfg, start, s.clock, h) && Agree(cfg, s, h) && LocksOk(s.jobs, s.locks) &&
      NamesOk(s, h.w)
    requires pid in s.jobs && JobOk(s.clock, s.db, h.w.origins, s.jobs[pid]) && Can(cfg, s, Commit(at, pid)) &&
      s.jobs[pid].job.Revoke?
    ensures RevokedWell(cfg, s, h, pid, RevokeOp(s.db, s.jobs[pid], at))
  {
    var r, f := s.jobs[pid], s.jobs[pid].phase.family;
    assert Named(h.w) by {
      LinkedIsSafe(cfg, start, s.clock, h);
    }
    FoundAlike(cfg, s, h, pid);
    NotJudgedWhileReading(s, pid);
    UnrevokedAlike(h.w.db, s.db, f);
    RevokingChanges(h.w.db.tokens, f, r.since);
  }

  lemma KillingElsewhere(db: Db, f: FamilyId, tomb: Tombstone)
    ensures Elsewhere(db, KillFamily(db, f, tomb), f)
  {
    forall g | g != f ensures SameFamily(db, KillFamily(db, f, tomb), g) {
      KillingStaysInFamily(db, f, tomb, g);
    }
  }

  lemma KillingLeavesAlone(s: Sys, pid: Pid, tomb: Tombstone)
    requires LocksOk(s.jobs, s.locks) && pid in s.jobs && s.jobs[pid].phase.Holds()
    ensures LeavesAlone(s.db, KillFamily(s.db, s.jobs[pid].phase.family, tomb), s.jobs - {pid})
  {
    var db2 := KillFamily(s.db, s.jobs[pid].phase.family, tomb);
    forall q | q in s.jobs - {pid} && s.jobs[q].phase.HoldsRow() && RowThere(s.db, s.jobs[q].phase)
      ensures RowThere(db2, s.jobs[q].phase)
    {
      OthersHoldElsewhere(s, pid, q);
    }
  }

  lemma SteadyAfterKilling(cfg: Config, s: Sys, h: Shadow, pid: Pid, tomb: Tombstone)
    requires Agree(cfg, s, h) && LocksOk(s.jobs, s.locks) && NamesOk(s, h.w) && KinOk(cfg, h.w.db.tokens)
    requires SteadyOk(cfg, s.db, s.jobs, h.verdicts) && pid in s.jobs && s.jobs[pid].phase.Holds()
    ensures SteadyOk(cfg, KillFamily(s.db, s.jobs[pid].phase.family, tomb), s.jobs - {pid}, h.verdicts)
  {
    var f, jobs2 := s.jobs[pid].phase.family, s.jobs - {pid};
    var db2 := KillFamily(s.db, f, tomb);
    forall q | q in jobs2 && jobs2[q].phase.Judging? ensures Steady(cfg, db2, jobs2[q].phase, h.verdicts[q]) {
      var ph := jobs2[q].phase;
      OthersHoldElsewhere(s, pid, q);
      HomeHere(cfg, s, h, ph);
      KillingElsewhere(s.db, f, tomb);
      SteadyIsLocal(cfg, s.db, db2, ph, h.verdicts[q]);
    }
  }

  lemma AgreeRevoked(cfg: Config, s: Sys, h: Shadow, pid: Pid, result: Result, op: Op)
    requires Agree(cfg, s, h) && LocksOk(s.jobs, s.locks) && NamesOk(s, h.w) && SteadyOk(cfg, s.db, s.jobs, h.verdicts)
    requires RevokedWell(cfg, s, h, pid, op)
    ensures var r := s.jobs[pid];
      Agree(cfg, Finish(s, pid, KillFamily(s.db, r.phase.family, Tombstone(r.phase.user, Revoked, r.since)),
          result).(clock := op.at),
            EndWith(cfg, h, op))
  {
    var f, tomb := s.jobs[pid].phase.family, Tombstone(s.jobs[pid].phase.user, Revoked, s.jobs[pid].since);
    var db2 := KillFamily(s.db, f, tomb);
    NotJudgedWhileReading(s, pid);
    JudgedAfterFinish(s, pid, db2, result, op.at);
    OthersAfterFinish(s, h, pid, db2, result, op.at);
    KillingElsewhere(s.db, f, tomb);
    KillingElsewhere(h.w.db, f, tomb);
    KillingIsLocal(h.w.db, s.db, f, tomb);
    AgreeOutside(cfg, s, h, Finish(s, pid, db2, result).(clock := op.at), EndWith(cfg, h, op), f);
  }

  lemma RevokedKeepsFacts(cfg: Config, start: Time, s: Sys, h: Shadow, pid: Pid, result: Result, op: Op)
    requires Sound(cfg) && Facts(cfg, start, s, h) && NamesOk(s, h.w) && s.clock <= op.at &&
      RevokedWell(cfg, s, h, pid, op)
    ensures var r := s.jobs[pid];
      Facts(cfg, start,
            Finish(s, pid, KillFamily(s.db, r.phase.family, Tombstone(r.phase.user, Revoked, r.since)),
                result).(clock := op.at),
            EndWith(cfg, h, op))
  {
    var f, tomb := s.jobs[pid].phase.family, Tombstone(s.jobs[pid].phase.user, Revoked, s.jobs[pid].since);
    var db2 := KillFamily(s.db, f, tomb);
    assert KinOk(cfg, h.w.db.tokens) by {
      LinkedIsSafe(cfg, start, s.clock, h);
    }
    LinkedAppend(cfg, start, s.clock, h, op);
    AgreeRevoked(cfg, s, h, pid, result, op);
    LocksFinish(s, pid, db2, result);
    KillingLeavesAlone(s, pid, tomb);
    JobsLeftAlone(s.clock, op.at, s.db, db2, h.w.origins, h.w.origins, s.jobs, s.jobs - {pid});
    SteadyAfterKilling(cfg, s, h, pid, tomb);
  }

  lemma CommitRevocationKeeps(cfg: Config, start: Time, s: Sys, h: Shadow, pid: Pid, at: Time)
    requires Sound(cfg) && Good(cfg, start, s, h) && Can(cfg, s, Commit(at, pid)) && s.jobs[pid].job.Revoke?
    ensures Good(cfg, start, Do(cfg, s, Commit(at, pid)), Follow(cfg, s, h, Commit(at, pid)))
  {
    var r, op := s.jobs[pid], RevokeOp(s.db, s.jobs[pid], at);
    var f := r.phase.family;
    var db2 := KillFamily(s.db, f, Tombstone(r.phase.user, Revoked, r.since));
    assert JobOk(s.clock, s.db, h.w.origins, r);
    RevokeGoesWell(cfg, start, s, h, pid, at);
    RevokedKeepsFacts(cfg, start, s, h, pid, RevokedRows(Unrevoked(s.db.tokens, f)), op);
    EndKeepsBooks(cfg, start, s, h, pid, db2, RevokedRows(Unrevoked(s.db.tokens, f)), op);
  }

  lemma LockKeeps(cfg: Config, start: Time, s: Sys, h: Shadow, pid: Pid, at: Time)
    requires Good(cfg, start, s, h) && Can(cfg, s, Lock(at, pid))
    ensures Good(cfg, start, Do(cfg, s, Lock(at, pid)), h)
  {
    LockKeepsFacts(cfg, start, s, h, pid, at);
    LockKeepsBooks(cfg, start, s, h, pid, at);
  }
}
