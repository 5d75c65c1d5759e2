/** Deletion requests, and everything that happens around the transactions, keep the system and its shadow together. */
module FamilySurroundings {
  import opened Prelude
  import opened GrantTables
  import opened GrantSteps
  import opened GrantMachine
  import opened GrantInvariants
  import opened FamilyLock
  import opened FamilyShadow
  import opened FamilyBooks
  import opened FamilyTransactions

  // ---------- statements on all rows of a user ----------

  /** No rotation of this user is being judged. */
  ghost predicate NobodyJudges(s: Sys, u: UserId) {
    forall q :: q in s.jobs && s.jobs[q].phase.Judging? ==> s.jobs[q].phase.row.grant.user != u
  }

  /** Only rows of the user change, each by itself and in both databases alike; tombstones stay. */
  ghost predicate UserWide(db: Db, db2: Db, u: UserId) {
    && db2.tombstones == db.tombstones
    && (forall i :: i in db.tokens && db.tokens[i].grant.user != u ==> i in db2.tokens && db2.tokens[i] == db.tokens[i])
    && (forall i :: i in db2.tokens ==> i in db.tokens && db2.tokens[i].family == db.tokens[i].family
                                        && db2.tokens[i].grant == db.tokens[i].grant &&
                                             db2.tokens[i].hash == db.tokens[i].hash
                                        && db2.tokens[i].parent == db.tokens[i].parent)
  }

  /** All rows of the family belong to this user. */
  ghost predicate OwnedBy(t: Tokens, f: FamilyId, u: UserId) {
    forall i :: i in t && t[i].family == f ==> t[i].grant.user == u
  }

  lemma OtherOwnersUntouched(db: Db, db2: Db, u: UserId, f: FamilyId, owner: UserId)
    requires UserWide(db, db2, u) && OwnedBy(db.tokens, f, owner) && owner != u
    ensures SameFamily(db, db2, f)
  {
  }

  lemma OwnerThere(w: World, ph: Phase)
    requires Named(w) && ph.HoldsRow() && ph.id in w.db.tokens && SameRow(ph.row, w.db.tokens[ph.id]) &&
      ph.row.family == ph.family
    ensures OwnedBy(w.db.tokens, ph.family, ph.row.grant.user)
  {
  }

  lemma OwnerHere(cfg: Config, s: Sys, h: Shadow, ph: Phase)
    requires Agree(cfg, s, h) && LocksOk(s.jobs, s.locks) && NamesOk(s, h.w) && Named(h.w) && RowThere(s.db, ph)
    ensures OwnedBy(s.db.tokens, ph.family, ph.row.grant.user) && OwnedBy(h.w.db.tokens, ph.family, ph.row.grant.user)
  {
    ReservedAreNoRows(s, h.w, ph.id);
    RowInShadow(cfg, s, h, ph.id);
    OwnerThere(h.w, ph);
    forall i | i in s.db.tokens && s.db.tokens[i].family == ph.family
      ensures s.db.tokens[i].grant.user == ph.row.grant.user {
      ReservedAreNoRows(s, h.w, i);
      RowInShadow(cfg, s, h, i);
    }
  }

  /** Both databases change in the same way in every family that is not being judged, and not at all in the others. */
  lemma AgreeUserWide(cfg: Config, s: Sys, h: Shadow, s2: Sys, h2: Shadow, u: UserId)
    requires Agree(cfg, s, h) && LocksOk(s.jobs, s.locks) && NamesOk(s, h.w) && Named(h.w) && NobodyJudges(s, u)
    requires SteadyOk(cfg, s.db, s.jobs, h.verdicts)
    requires UserWide(s.db, s2.db, u) && UserWide(h.w.db, h2.w.db, u)
    requires h2.w.db.users == s2.db.users && h2.w.db.identities == s2.db.identities &&
      h2.w.db.sessions == s2.db.sessions
    requires forall f :: SameFamily(h.w.db, s.db, f) ==> SameFamily(h2.w.db, s2.db, f)
    requires h2.verdicts == h.verdicts && forall f :: Judged(s2, f) == Judged(s, f)
    requires forall q :: q in s2.jobs && s2.jobs[q].phase.Judging? ==> q in s.jobs && s2.jobs[q] == s.jobs[q]
    ensures Agree(cfg, s2, h2)
  {
    forall f | !Judged(s2, f) ensures SameFamily(h2.w.db, s2.db, f) {
      assert SameFamily(h.w.db, s.db, f);
    }
    forall q | q in s2.jobs && s2.jobs[q].phase.Judging?
      ensures JudgedOk(cfg, s2.db, s2.jobs[q], h2.verdicts[q], h2.w.db) {
      var r, ph := s.jobs[q], s.jobs[q].phase;
      assert NameOk(s, h.w, r) && Steady(cfg, s.db, ph, h.verdicts[q]) && JudgedOk(cfg, s.db, r, h.verdicts[q], h.w.db);
      OwnerHere(cfg, s, h, ph);
      OtherOwnersUntouched(s.db, s2.db, u, ph.family, ph.row.grant.user);
      OtherOwnersUntouched(h.w.db, h2.w.db, u, ph.family, ph.row.grant.user);
      JudgedStays(cfg, s.db, s2.db, h.w.db, h2.w.db, r, h.verdicts[q]);
    }
  }

  lemma SteadyUserWide(cfg: Config, s: Sys, h: Shadow, db2: Db, jobs2: map<Pid, Running>, u: UserId)
    requires Agree(cfg, s, h) && LocksOk(s.jobs, s.locks) && NamesOk(s, h.w) && Named(h.w) && KinOk(cfg, h.w.db.tokens)
    requires SteadyOk(cfg, s.db, s.jobs, h.verdicts) && NobodyJudges(s, u) && UserWide(s.db, db2, u)
    requires forall q :: q in jobs2 ==> q in s.jobs && jobs2[q] == s.jobs[q]
    ensures SteadyOk(cfg, db2, jobs2, h.verdicts)
  {
    forall q | q in jobs2 && jobs2[q].phase.Judging? ensures Steady(cfg, db2, jobs2[q].phase, h.verdicts[q]) {
      var ph := s.jobs[q].phase;
      assert Steady(cfg, s.db, ph, h.verdicts[q]);
      OwnerHere(cfg, s, h, ph);
      OtherOwnersUntouched(s.db, db2, u, ph.family, ph.row.grant.user);
      HomeHere(cfg, s, h, ph);
      SteadyIsLocal(cfg, s.db, db2, ph, h.verdicts[q]);
    }
  }

  // ---------- deletion requests ----------

  /** A calm request revokes every unrevoked row of the user. */
  lemma CalmRevokesAll(s: Sys, pid: Pid)
    requires pid in s.jobs && s.jobs[pid].job.Ask? && s.jobs[pid].phase.Asking? && Calm(s, pid)
    requires RequestDeletionAnswer(s.db, s.jobs[pid].job.user) == Accepted
    ensures AskedDb(s.db, s.jobs[pid].job.user, s.jobs[pid].phase.seen, s.jobs[pid].since)
         == RequestDeletion(s.db, s.jobs[pid].job.user, s.jobs[pid].since)
    ensures NobodyJudges(s, s.jobs[pid].job.user)
  {
    var u, seen, t := s.jobs[pid].job.user, s.jobs[pid].phase.seen, s.db.tokens;
    forall i | i in t && t[i].grant.user == u && t[i].revokedAt.None? ensures i in seen {
      assert i in Unrevokeds(t, u);
    }
    assert RevokeSeen(t, u, seen, s.jobs[pid].since) == RevokeUser(t, u, s.jobs[pid].since);
  }

  lemma AskingIsUserWide(db: Db, u: UserId, now: Time)
    ensures UserWide(db, RequestDeletion(db, u, now), u)
  {
  }

  lemma AskingAlike(db: Db, db2: Db, u: UserId, now: Time, f: FamilyId)
    requires db.users == db2.users && SameFamily(db, db2, f)
    ensures SameFamily(RequestDeletion(db, u, now), RequestDeletion(db2, u, now), f)
  {
  }

  lemma AskingLeavesAlone(s: Sys, pid: Pid)
    requires pid in s.jobs && s.jobs[pid].job.Ask? && s.jobs[pid].phase.Asking?
    requires forall i :: i in s.jobs[pid].phase.seen ==> !RowHeld(s, i)
    requires forall q :: q in s.jobs && s.jobs[q].phase.Asking? && s.jobs[q].job == s.jobs[pid].job ==> q == pid
    ensures LeavesAlone(s.db, AskedDb(s.db, s.jobs[pid].job.user, s.jobs[pid].phase.seen, s.jobs[pid].since),
      s.jobs - {pid})
  {
  }

  lemma JudgedAfterAsked(s: Sys, pid: Pid, db2: Db, result: Result, at: Time)
    requires LocksOk(s.jobs, s.locks) && pid in s.jobs && s.jobs[pid].phase.Asking?
    ensures forall f :: Judged(Finish(s, pid, db2, result).(clock := at), f) == Judged(s, f)
  {
  }

  lemma AskedAlike(db: Db, db2: Db, u: UserId, now: Time)
    requires db.users == db2.users
    ensures forall f :: SameFamily(db, db2, f) ==>
      SameFamily(RequestDeletion(db, u, now), RequestDeletion(db2, u, now), f)
    ensures RequestDeletion(db, u, now).users == RequestDeletion(db2, u, now).users
  {
    forall f | SameFamily(db, db2, f) ensures SameFamily(RequestDeletion(db, u, now), RequestDeletion(db2, u, now), f) {
      AskingAlike(db, db2, u, now, f);
    }
  }

  lemma AgreeAsked(cfg: Config, s: Sys, h: Shadow, pid: Pid, op: Op)
    requires Agree(cfg, s, h) && LocksOk(s.jobs, s.locks) && NamesOk(s, h.w) && Named(h.w) &&
      SteadyOk(cfg, s.db, s.jobs, h.verdicts)
    requires pid in s.jobs && s.jobs[pid].job.Ask? && s.jobs[pid].phase.Asking? && NobodyJudges(s, s.jobs[pid].job.user)
    requires op == OpOf(s.jobs[pid], op.at)
    ensures Agree(cfg, Finish(s, pid, RequestDeletion(s.db, s.jobs[pid].job.user, s.jobs[pid].since),
      Asked(Accepted)).(clock := op.at),
                  EndWith(cfg, h, op))
  {
    var u, since := s.jobs[pid].job.user, s.jobs[pid].since;
    var db2, d2 := RequestDeletion(s.db, u, since), RequestDeletion(h.w.db, u, since);
    var s2, h2 := Finish(s, pid, db2, Asked(Accepted)).(clock := op.at), EndWith(cfg, h, op);
    assert h2.w.db == d2;
    JudgedAfterAsked(s, pid, db2, Asked(Accepted), op.at);
    AskingIsUserWide(s.db, u, since);
    AskingIsUserWide(h.w.db, u, since);
    AskedAlike(h.w.db, s.db, u, since);
    AgreeUserWide(cfg, s, h, s2, h2, u);
  }

  lemma AskedKeepsFacts(cfg: Config, start: Time, s: Sys, h: Shadow, pid: Pid, at: Time)
    requires Sound(cfg) && Facts(cfg, start, s, h) && NamesOk(s, h.w) && Can(cfg, s, Commit(at, pid))
    requires s.jobs[pid].job.Ask? && Calm(s, pid)
    ensures Facts(cfg, start, Do(cfg, s, Commit(at, pid)), Follow(cfg, s, h, Commit(at, pid)))
  {
    var r, op := s.jobs[pid], OpOf(s.jobs[pid], at);
    var db2 := RequestDeletion(s.db, r.job.user, r.since);
    assert Named(h.w) && KinOk(cfg, h.w.db.tokens) by {
      LinkedIsSafe(cfg, start, s.clock, h);
    }
    assert JobOk(s.clock, s.db, h.w.origins, r);
    CalmRevokesAll(s, pid);
    OpIsEnabled(cfg, s, h, pid, at);
    LinkedAppend(cfg, start, s.clock, h, op);
    AgreeAsked(cfg, s, h, pid, op);
    LocksFinish(s, pid, db2, Asked(Accepted));
    AskingLeavesAlone(s, pid);
    JobsLeftAlone(s.clock, at, s.db, db2, h.w.origins, h.w.origins, s.jobs, s.jobs - {pid});
    AskingIsUserWide(s.db, r.job.user, r.since);
    SteadyUserWide(cfg, s, h, db2, s.jobs - {pid}, r.job.user);
  }

  lemma CommitRequestKeeps(cfg: Config, start: Time, s: Sys, h: Shadow, pid: Pid, at: Time)
    requires Sound(cfg) && Good(cfg, start, s, h) && Can(cfg, s, Commit(at, pid)) && s.jobs[pid].job.Ask? &&
      Calm(s, pid)
    ensures Good(cfg, start, Do(cfg, s, Commit(at, pid)), Follow(cfg, s, h, Commit(at, pid)))
  {
    var r, op := s.jobs[pid], OpOf(s.jobs[pid], at);
    var db2 := RequestDeletion(s.db, r.job.user, r.since);
    AskedKeepsFacts(cfg, start, s, h, pid, at);
    assert JobOk(s.clock, s.db, h.w.origins, r);
    CalmRevokesAll(s, pid);
    AskingIsUserWide(s.db, r.job.user, r.since);
    EndKeepsBooks(cfg, start, s, h, pid, db2, Asked(Accepted), op);
  }

  // ---------- everything else ----------

  /** What has to be shown of a step of the surroundings. */
  ghost predicate SurroundedWell(cfg: Config, s: Sys, h: Shadow, op: Op) {
    && Enabled(cfg, h.w, op)
    && Agree(cfg, Surrounded(cfg, s, op).(clock := op.at), Append(cfg, h, op))
    && LeavesAlone(s.db, DbAfter(cfg, s.db, op), s.jobs)
    && SteadyOk(cfg, DbAfter(cfg, s.db, op), s.jobs, h.verdicts)
  }

  predicate UsersOnly(op: Op) {
    op.SignUp? || op.LogIn? || op.RecoverUser? || op.DisableUser?
  }

  predicate SameTables(db: Db, db2: Db) {
    db2.tokens == db.tokens && db2.tombstones == db.tombstones
  }

  lemma SameTablesSameFamily(d: Db, d2: Db, e: Db, e2: Db, f: FamilyId)
    requires SameTables(d, d2) && SameTables(e, e2) && SameFamily(d, e, f)
    ensures SameFamily(d2, e2, f)
  {
  }

  lemma WritingSameTables(cfg: Config, db: Db, db2: Db, r: Running, v: Verdict)
    requires SameTables(db, db2) && r.job.Rotate? && r.phase.Judging?
    ensures SameTables(Written(cfg, db, r, v), Written(cfg, db2, r, v))
  {
  }

  /** Tokens and tombstones stay in both databases. */
  lemma AgreeTables(cfg: Config, s: Sys, h: Shadow, s2: Sys, h2: Shadow)
    requires Agree(cfg, s, h) && s2.jobs == s.jobs && s2.locks == s.locks && h2.verdicts == h.verdicts
    requires SameTables(s.db, s2.db) && SameTables(h.w.db, h2.w.db)
    requires h2.w.db.users == s2.db.users && h2.w.db.identities == s2.db.identities &&
      h2.w.db.sessions == s2.db.sessions
    ensures Agree(cfg, s2, h2)
  {
    forall f | !Judged(s2, f) ensures SameFamily(h2.w.db, s2.db, f) {
      assert !Judged(s, f);
      SameTablesSameFamily(h.w.db, h2.w.db, s.db, s2.db, f);
    }
    forall q | q in s2.jobs && s2.jobs[q].phase.Judging?
      ensures JudgedOk(cfg, s2.db, s2.jobs[q], h2.verdicts[q], h2.w.db) {
      var r, v := s.jobs[q], h.verdicts[q];
      assert JudgedOk(cfg, s.db, r, v, h.w.db);
      WritingSameTables(cfg, s.db, s2.db, r, v);
      SameTablesSameFamily(h.w.db, h2.w.db, Written(cfg, s.db, r, v), Written(cfg, s2.db, r, v), r.phase.family);
    }
  }

  lemma SteadyTables(cfg: Config, db: Db, db2: Db, jobs: map<Pid, Running>, verdicts: map<Pid, Verdict>)
    requires SteadyOk(cfg, db, jobs, verdicts) && SameTables(db, db2)
    ensures SteadyOk(cfg, db2, jobs, verdicts)
  {
    forall q | q in jobs && jobs[q].phase.Judging?
      ensures q in verdicts && Steady(cfg, db2, jobs[q].phase, verdicts[q]) {
      assert Steady(cfg, db, jobs[q].phase, verdicts[q]);
    }
  }

  lemma HeldUsersStay(cfg: Config, s: Sys, op: Op)
    requires EnvReady(cfg, s, op) && (UsersOnly(op) || op.WipeUser?)
    requires forall q :: q in s.jobs && s.jobs[q].phase.Asking? ==>
      s.jobs[q].job.Ask? && RequestDeletionAnswer(s.db, s.jobs[q].job.user) == Accepted
    ensures forall q :: q in s.jobs && s.jobs[q].phase.Asking? ==>
      RequestDeletionAnswer(DbAfter(cfg, s.db, op), s.jobs[q].job.user) == Accepted
  {
    forall q | q in s.jobs && s.jobs[q].phase.Asking?
      ensures RequestDeletionAnswer(DbAfter(cfg, s.db, op), s.jobs[q].job.user) == Accepted
    {
      var u := s.jobs[q].job.user;
      assert s.jobs[q].job == Ask(u);
      assert UserHeld(s, u);
    }
  }

  lemma AskersAreAccepted(s: Sys, origins: map<FamilyId, Grant>)
    requires JobsOk(s.clock, s.db, origins, s.jobs)
    ensures forall q :: q in s.jobs && s.jobs[q].phase.Asking? ==>
      s.jobs[q].job.Ask? && RequestDeletionAnswer(s.db, s.jobs[q].job.user) == Accepted
  {
    forall q | q in s.jobs && s.jobs[q].phase.Asking?
      ensures s.jobs[q].job.Ask? && RequestDeletionAnswer(s.db, s.jobs[q].job.user) == Accepted
    {
      assert JobOk(s.clock, s.db, origins, s.jobs[q]);
    }
  }

  lemma TablesLeaveAlone(db: Db, db2: Db, jobs: map<Pid, Running>)
    requires SameTables(db, db2)
    requires forall q :: q in jobs && jobs[q].phase.Asking? ==>
      && jobs[q].job.Ask?
      && RequestDeletionAnswer(db2, jobs[q].job.user) == RequestDeletionAnswer(db, jobs[q].job.user)
    ensures LeavesAlone(db, db2, jobs)
  {
  }

  predicate SameAccounts(db: Db, db2: Db) {
    db2.users == db.users && db2.identities == db.identities && db2.sessions == db.sessions
  }

  lemma UsersOnlyIsEnabled(cfg: Config, s: Sys, h: Shadow, op: Op)
    requires UsersOnly(op) && EnvReady(cfg, s, op) && h.w.clock <= op.at && SameAccounts(s.db, h.w.db)
    ensures Enabled(cfg, h.w, op)
  {
  }

  lemma UsersOnlyAlike(cfg: Config, db: Db, db2: Db, op: Op)
    requires UsersOnly(op) && SameAccounts(db, db2)
    ensures SameTables(db, DbAfter(cfg, db, op)) && SameTables(db2, DbAfter(cfg, db2, op))
    ensures SameAccounts(DbAfter(cfg, db, op), DbAfter(cfg, db2, op))
  {
  }

  lemma UsersOnlyGoesWell(cfg: Config, s: Sys, h: Shadow, op: Op)
    requires Agree(cfg, s, h) && JobsOk(s.clock, s.db, h.w.origins, s.jobs) && SteadyOk(cfg, s.db, s.jobs, h.verdicts)
    requires h.w.clock <= op.at && EnvReady(cfg, s, op) && UsersOnly(op)
    ensures SurroundedWell(cfg, s, h, op)
  {
    var db2 := DbAfter(cfg, s.db, op);
    UsersOnlyIsEnabled(cfg, s, h, op);
    UsersOnlyAlike(cfg, s.db, h.w.db, op);
    AskersAreAccepted(s, h.w.origins);
    HeldUsersStay(cfg, s, op);
    TablesLeaveAlone(s.db, db2, s.jobs);
    AgreeTables(cfg, s, h, Surrounded(cfg, s, op).(clock := op.at), Append(cfg, h, op));
    SteadyTables(cfg, s.db, db2, s.jobs, h.verdicts);
  }

  // ---------- a family opens ----------

  lemma NewFamilyIsEmpty(cfg: Config, s: Sys, h: Shadow, f: FamilyId)
    requires Agree(cfg, s, h) && LocksOk(s.jobs, s.locks) && NamesOk(s, h.w) && Named(h.w) && f !in s.families
    requires JobsOk(s.clock, s.db, h.w.origins, s.jobs)
    ensures !Judged(s, f)
    ensures forall i :: i in s.db.tokens ==> s.db.tokens[i].family != f
    ensures forall i :: i in h.w.db.tokens ==> h.w.db.tokens[i].family != f
  {
    forall i | i in s.db.tokens ensures s.db.tokens[i].family != f {
      ReservedAreNoRows(s, h.w, i);
      RowInShadow(cfg, s, h, i);
    }
    forall q | q in s.jobs && s.jobs[q].phase.Judging? ensures s.jobs[q].phase.family != f {
      assert JobOk(s.clock, s.db, h.w.origins, s.jobs[q]);
    }
  }

  lemma OpeningAlike(cfg: Config, db: Db, db2: Db, op: Op, g: FamilyId)
    requires op.Open? && op.id !in db.tokens && op.id !in db2.tokens
    ensures g != op.family ==> SameFamily(db, DbAfter(cfg, db, op), g)
    ensures SameFamily(db, db2, op.family) ==> SameFamily(DbAfter(cfg, db, op), DbAfter(cfg, db2, op), op.family)
  {
  }

  lemma AgreeOpened(cfg: Config, s: Sys, h: Shadow, op: Op)
    requires Agree(cfg, s, h) && LocksOk(s.jobs, s.locks) && SteadyOk(cfg, s.db, s.jobs, h.verdicts)
    requires NamesOk(s, h.w) && op.Open? && op.id !in s.db.tokens && op.id !in h.w.db.tokens && op.id !in s.ids
    requires !Judged(s, op.family) && forall q :: q in s.jobs && s.jobs[q].phase.Judging? ==> s.jobs[q].job.Rotate?
    ensures Agree(cfg, Surrounded(cfg, s, op).(clock := op.at), Append(cfg, h, op))
  {
    var s2, h2, f := Surrounded(cfg, s, op).(clock := op.at), Append(cfg, h, op), op.family;
    forall g | g != f ensures SameFamily(s.db, s2.db, g) && SameFamily(h.w.db, h2.w.db, g) {
      OpeningAlike(cfg, s.db, s.db, op, g);
      OpeningAlike(cfg, h.w.db, h.w.db, op, g);
    }
    OpeningAlike(cfg, h.w.db, s.db, op, f);
    forall q | q in s.jobs && s.jobs[q].phase.Judging?
      ensures s.jobs[q].job.newId !in s.db.tokens && s.jobs[q].job.newId !in s2.db.tokens && s.jobs[q].phase.family != f
    {
      assert NameOk(s, h.w, s.jobs[q]);
    }
    assert OthersAlike(s, s2, f);
    AgreeOutside(cfg, s, h, s2, h2, f);
  }

  lemma OpeningLeavesAlone(cfg: Config, s: Sys, h: Shadow, op: Op)
    requires op.Open? && NamesOk(s, h.w) && op.id !in s.ids && op.hash !in s.hashes
    ensures LeavesAlone(s.db, DbAfter(cfg, s.db, op), s.jobs)
  {
    forall q | q in s.jobs && s.jobs[q].job.Rotate? ensures s.jobs[q].job.p.hash != op.hash {
      assert Mentioned(s, s.jobs[q].job);
    }
  }

  lemma SteadyOpened(cfg: Config, s: Sys, h: Shadow, op: Op)
    requires Agree(cfg, s, h) && LocksOk(s.jobs, s.locks) && NamesOk(s, h.w) && KinOk(cfg, h.w.db.tokens)
    requires SteadyOk(cfg, s.db, s.jobs, h.verdicts) && op.Open? && op.id !in s.ids && !Judged(s, op.family)
    ensures SteadyOk(cfg, DbAfter(cfg, s.db, op), s.jobs, h.verdicts)
  {
    var db2 := DbAfter(cfg, s.db, op);
    forall q | q in s.jobs && s.jobs[q].phase.Judging? ensures Steady(cfg, db2, s.jobs[q].phase, h.verdicts[q]) {
      var ph := s.jobs[q].phase;
      assert Steady(cfg, s.db, ph, h.verdicts[q]) && ph.family != op.family;
      HomeHere(cfg, s, h, ph);
      OpeningAlike(cfg, s.db, s.db, op, ph.family);
      SteadyIsLocal(cfg, s.db, db2, ph, h.verdicts[q]);
    }
  }

  lemma JudgersRotate(s: Sys, origins: map<FamilyId, Grant>)
    requires JobsOk(s.clock, s.db, origins, s.jobs)
    ensures forall q :: q in s.jobs && s.jobs[q].phase.HoldsRow() ==> s.jobs[q].job.Rotate?
  {
    forall q | q in s.jobs && s.jobs[q].phase.HoldsRow() ensures s.jobs[q].job.Rotate? {
      assert JobOk(s.clock, s.db, origins, s.jobs[q]);
    }
  }

  lemma OpeningGoesWell(cfg: Config, s: Sys, h: Shadow, op: Op)
    requires Agree(cfg, s, h) && LocksOk(s.jobs, s.locks) && SteadyOk(cfg, s.db, s.jobs, h.verdicts) && NamesOk(s, h.w)
    requires JobsOk(s.clock, s.db, h.w.origins, s.jobs) && Named(h.w) && KinOk(cfg, h.w.db.tokens)
    requires h.w.clock <= op.at && EnvReady(cfg, s, op) && op.Open?
    ensures SurroundedWell(cfg, s, h, op)
  {
    NewFamilyIsEmpty(cfg, s, h, op.family);
    JudgersRotate(s, h.w.origins);
    AgreeOpened(cfg, s, h, op);
    OpeningLeavesAlone(cfg, s, h, op);
    SteadyOpened(cfg, s, h, op);
  }

  // ---------- a user is wiped ----------

  lemma WipingIsUserWide(db: Db, u: UserId, now: Time)
    ensures UserWide(db, Wipe(db, u, now), u)
  {
  }

  lemma WipingAlike(db: Db, db2: Db, u: UserId, now: Time)
    requires db.users == db2.users && db.identities == db2.identities && db.sessions == db2.sessions
    ensures forall f :: SameFamily(db, db2, f) ==> SameFamily(Wipe(db, u, now), Wipe(db2, u, now), f)
    ensures var d, d2 := Wipe(db, u, now), Wipe(db2, u, now);
      d.users == d2.users && d.identities == d2.identities && d.sessions == d2.sessions
  {
  }

  lemma NoRowOfTheUserIsHeld(cfg: Config, s: Sys, origins: map<FamilyId, Grant>, op: Op)
    requires JobsOk(s.clock, s.db, origins, s.jobs) && op.WipeUser? && EnvReady(cfg, s, op)
    ensures forall q :: q in s.jobs && s.jobs[q].phase.HoldsRow() ==> s.jobs[q].phase.row.grant.user != op.user
  {
    forall q | q in s.jobs && s.jobs[q].phase.HoldsRow() ensures s.jobs[q].phase.row.grant.user != op.user {
      assert JobOk(s.clock, s.db, origins, s.jobs[q]);
      assert RowHeld(s, s.jobs[q].phase.id);
    }
  }

  lemma WipingLeavesAlone(s: Sys, u: UserId, now: Time)
    requires forall q :: q in s.jobs && s.jobs[q].phase.HoldsRow() ==> s.jobs[q].phase.row.grant.user != u
    requires forall q :: q in s.jobs && s.jobs[q].phase.Asking? ==>
      && s.jobs[q].job.Ask?
      && RequestDeletionAnswer(Wipe(s.db, u, now), s.jobs[q].job.user)
           == RequestDeletionAnswer(s.db, s.jobs[q].job.user)
    ensures LeavesAlone(s.db, Wipe(s.db, u, now), s.jobs)
  {
  }

  lemma WipingGoesWell(cfg: Config, s: Sys, h: Shadow, op: Op)
    requires Agree(cfg, s, h) && LocksOk(s.jobs, s.locks) && SteadyOk(cfg, s.db, s.jobs, h.verdicts) && NamesOk(s, h.w)
    requires JobsOk(s.clock, s.db, h.w.origins, s.jobs) && Named(h.w) && KinOk(cfg, h.w.db.tokens)
    requires h.w.clock <= op.at && EnvReady(cfg, s, op) && op.WipeUser?
    ensures SurroundedWell(cfg, s, h, op)
  {
    var u, now := op.user, op.sampledAt;
    var s2, h2 := Surrounded(cfg, s, op).(clock := op.at), Append(cfg, h, op);
    assert s2.db == Wipe(s.db, u, now) && h2.w.db == Wipe(h.w.db, u, now);
    NoRowOfTheUserIsHeld(cfg, s, h.w.origins, op);
    AskersAreAccepted(s, h.w.origins);
    HeldUsersStay(cfg, s, op);
    WipingLeavesAlone(s, u, now);
    WipingIsUserWide(s.db, u, now);
    WipingIsUserWide(h.w.db, u, now);
    WipingAlike(h.w.db, s.db, u, now);
    AgreeUserWide(cfg, s, h, s2, h2, u);
    SteadyUserWide(cfg, s, h, s2.db, s.jobs, u);
  }

  // ---------- cleanup ----------

  predicate CleansTokens(op: Op) {
    op.CleanRevoked? || op.CleanExpired?
  }

  predicate Overdue(op: Op, row: Token)
    requires CleansTokens(op)
  {
    if op.CleanRevoked? then RevokedLongAgo(row, op.sampledAt) else ExpiredLongAgo(row, op.sampledAt)
  }

  /** A row that may be deleted here may be deleted there. */
  lemma VictimThere(cfg: Config, s: Sys, h: Shadow, op: Op, i: TokenId)
    requires Agree(cfg, s, h) && LocksOk(s.jobs, s.locks) && NamesOk(s, h.w)
    requires CleansTokens(op) && i in s.db.tokens && Overdue(op, s.db.tokens[i]) && !RowHeld(s, i)
    ensures i in h.w.db.tokens && Overdue(op, h.w.db.tokens[i])
  {
    ReservedAreNoRows(s, h.w, i);
    RowInShadow(cfg, s, h, i);
  }

  lemma CleaningIsEnabled(cfg: Config, s: Sys, h: Shadow, op: Op)
    requires Agree(cfg, s, h) && LocksOk(s.jobs, s.locks) && NamesOk(s, h.w) && h.w.clock <= op.at
    requires EnvReady(cfg, s, op) && CleansTokens(op)
    ensures Enabled(cfg, h.w, op)
  {
    forall i | i in op.victims ensures i in h.w.db.tokens && Overdue(op, h.w.db.tokens[i]) {
      VictimThere(cfg, s, h, op, i);
    }
  }

  function Removed(db: Db, victims: set<TokenId>): Db {
    db.(tokens := db.tokens - victims)
  }

  lemma RemovingAlike(db: Db, db2: Db, victims: set<TokenId>, f: FamilyId)
    requires SameFamily(db, db2, f)
    ensures SameFamily(Removed(db, victims), Removed(db2, victims), f)
  {
  }

  lemma RemovingCommutes(cfg: Config, db: Db, victims: set<TokenId>, r: Running, v: Verdict)
    requires r.job.Rotate? && r.phase.Judging? && r.phase.id !in victims && r.job.newId !in victims
    ensures Removed(Written(cfg, db, r, v), victims).tokens == Written(cfg, Removed(db, victims), r, v).tokens
    ensures Written(cfg, db, r, v).tombstones == Written(cfg, Removed(db, victims), r, v).tombstones
  {
  }

  lemma JudgedThroughCleanup(cfg: Config, db: Db, d: Db, victims: set<TokenId>, r: Running, v: Verdict)
    requires JudgedOk(cfg, db, r, v, d) && r.phase.id !in victims && r.job.newId !in victims
    ensures JudgedOk(cfg, Removed(db, victims), r, v, Removed(d, victims))
  {
    RemovingAlike(d, Written(cfg, db, r, v), victims, r.phase.family);
    RemovingCommutes(cfg, db, victims, r, v);
    SameTablesSameFamily(Removed(d, victims), Removed(d, victims), Removed(Written(cfg, db, r, v), victims),
                         Written(cfg, Removed(db, victims), r, v), r.phase.family);
  }

  lemma AgreeCleaned(cfg: Config, s: Sys, h: Shadow, s2: Sys, h2: Shadow, victims: set<TokenId>)
    requires Agree(cfg, s, h) && s2.jobs == s.jobs && s2.locks == s.locks && h2.verdicts == h.verdicts
    requires s2.db == Removed(s.db, victims) && h2.w.db == Removed(h.w.db, victims)
    requires forall q :: q in s.jobs && s.jobs[q].phase.Judging? && s.jobs[q].job.Rotate? ==>
      s.jobs[q].phase.id !in victims && s.jobs[q].job.newId !in victims
    ensures Agree(cfg, s2, h2)
  {
    forall f | !Judged(s2, f) ensures SameFamily(h2.w.db, s2.db, f) {
      assert !Judged(s, f);
      RemovingAlike(h.w.db, s.db, victims, f);
    }
    forall q | q in s2.jobs && s2.jobs[q].phase.Judging?
      ensures JudgedOk(cfg, s2.db, s2.jobs[q], h2.verdicts[q], h2.w.db) {
      assert JudgedOk(cfg, s.db, s.jobs[q], h.verdicts[q], h.w.db);
      JudgedThroughCleanup(cfg, s.db, h.w.db, victims, s.jobs[q], h.verdicts[q]);
    }
  }

  lemma VictimsAreNotHeld(cfg: Config, s: Sys, h: Shadow, op: Op)
    requires NamesOk(s, h.w) && EnvReady(cfg, s, op) && CleansTokens(op)
    ensures forall q :: q in s.jobs && s.jobs[q].phase.HoldsRow() ==> s.jobs[q].phase.id !in op.victims
    ensures forall q :: q in s.jobs && s.jobs[q].job.Rotate? ==> s.jobs[q].job.newId !in op.victims
  {
    forall q | q in s.jobs && s.jobs[q].phase.HoldsRow() ensures s.jobs[q].phase.id !in op.victims {
      assert RowHeld(s, s.jobs[q].phase.id);
    }
    forall q | q in s.jobs && s.jobs[q].job.Rotate? ensures s.jobs[q].job.newId !in op.victims {
      assert NameOk(s, h.w, s.jobs[q]);
    }
  }

  lemma RemovingLeavesAlone(db: Db, victims: set<TokenId>, jobs: map<Pid, Running>)
    requires forall q :: q in jobs && jobs[q].phase.HoldsRow() ==> jobs[q].phase.id !in victims
    ensures LeavesAlone(db, Removed(db, victims), jobs)
  {
  }

  lemma LifetimesHere(cfg: Config, s: Sys, h: Shadow, clock: Time)
    requires Agree(cfg, s, h) && LocksOk(s.jobs, s.locks) && NamesOk(s, h.w) && RowsOk(cfg, h.w.db.tokens, clock)
    ensures forall i :: i in s.db.tokens ==> s.db.tokens[i].expiresAt == s.db.tokens[i].createdAt + cfg.ttl
  {
    forall i | i in s.db.tokens ensures s.db.tokens[i].expiresAt == s.db.tokens[i].createdAt + cfg.ttl {
      ReservedAreNoRows(s, h.w, i);
      RowInShadow(cfg, s, h, i);
      assert RowOk(cfg, h.w.db.tokens[i], clock);
    }
  }

  /** No transaction stays open longer than the lag, so none was judged long before a cleanup. */
  lemma JudgedLately(cfg: Config, s: Sys, origins: map<FamilyId, Grant>, step: Step, q: Pid)
    requires JobsOk(s.clock, s.db, origins, s.jobs) && Can(cfg, s, step) && q in s.jobs && s.jobs[q].phase.Judging?
    ensures step.at <= s.jobs[q].phase.now + cfg.lag
  {
    assert JobOk(s.clock, s.db, origins, s.jobs[q]);
  }

  lemma SteadyCleaned(cfg: Config, s: Sys, h: Shadow, op: Op)
    requires Prompt(cfg) && Agree(cfg, s, h) && LocksOk(s.jobs, s.locks) && NamesOk(s, h.w) &&
      RowsOk(cfg, h.w.db.tokens, h.w.clock)
    requires JobsOk(s.clock, s.db, h.w.origins, s.jobs) && SteadyOk(cfg, s.db, s.jobs, h.verdicts)
    requires Can(cfg, s, Env(op.at, op)) && CleansTokens(op)
    ensures SteadyOk(cfg, Removed(s.db, op.victims), s.jobs, h.verdicts)
  {
    LifetimesHere(cfg, s, h, h.w.clock);
    VictimsAreNotHeld(cfg, s, h, op);
    forall q | q in s.jobs && s.jobs[q].phase.Judging?
      ensures Steady(cfg, Removed(s.db, op.victims), s.jobs[q].phase, h.verdicts[q])
    {
      JudgedLately(cfg, s, h.w.origins, Env(op.at, op), q);
      SteadyThroughCleanup(cfg, s.db, op.victims, s.jobs[q].phase, h.verdicts[q], op.sampledAt);
    }
  }

  lemma CleaningGoesWell(cfg: Config, s: Sys, h: Shadow, op: Op)
    requires Prompt(cfg) && Agree(cfg, s, h) && LocksOk(s.jobs, s.locks) && SteadyOk(cfg, s.db, s.jobs, h.verdicts) &&
      NamesOk(s, h.w)
    requires JobsOk(s.clock, s.db, h.w.origins, s.jobs) && RowsOk(cfg, h.w.db.tokens, h.w.clock)
    requires h.w.clock <= op.at && Can(cfg, s, Env(op.at, op)) && CleansTokens(op)
    ensures SurroundedWell(cfg, s, h, op)
  {
    var s2, h2 := Surrounded(cfg, s, op).(clock := op.at), Append(cfg, h, op);
    assert s2.db == Removed(s.db, op.victims) && h2.w.db == Removed(h.w.db, op.victims);
    CleaningIsEnabled(cfg, s, h, op);
    VictimsAreNotHeld(cfg, s, h, op);
    RemovingLeavesAlone(s.db, op.victims, s.jobs);
    AgreeCleaned(cfg, s, h, s2, h2, op.victims);
    SteadyCleaned(cfg, s, h, op);
  }

  // ---------- stale tombstones ----------

  function Dropped(db: Db, dropped: set<FamilyId>): Db {
    db.(tombstones := db.tombstones - dropped)
  }

  lemma DroppingAlike(db: Db, db2: Db, dropped: set<FamilyId>, f: FamilyId)
    requires SameFamily(db, db2, f)
    ensures SameFamily(Dropped(db, dropped), Dropped(db2, dropped), f)
    ensures f !in dropped ==> SameFamily(db, Dropped(db, dropped), f) && SameFamily(db2, Dropped(db2, dropped), f)
  {
  }

  /** The family of a rotation being judged keeps its tombstone. */
  lemma JudgedTombstoneIsKept(cfg: Config, s: Sys, h: Shadow, op: Op, q: Pid)
    requires Prompt(cfg) && JobsOk(s.clock, s.db, h.w.origins, s.jobs) && SteadyOk(cfg, s.db, s.jobs, h.verdicts)
    requires Can(cfg, s, Env(op.at, op)) && op.CleanTombstones? && q in s.jobs && s.jobs[q].phase.Judging?
    ensures s.jobs[q].phase.family !in op.dropped
  {
    JudgedLately(cfg, s, h.w.origins, Env(op.at, op), q);
    var ph := s.jobs[q].phase;
    if ph.family in s.db.tombstones {
      SteadyTombstoneIsYoung(cfg, s.db, ph, h.verdicts[q], op.sampledAt);
    }
  }

  lemma AgreeDropped(cfg: Config, s: Sys, h: Shadow, s2: Sys, h2: Shadow, dropped: set<FamilyId>)
    requires Agree(cfg, s, h) && s2.jobs == s.jobs && s2.locks == s.locks && h2.verdicts == h.verdicts
    requires NamesOk(s, h.w) && SteadyOk(cfg, s.db, s.jobs, h.verdicts)
    requires s2.db == Dropped(s.db, dropped) && h2.w.db == Dropped(h.w.db, dropped)
    requires forall q :: q in s.jobs && s.jobs[q].phase.Judging? ==> s.jobs[q].phase.family !in dropped
    ensures Agree(cfg, s2, h2)
  {
    forall f | !Judged(s2, f) ensures SameFamily(h2.w.db, s2.db, f) {
      assert !Judged(s, f);
      DroppingAlike(h.w.db, s.db, dropped, f);
    }
    forall q | q in s2.jobs && s2.jobs[q].phase.Judging?
      ensures JudgedOk(cfg, s2.db, s2.jobs[q], h2.verdicts[q], h2.w.db) {
      var r := s.jobs[q];
      assert NameOk(s, h.w, r) && JudgedOk(cfg, s.db, r, h.verdicts[q], h.w.db) &&
          Steady(cfg, s.db, r.phase, h.verdicts[q]);
      DroppingAlike(s.db, s.db, dropped, r.phase.family);
      DroppingAlike(h.w.db, h.w.db, dropped, r.phase.family);
      JudgedStays(cfg, s.db, s2.db, h.w.db, h2.w.db, r, h.verdicts[q]);
    }
  }

  lemma SteadyDropped(cfg: Config, db: Db, dropped: set<FamilyId>, jobs: map<Pid, Running>, verdicts: map<Pid, Verdict>)
    requires SteadyOk(cfg, db, jobs, verdicts)
    requires forall q :: q in jobs && jobs[q].phase.Judging? ==> jobs[q].phase.family !in dropped
    ensures SteadyOk(cfg, Dropped(db, dropped), jobs, verdicts)
  {
    forall q | q in jobs && jobs[q].phase.Judging?
      ensures q in verdicts && Steady(cfg, Dropped(db, dropped), jobs[q].phase, verdicts[q])
    {
      assert Steady(cfg, db, jobs[q].phase, verdicts[q]);
    }
  }

  lemma DroppingIsEnabled(cfg: Config, s: Sys, h: Shadow, op: Op)
    requires Agree(cfg, s, h) && LocksOk(s.jobs, s.locks) && h.w.clock <= op.at && EnvReady(cfg, s, op) &&
      op.CleanTombstones?
    requires forall q :: q in s.jobs && s.jobs[q].phase.Judging? ==> s.jobs[q].phase.family !in op.dropped
    ensures Enabled(cfg, h.w, op)
  {
    forall f | f in op.dropped ensures f in h.w.db.tombstones &&
      StaleTombstone(cfg, h.w.db.tombstones[f], op.sampledAt) {
      assert !Judged(s, f);
      assert SameFamily(h.w.db, s.db, f);
    }
  }

  lemma DroppingGoesWell(cfg: Config, s: Sys, h: Shadow, op: Op)
    requires Prompt(cfg) && Agree(cfg, s, h) && LocksOk(s.jobs, s.locks) && SteadyOk(cfg, s.db, s.jobs, h.verdicts) &&
      NamesOk(s, h.w)
    requires JobsOk(s.clock, s.db, h.w.origins, s.jobs) && h.w.clock <= op.at && Can(cfg, s, Env(op.at, op)) &&
      op.CleanTombstones?
    ensures SurroundedWell(cfg, s, h, op)
  {
    var s2, h2 := Surrounded(cfg, s, op).(clock := op.at), Append(cfg, h, op);
    assert s2.db == Dropped(s.db, op.dropped) && h2.w.db == Dropped(h.w.db, op.dropped);
    forall q | q in s.jobs && s.jobs[q].phase.Judging? ensures s.jobs[q].phase.family !in op.dropped {
      JudgedTombstoneIsKept(cfg, s, h, op, q);
    }
    DroppingIsEnabled(cfg, s, h, op);
    AgreeDropped(cfg, s, h, s2, h2, op.dropped);
    SteadyDropped(cfg, s.db, op.dropped, s.jobs, h.verdicts);
  }

  // ---------- the surroundings keep the two together ----------

  lemma SurroundingsGoWell(cfg: Config, start: Time, s: Sys, h: Shadow, op: Op)
    requires Prompt(cfg) && Facts(cfg, start, s, h) && NamesOk(s, h.w) && Can(cfg, s, Env(op.at, op))
    ensures SurroundedWell(cfg, s, h, op)
  {
    LinkedIsSafe(cfg, start, s.clock, h);
    if UsersOnly(op) {
      UsersOnlyGoesWell(cfg, s, h, op);
    } else if op.Open? {
      OpeningGoesWell(cfg, s, h, op);
    } else if op.WipeUser? {
      WipingGoesWell(cfg, s, h, op);
    } else if CleansTokens(op) {
      CleaningGoesWell(cfg, s, h, op);
    } else {
      DroppingGoesWell(cfg, s, h, op);
    }
  }

  lemma OriginsStay(cfg: Config, s: Sys, h: Shadow, op: Op)
    requires NamesOk(s, h.w) && EnvReady(cfg, s, op)
    ensures forall f :: f in h.w.origins ==>
      f in Next(cfg, h.w, op).origins && Next(cfg, h.w, op).origins[f] == h.w.origins[f]
  {
  }

  lemma SurroundedKeepsFacts(cfg: Config, start: Time, s: Sys, h: Shadow, op: Op)
    requires Facts(cfg, start, s, h) && NamesOk(s, h.w) && s.clock <= op.at && EnvReady(cfg, s, op) &&
      SurroundedWell(cfg, s, h, op)
    ensures Facts(cfg, start, Surrounded(cfg, s, op).(clock := op.at), Append(cfg, h, op))
  {
    LinkedAppend(cfg, start, s.clock, h, op);
    OriginsStay(cfg, s, h, op);
    JobsLeftAlone(s.clock, op.at, s.db, DbAfter(cfg, s.db, op), h.w.origins, Next(cfg, h.w, op).origins, s.jobs,
        s.jobs);
  }

  lemma SurroundedKeepsRows(cfg: Config, s: Sys, w: World, op: Op)
    requires EnvReady(cfg, s, op)
    ensures DbAfter(cfg, s.db, op).tokens.Keys <= s.db.tokens.Keys + (if op.Open? then {op.id} else {})
    ensures var w2 := Next(cfg, w, op);
      && w2.ids == w.ids + (if op.Open? then {op.id} else {}) &&
           w2.hashes == w.hashes + (if op.Open? then {op.hash} else {})
      && w2.origins.Keys == w.origins.Keys + (if op.Open? then {op.family} else {})
  {
  }

  lemma SurroundedKeepsNames(cfg: Config, s: Sys, w: World, op: Op)
    requires NamesOk(s, w) && EnvReady(cfg, s, op)
    ensures NamesOk(Surrounded(cfg, s, op).(clock := op.at), Next(cfg, w, op))
  {
    var s2, w2 := Surrounded(cfg, s, op).(clock := op.at), Next(cfg, w, op);
    SurroundedKeepsRows(cfg, s, w, op);
    forall q | q in s2.jobs ensures NameOk(s2, w2, s2.jobs[q]) && Mentioned(s2, s2.jobs[q].job) {
      assert NameOk(s, w, s.jobs[q]) && Mentioned(s, s.jobs[q].job);
    }
  }

  lemma SurroundedKeepsBooks(cfg: Config, start: Time, s: Sys, h: Shadow, op: Op)
    requires Books(cfg, start, s, h) && EnvReady(cfg, s, op)
    ensures Books(cfg, start, Surrounded(cfg, s, op).(clock := op.at), Append(cfg, h, op))
  {
    SurroundedKeepsNames(cfg, s, h.w, op);
    AnswersAppend(cfg, start, s.done, s.jobs, h, op);
    OrderAppend(cfg, s.done, s.jobs, s.tickets, h, op);
  }

  lemma SurroundingsKeep(cfg: Config, start: Time, s: Sys, h: Shadow, op: Op)
    requires Prompt(cfg) && Good(cfg, start, s, h) && Can(cfg, s, Env(op.at, op))
    ensures Good(cfg, start, Do(cfg, s, Env(op.at, op)), Follow(cfg, s, h, Env(op.at, op)))
  {
    SurroundingsGoWell(cfg, start, s, h, op);
    SurroundedKeepsFacts(cfg, start, s, h, op);
    SurroundedKeepsBooks(cfg, start, s, h, op);
  }
}
