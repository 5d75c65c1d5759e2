/** Exactly when a deletion request is final. A row it has not seen is young, so unless a revocation is about to end its
family it can be redeemed after a recovery, whatever else is open. */
module DeletionExact {
  import opened Prelude
  import opened GrantTables
  import opened GrantSteps
  import opened GrantMachine
  import opened GrantInvariants
  import opened FamilyLock
  import opened FamilyShadow
  import opened FamilyBooks
  import opened FamilySurroundings
  import opened FamilyTidy
  import opened FamilyKin
  import opened FamilyFinality
  import opened DeletionRace

  /** Nobody has waited too long for a step at this time. */
  ghost predicate InTime(cfg: Config, s: Sys, at: Time) {
    s.clock <= at && cfg.lag >= 0 && forall q :: q in s.jobs ==> at <= s.jobs[q].since + cfg.lag
  }

  // ---------- a live row can be redeemed ----------

  ghost predicate CanBeRedeemed(cfg: Config, s: Sys, i: TokenId, at: Time) {
    && InTime(cfg, s, at) && i in s.db.tokens && UniqueHashes(s.db.tokens)
    && s.db.tokens[i].Live() && at < s.db.tokens[i].expiresAt
    && s.db.tokens[i].family !in s.db.tombstones && s.db.tokens[i].family !in s.locks
    && s.db.tokens[i].grant.user in s.db.users && s.db.users[s.db.tokens[i].grant.user].status == Active
    && forall q :: q in s.jobs && s.jobs[q].job.Rotate? ==> s.jobs[q].job.newHash != s.db.tokens[i].hash
  }

  function Redeemer(row: Token, newId: TokenId, newHash: TokenHash): Job {
    Rotate(Presentation(row.hash, true, row.grant.client, row.grant.user, [], true, true), newId, newHash)
  }

  /** This rotation has joined the others, and is in this phase. */
  function Busy(s: Sys, at: Time, pid: Pid, job: Job, phase: Phase): Sys
    requires job.Rotate?
  {
    s.(clock := at, jobs := s.jobs[pid := Running(job, at, phase)],
       ids := s.ids + {job.newId}, hashes := s.hashes + {job.newHash, job.p.hash},
       locks := if phase.Holds() then s.locks[phase.family := pid] else s.locks,
       tickets := if phase.Holds() then s.tickets + 1 else s.tickets)
  }

  function JudgingPhase(s: Sys, i: TokenId, at: Time, tombstoned: Option<bool>): Phase
    requires i in s.db.tokens
  {
    Judging(s.db.tokens[i].family, s.tickets, i, s.db.tokens[i], at, tombstoned, None, None)
  }

  lemma IsFound(t: Tokens, i: TokenId)
    requires UniqueHashes(t) && i in t
    ensures FindByHash(t, t[i].hash) == Some(i)
  {
  }

  lemma RedemptionStarts(cfg: Config, s: Sys, i: TokenId, at: Time, pid: Pid, job: Job)
    requires CanBeRedeemed(cfg, s, i, at) && pid !in s.jobs
    requires job.Rotate? && job == Redeemer(s.db.tokens[i], job.newId, job.newHash)
    requires job.newId !in s.ids && job.newHash !in s.hashes && job.newHash != job.p.hash
    ensures To(cfg, s, Spawn(at, pid, job), Busy(s, at, pid, job, Started))
  {
  }

  lemma RedemptionLooks(cfg: Config, s: Sys, i: TokenId, at: Time, pid: Pid, job: Job)
    requires CanBeRedeemed(cfg, s, i, at) && pid !in s.jobs
    requires job.Rotate? && job == Redeemer(s.db.tokens[i], job.newId, job.newHash)
    ensures To(cfg, Busy(s, at, pid, job, Started), Lookup(at, pid),
               Busy(s, at, pid, job, Looked(s.db.tokens[i].family, s.db.tokens[i].grant.user)))
  {
    IsFound(s.db.tokens, i);
  }

  lemma RedemptionWaits(cfg: Config, s: Sys, i: TokenId, at: Time, pid: Pid, job: Job)
    requires CanBeRedeemed(cfg, s, i, at) && pid !in s.jobs && job.Rotate?
    ensures To(cfg, Busy(s, at, pid, job, Looked(s.db.tokens[i].family, s.db.tokens[i].grant.user)), Lock(at, pid),
               Busy(s, at, pid, job, Locked(s.db.tokens[i].family, s.db.tokens[i].grant.user, s.tickets)))
  {
  }

  lemma RedemptionLocks(cfg: Config, s: Sys, i: TokenId, at: Time, pid: Pid, job: Job) returns (steps: seq<Step>)
    requires CanBeRedeemed(cfg, s, i, at) && pid !in s.jobs
    requires job.Rotate? && job == Redeemer(s.db.tokens[i], job.newId, job.newHash)
    requires job.newId !in s.ids && job.newHash !in s.hashes && job.newHash != job.p.hash
    ensures Leads(cfg, s, steps,
                  Busy(s, at, pid, job, Locked(s.db.tokens[i].family, s.db.tokens[i].grant.user, s.tickets)))
  {
    var f, u := s.db.tokens[i].family, s.db.tokens[i].grant.user;
    var a, b := Busy(s, at, pid, job, Started), Busy(s, at, pid, job, Looked(f, u));
    RedemptionStarts(cfg, s, i, at, pid, job);
    RedemptionLooks(cfg, s, i, at, pid, job);
    RedemptionWaits(cfg, s, i, at, pid, job);
    steps := Join2(cfg, s, Spawn(at, pid, job), a, Lookup(at, pid), b);
    Extend(cfg, s, steps, b, Lock(at, pid));
    steps := steps + [Lock(at, pid)];
  }

  lemma RedemptionReloads(cfg: Config, s: Sys, i: TokenId, at: Time, pid: Pid, job: Job)
    requires CanBeRedeemed(cfg, s, i, at) && pid !in s.jobs
    requires job.Rotate? && job == Redeemer(s.db.tokens[i], job.newId, job.newHash)
    ensures To(cfg, Busy(s, at, pid, job, Locked(s.db.tokens[i].family, s.db.tokens[i].grant.user, s.tickets)),
               Reload(at, pid), Busy(s, at, pid, job, Reading(s.db.tokens[i].family, s.tickets, i, s.db.tokens[i])))
  {
    IsFound(s.db.tokens, i);
  }

  lemma RedemptionChecks(cfg: Config, s: Sys, i: TokenId, at: Time, pid: Pid, job: Job) returns (steps: seq<Step>)
    requires CanBeRedeemed(cfg, s, i, at) && pid !in s.jobs
    requires job.Rotate? && job == Redeemer(s.db.tokens[i], job.newId, job.newHash)
    ensures Leads(cfg, Busy(s, at, pid, job, Locked(s.db.tokens[i].family, s.db.tokens[i].grant.user, s.tickets)),
                  steps, Busy(s, at, pid, job, JudgingPhase(s, i, at, None)))
  {
    var row := s.db.tokens[i];
    var a := Busy(s, at, pid, job, Locked(row.family, row.grant.user, s.tickets));
    var b, c := Busy(s, at, pid, job, Reading(row.family, s.tickets, i, row)),
        Busy(s, at, pid, job, JudgingPhase(s, i, at, None));
    RedemptionReloads(cfg, s, i, at, pid, job);
    assert To(cfg, b, Check(at, pid), c);
    steps := Join2(cfg, a, Reload(at, pid), b, Check(at, pid), c);
  }

  /** How it ends. */
  ghost predicate IssuedNext(s: Sys, t: Sys, job: Job, since: Time, i: TokenId, f: FamilyId) {
    exists ticket :: t.done == s.done + [Entry(job, since, Rotated(Issued(i)), Some(f), ticket)]
  }

  lemma RedemptionCommits(cfg: Config, s: Sys, i: TokenId, at: Time, pid: Pid, job: Job)
    returns (steps: seq<Step>, t: Sys)
    requires CanBeRedeemed(cfg, s, i, at) && pid !in s.jobs
    requires job.Rotate? && job == Redeemer(s.db.tokens[i], job.newId, job.newHash)
    ensures Leads(cfg, Busy(s, at, pid, job, JudgingPhase(s, i, at, None)), steps, t)
    ensures IssuedNext(s, t, job, at, i, s.db.tokens[i].family)
  {
    var a := Busy(s, at, pid, job, JudgingPhase(s, i, at, None));
    var b := Busy(s, at, pid, job, JudgingPhase(s, i, at, Some(false)));
    assert To(cfg, a, SeeTombstone(at, pid), b);
    t := Do(cfg, b, Commit(at, pid));
    steps := Join2(cfg, a, SeeTombstone(at, pid), b, Commit(at, pid), t);
    assert t.done == s.done + [Entry(job, at, Rotated(Issued(i)), Some(s.db.tokens[i].family), s.tickets)];
  }

  lemma {:induction false} FreshNumber(used: set<nat>) returns (n: nat)
    ensures n !in used && forall m :: m in used ==> m < n
    decreases used
  {
    if used == {} {
      n := 0;
    } else {
      var m :| m in used;
      var k := FreshNumber(used - {m});
      n := if m < k then k else m + 1;
      forall x | x in used ensures x < n {
        assert x == m || x in used - {m};
      }
    }
  }

  /** A live row of an active user, in a family nobody holds, is redeemed by a suitable request. */
  lemma LiveRowIsRedeemed(cfg: Config, s: Sys, i: TokenId, at: Time) returns (job: Job, steps: seq<Step>, t: Sys)
    requires CanBeRedeemed(cfg, s, i, at)
    ensures job.Rotate? && job.p.subject == s.db.tokens[i].grant.user
    ensures Leads(cfg, s, steps, t) && IssuedNext(s, t, job, at, i, s.db.tokens[i].family)
  {
    var row := s.db.tokens[i];
    var pid := FreshNumber(s.jobs.Keys);
    var newId := FreshNumber(s.ids);
    var newHash := FreshNumber(s.hashes + {row.hash});
    job := Redeemer(row, newId, newHash);
    var b := Busy(s, at, pid, job, Locked(row.family, row.grant.user, s.tickets));
    var c := Busy(s, at, pid, job, JudgingPhase(s, i, at, None));
    var one := RedemptionLocks(cfg, s, i, at, pid, job);
    var two := RedemptionChecks(cfg, s, i, at, pid, job);
    var three;
    three, t := RedemptionCommits(cfg, s, i, at, pid, job);
    LeadsOn(cfg, s, one, b, two, c);
    LeadsOn(cfg, s, one + two, c, three, t);
    steps := one + two + three;
  }

  // ---------- what a request has not seen is young ----------

  ghost predicate Dated(s: Sys) {
    forall q :: q in s.jobs ==> s.jobs[q].since <= s.clock
  }

  /** Every unrevoked row of the user is in the snapshot or was created about when the request started, or later. */
  ghost predicate SeenOrYoung(cfg: Config, t: Tokens, r: Running) {
    r.phase.Asking? && r.job.Ask? ==>
      forall i :: i in t && t[i].grant.user == r.job.user && t[i].revokedAt.None? ==>
        i in r.phase.seen || t[i].createdAt >= r.since - cfg.lag
  }

  ghost predicate UnseenAreYoung(cfg: Config, s: Sys) {
    forall q :: q in s.jobs ==> SeenOrYoung(cfg, s.db.tokens, s.jobs[q])
  }

  /** Unrevoked rows were unrevoked before, or have just been created. */
  ghost predicate Younger(t: Tokens, t2: Tokens, from: Time) {
    forall i :: i in t2 && t2[i].revokedAt.None? ==>
      || (i in t && t[i].revokedAt.None? && t[i].grant == t2[i].grant && t[i].createdAt == t2[i].createdAt)
      || t2[i].createdAt >= from
  }

  lemma WritingIsYounger(cfg: Config, db: Db, r: Running, v: Verdict, from: Time)
    requires r.job.Rotate? && r.phase.Judging? && from <= r.since
    ensures Younger(db.tokens, Written(cfg, db, r, v).tokens, from)
  {
  }

  lemma RevokingIsYounger(db: Db, f: FamilyId, tomb: Tombstone, u: UserId, seen: set<TokenId>, now: Time, from: Time)
    ensures Younger(db.tokens, KillFamily(db, f, tomb).tokens, from)
    ensures Younger(db.tokens, AskedDb(db, u, seen, now).tokens, from)
  {
  }

  lemma CommitIsYounger(cfg: Config, s: Sys, pid: Pid, at: Time)
    requires Can(cfg, s, Commit(at, pid))
    ensures Younger(s.db.tokens, Do(cfg, s, Commit(at, pid)).db.tokens, at - cfg.lag)
  {
    var r, from := s.jobs[pid], at - cfg.lag;
    match r.job
    case Rotate(_, _, _) => WritingIsYounger(cfg, s.db, r, Settled(cfg, r.phase).value, from);
    case Revoke(_, _, _) =>
      RevokingIsYounger(s.db, r.phase.family, Tombstone(r.phase.user, Revoked, r.since), 0, {}, 0, from);
    case Ask(u) => RevokingIsYounger(s.db, 0, Tombstone(0, Revoked, 0), u, r.phase.seen, r.since, from);
  }

  lemma SurroundingsAreYounger(cfg: Config, s: Sys, op: Op)
    requires EnvReady(cfg, s, op)
    ensures Younger(s.db.tokens, DbAfter(cfg, s.db, op).tokens, op.at - cfg.lag)
  {
  }

  lemma YoungerKeeps(cfg: Config, t: Tokens, t2: Tokens, r: Running, at: Time)
    requires SeenOrYoung(cfg, t, r) && Younger(t, t2, at - cfg.lag) && r.since <= at
    ensures SeenOrYoung(cfg, t2, r)
  {
  }

  /** Except for commits and the surroundings, a step leaves the rows alone; and a snapshot sees them all. */
  lemma ReadingKeepsYoung(cfg: Config, s: Sys, step: Step)
    requires Dated(s) && UnseenAreYoung(cfg, s) && Can(cfg, s, step) && !step.Commit? && !step.Env?
    ensures Dated(Do(cfg, s, step)) && UnseenAreYoung(cfg, Do(cfg, s, step))
  {
  }

  lemma WritingKeepsYoung(cfg: Config, s: Sys, step: Step)
    requires Dated(s) && UnseenAreYoung(cfg, s) && Can(cfg, s, step) && (step.Commit? || step.Env?)
    ensures Dated(Do(cfg, s, step)) && UnseenAreYoung(cfg, Do(cfg, s, step))
  {
    var s2 := Do(cfg, s, step);
    if step.Commit? {
      CommitIsYounger(cfg, s, step.pid, step.at);
    } else {
      SurroundingsAreYounger(cfg, s, step.op);
    }
    forall q | q in s2.jobs ensures SeenOrYoung(cfg, s2.db.tokens, s2.jobs[q]) {
      assert s2.jobs[q] == s.jobs[q];
      YoungerKeeps(cfg, s.db.tokens, s2.db.tokens, s.jobs[q], step.at);
    }
  }

  lemma {:induction false} RunKeepsYoung(cfg: Config, s: Sys, steps: seq<Step>)
    requires Dated(s) && UnseenAreYoung(cfg, s) && Feasible(cfg, s, steps)
    ensures Dated(Final(cfg, s, steps)) && UnseenAreYoung(cfg, Final(cfg, s, steps))
    decreases |steps|
  {
    if steps == [] {
    } else {
      if steps[0].Commit? || steps[0].Env? {
        WritingKeepsYoung(cfg, s, steps[0]);
      } else {
        ReadingKeepsYoung(cfg, s, steps[0]);
      }
      RunKeepsYoung(cfg, Do(cfg, s, steps[0]), steps[1..]);
    }
  }

  // ---------- a rotation that has not been judged gives its lock back ----------

  /** `t` is `s` without this transaction and its lock, and with one more answer. */
  predicate Without(s: Sys, t: Sys, q: Pid, f: FamilyId, at: Time) {
    t.clock == at && t.db == s.db && t.jobs == s.jobs - {q} && t.locks == s.locks - {f} && |t.done| == |s.done| + 1
  }

  ghost predicate Inactive(db: Db, f: FamilyId) {
    forall i :: i in db.tokens && db.tokens[i].family == f ==>
      db.tokens[i].grant.user in db.users && db.users[db.tokens[i].grant.user].status != Active
  }

  lemma ReadingGivesUp(cfg: Config, s: Sys, q: Pid, at: Time) returns (t: Sys)
    requires InTime(cfg, s, at) && q in s.jobs && s.jobs[q].job.Rotate? && s.jobs[q].phase.Reading?
    requires RowThere(s.db, s.jobs[q].phase) && Inactive(s.db, s.jobs[q].phase.family)
    ensures To(cfg, s, Check(at, q), t) && Without(s, t, q, s.jobs[q].phase.family, at)
  {
    t := Do(cfg, s, Check(at, q));
  }

  lemma WaitingGivesUp(cfg: Config, s: Sys, q: Pid, at: Time) returns (steps: seq<Step>, t: Sys)
    requires InTime(cfg, s, at) && q in s.jobs && s.jobs[q].job.Rotate? && s.jobs[q].phase.Locked?
    requires HashHome(s.db, s.jobs[q]) && Inactive(s.db, s.jobs[q].phase.family)
    ensures Leads(cfg, s, steps, t) && Without(s, t, q, s.jobs[q].phase.family, at)
  {
    var a := Do(cfg, s, Reload(at, q));
    OneStep(cfg, s, Reload(at, q));
    if Found(s.db, s.jobs[q].job).Some? {
      t := ReadingGivesUp(cfg, a, q, at);
      steps := Join2(cfg, s, Reload(at, q), a, Check(at, q), t);
      assert t.jobs == s.jobs - {q};
    } else {
      steps, t := [Reload(at, q)], a;
    }
  }

  /** Whoever holds a family of an inactive user, unless judged or a revocation, can be made to give it back. */
  lemma HolderGivesUp(cfg: Config, s: Sys, f: FamilyId, at: Time) returns (steps: seq<Step>, t: Sys)
    requires Tidy(cfg, s) && InTime(cfg, s, at) && Inactive(s.db, f) && !Judged(s, f) && !RevokerHolds(s, f)
    ensures Leads(cfg, s, steps, t) && InTime(cfg, t, at) && t.db == s.db && f !in t.locks && |s.done| <= |t.done|
    ensures t.jobs.Keys <= s.jobs.Keys && forall q :: q in t.jobs ==> t.jobs[q] == s.jobs[q]
  {
    if f in s.locks {
      var q := s.locks[f];
      assert JobTidy(s.clock, s.db, s.jobs[q]);
      if s.jobs[q].phase.Locked? {
        steps, t := WaitingGivesUp(cfg, s, q, at);
      } else {
        t := ReadingGivesUp(cfg, s, q, at);
        OneStep(cfg, s, Check(at, q));
        steps := [Check(at, q)];
      }
    } else {
      steps, t := [], s;
    }
  }

  // ---------- the exact condition ----------

  /** What is known of a row the request has not seen, if nobody is being judged. */
  ghost predicate IsMissed(cfg: Config, s: Sys, pid: Pid, at: Time, i: TokenId)
    requires pid in s.jobs && s.jobs[pid].job.Ask? && s.jobs[pid].phase.Asking?
  {
    && i in Unseen(s, pid) && s.db.tokens[i].Live() && at < s.db.tokens[i].expiresAt
    && s.db.tokens[i].family !in s.db.tombstones && s.db.tokens[i].family in s.families
    && OwnedBy(s.db.tokens, s.db.tokens[i].family, s.jobs[pid].job.user) && !Judged(s, s.db.tokens[i].family)
    && RequestDeletionAnswer(s.db, s.jobs[pid].job.user) == Accepted
    && forall q :: q in s.jobs && s.jobs[q].phase.Asking? && s.jobs[q].job == s.jobs[pid].job ==> q == pid
  }

  lemma UnseenIsMissed(cfg: Config, s: Sys, pid: Pid, at: Time, i: TokenId)
    requires Tidy(cfg, s) && Kin(cfg, s) && Can(cfg, s, Commit(at, pid)) && s.jobs[pid].job.Ask?
    requires NobodyJudges(s, s.jobs[pid].job.user) && i in Unseen(s, pid)
    requires cfg.ttl > 2 * cfg.lag && SeenOrYoung(cfg, s.db.tokens, s.jobs[pid])
    ensures IsMissed(cfg, s, pid, at, i)
  {
    FamilyOfUser(cfg, s, s.db.tokens[i].family, s.jobs[pid].job.user, i);
    assert RowOk(cfg, s.db.tokens[i], s.clock);
    assert JobKin(s.db, s.families, s.jobs[pid]);
    forall q | q in s.jobs && s.jobs[q].phase.Asking? && s.jobs[q].job == s.jobs[pid].job ensures q == pid {
      assert BothAsk(s.jobs[q], s.jobs[pid]);
    }
  }

  /** What the request leaves of such a row. */
  ghost predicate IsLeft(s: Sys, u: UserId, at: Time, i: TokenId) {
    && i in s.db.tokens && s.db.tokens[i].Live() && at < s.db.tokens[i].expiresAt
    && s.db.tokens[i].family !in s.db.tombstones && s.db.tokens[i].grant.user == u
    && u in s.db.users && s.db.users[u].status == PendingDeletion
    && forall q :: q in s.jobs ==> !(s.jobs[q].phase.Asking? && s.jobs[q].job == Ask(u))
  }

  lemma MissedIsLeft(cfg: Config, s: Sys, pid: Pid, at: Time, i: TokenId)
    requires Can(cfg, s, Commit(at, pid)) && s.jobs[pid].job.Ask? && IsMissed(cfg, s, pid, at, i) &&
      LocksOk(s.jobs, s.locks)
    requires cfg.lag >= 0 && !RevokerHolds(s, s.db.tokens[i].family)
    ensures var s2, f, u := Do(cfg, s, Commit(at, pid)), s.db.tokens[i].family, s.jobs[pid].job.user;
      && IsLeft(s2, u, at, i) && s2.db.tokens[i] == s.db.tokens[i] && InTime(cfg, s2, at)
      && Inactive(s2.db, f) && !Judged(s2, f) && !RevokerHolds(s2, f)
  {
  }

  /** Once its family is free, the user recovers, and the row can be redeemed. */
  lemma LeftCanBeRedeemed(cfg: Config, s: Sys, u: UserId, at: Time, i: TokenId)
    requires Tidy(cfg, s) && InTime(cfg, s, at) && IsLeft(s, u, at, i) && s.db.tokens[i].family !in s.locks
    ensures var step := Env(at, RecoverUser(at, u));
      && Can(cfg, s, step) && CanBeRedeemed(cfg, Do(cfg, s, step), i, at)
      && Do(cfg, s, step).db.tokens == s.db.tokens && Do(cfg, s, step).done == s.done
  {
    forall q | q in s.jobs && s.jobs[q].job.Rotate? ensures s.jobs[q].job.newHash != s.db.tokens[i].hash {
      assert NewNames(s.db.tokens, s.ids, s.hashes, s.jobs[q].job);
    }
  }

  /** After the request, whoever holds the family gives up; then the user recovers; then the row can be redeemed. */
  lemma MissedCanBeRedeemed(cfg: Config, s: Sys, pid: Pid, at: Time, i: TokenId) returns (steps: seq<Step>, t: Sys)
    requires cfg.lag >= 0 && Tidy(cfg, s) && Can(cfg, s, Commit(at, pid)) && s.jobs[pid].job.Ask?
    requires IsMissed(cfg, s, pid, at, i) && !RevokerHolds(s, s.db.tokens[i].family)
    ensures var s2 := Do(cfg, s, Commit(at, pid));
      Leads(cfg, s2, steps, t) && CanBeRedeemed(cfg, t, i, at) && |s2.done| <= |t.done|
    ensures t.db.tokens[i] == s.db.tokens[i]
  {
    var s2, f, u := Do(cfg, s, Commit(at, pid)), s.db.tokens[i].family, s.jobs[pid].job.user;
    StepIsTidy(cfg, s, Commit(at, pid));
    MissedIsLeft(cfg, s, pid, at, i);
    var one, a := HolderGivesUp(cfg, s2, f, at);
    RunIsTidy(cfg, s2, one);
    LeftCanBeRedeemed(cfg, a, u, at, i);
    Extend(cfg, s2, one, a, Env(at, RecoverUser(at, u)));
    steps, t := one + [Env(at, RecoverUser(at, u))], Do(cfg, a, Env(at, RecoverUser(at, u)));
  }

  lemma MissedIsRedeemed(cfg: Config, s: Sys, pid: Pid, at: Time, i: TokenId)
    requires cfg.lag >= 0 && Tidy(cfg, s) && Can(cfg, s, Commit(at, pid)) && s.jobs[pid].job.Ask?
    requires IsMissed(cfg, s, pid, at, i) && !RevokerHolds(s, s.db.tokens[i].family)
    ensures !IsFinal(cfg, Do(cfg, s, Commit(at, pid)), s.jobs[pid].job.user, s.families)
  {
    var s2, u := Do(cfg, s, Commit(at, pid)), s.jobs[pid].job.user;
    var one, a := MissedCanBeRedeemed(cfg, s, pid, at, i);
    var job, two, t := LiveRowIsRedeemed(cfg, a, i, at);
    LeadsOn(cfg, s2, one, a, two, t);
    var k := |a.done|;
    assert LaterEntry(cfg, s2, one + two, k);
    assert GivesToken(Final(cfg, s2, one + two).done[k], u, s.families);
  }

  /** In every interleaving, a deletion request at whose commit no rotation of its user is being judged is final if and
      only if each unrevoked row it has not seen is in a family whose revocation holds the lock. Other transactions, of
      the same user too, may be open. */
  lemma FinalExactlyWhenUnseenAreHeld(cfg: Config, start: Time, before: seq<Step>, pid: Pid, at: Time)
    requires Prompt(cfg) && cfg.ttl > 2 * cfg.lag && Feasible(cfg, Begin(start), before)
    requires var s := Final(cfg, Begin(start), before);
      Can(cfg, s, Commit(at, pid)) && s.jobs[pid].job.Ask? && NobodyJudges(s, s.jobs[pid].job.user)
    ensures var s := Final(cfg, Begin(start), before);
      IsFinal(cfg, Do(cfg, s, Commit(at, pid)), s.jobs[pid].job.user, s.families) <==> UnseenAreHeld(s, pid)
  {
    var s := Final(cfg, Begin(start), before);
    if UnseenAreHeld(s, pid) {
      RequestIsFinal(cfg, start, before, pid, at);
    } else {
      var i :| i in Unseen(s, pid) && !RevokerHolds(s, s.db.tokens[i].family);
      InterleavingsKeepKin(cfg, start, before);
      RunKeepsYoung(cfg, Begin(start), before);
      assert SeenOrYoung(cfg, s.db.tokens, s.jobs[pid]);
      UnseenIsMissed(cfg, s, pid, at, i);
      MissedIsRedeemed(cfg, s, pid, at, i);
    }
  }

  // ---------- a rotation that is being judged ----------

  /** The phase with the answers the missing queries would have in this database. */
  ghost function Informed(db: Db, ph: Phase): Phase
    requires ph.Judging?
  {
    ph.(tombstoned := if ph.tombstoned.None? then Some(ph.family in db.tombstones) else ph.tombstoned,
        onPurpose := if ph.onPurpose.None? then Some(HasRevokedOnPurpose(db.tokens, ph.family)) else ph.onPurpose,
        children := if ph.children.None? then Some(|Children(db.tokens, ph.id)|) else ph.children)
  }

  ghost predicate Judges(cfg: Config, s: Sys, q: Pid, at: Time) {
    InTime(cfg, s, at) && q in s.jobs && s.jobs[q].job.Rotate? && s.jobs[q].phase.Judging?
  }

  lemma SeesTombstone(cfg: Config, s: Sys, q: Pid, at: Time) returns (steps: seq<Step>, t: Sys)
    requires Judges(cfg, s, q, at)
    ensures Leads(cfg, s, steps, t) && Judges(cfg, t, q, at)
    ensures t == Move(s, q, s.jobs[q].phase.(tombstoned := Informed(s.db,
      s.jobs[q].phase).tombstoned)).(clock := t.clock)
  {
    if s.jobs[q].phase.tombstoned.None? {
      OneStep(cfg, s, SeeTombstone(at, q));
      steps, t := [SeeTombstone(at, q)], Do(cfg, s, SeeTombstone(at, q));
    } else {
      steps, t := [], s;
    }
  }

  lemma SeesOnPurpose(cfg: Config, s: Sys, q: Pid, at: Time) returns (steps: seq<Step>, t: Sys)
    requires Judges(cfg, s, q, at) && s.jobs[q].phase.tombstoned.Some?
    ensures Leads(cfg, s, steps, t) && Judges(cfg, t, q, at)
    ensures t == Move(s, q, s.jobs[q].phase.(onPurpose := Informed(s.db, s.jobs[q].phase).onPurpose)).(clock := t.clock)
  {
    if s.jobs[q].phase.onPurpose.None? {
      OneStep(cfg, s, SeeOnPurpose(at, q));
      steps, t := [SeeOnPurpose(at, q)], Do(cfg, s, SeeOnPurpose(at, q));
    } else {
      steps, t := [], s;
    }
  }

  lemma SeesChildren(cfg: Config, s: Sys, q: Pid, at: Time) returns (steps: seq<Step>, t: Sys)
    requires Judges(cfg, s, q, at) && s.jobs[q].phase.onPurpose.Some?
    ensures Leads(cfg, s, steps, t) && Judges(cfg, t, q, at)
    ensures t == Move(s, q, s.jobs[q].phase.(children := Informed(s.db, s.jobs[q].phase).children)).(clock := t.clock)
  {
    if s.jobs[q].phase.children.None? {
      OneStep(cfg, s, SeeChildren(at, q));
      steps, t := [SeeChildren(at, q)], Do(cfg, s, SeeChildren(at, q));
    } else {
      steps, t := [], s;
    }
  }

  lemma JudgeIsInformed(cfg: Config, s: Sys, q: Pid, at: Time) returns (steps: seq<Step>, t: Sys)
    requires Judges(cfg, s, q, at)
    ensures Leads(cfg, s, steps, t) && Judges(cfg, t, q, at) && t.done == s.done
    ensures t.jobs[q] == s.jobs[q].(phase := Informed(s.db, s.jobs[q].phase))
  {
    var one, a := SeesTombstone(cfg, s, q, at);
    var two, b := SeesOnPurpose(cfg, a, q, at);
    var three, c := SeesChildren(cfg, b, q, at);
    LeadsOn(cfg, s, one, a, two, b);
    LeadsOn(cfg, s, one + two, b, three, c);
    steps, t := one + two + three, c;
  }

  /** If it reads what it has not yet read in this database, the rotation issues a token. */
  ghost predicate WillIssue(cfg: Config, db: Db, ph: Phase) {
    ph.Judging? && Settled(cfg, Informed(db, ph)).Some? && Reply(Settled(cfg, Informed(db, ph)).value).Issued?
  }

  lemma JudgeIssues(cfg: Config, s: Sys, q: Pid, at: Time, u: UserId, families: set<FamilyId>)
    requires Judges(cfg, s, q, at) && WillIssue(cfg, s.db, s.jobs[q].phase)
    requires s.jobs[q].job.p.subject == u && s.jobs[q].phase.family in families
    ensures !IsFinal(cfg, s, u, families)
  {
    var steps, a := JudgeIsInformed(cfg, s, q, at);
    Extend(cfg, s, steps, a, Commit(at, q));
    var k := |s.done|;
    assert LaterEntry(cfg, s, steps + [Commit(at, q)], k);
    assert GivesToken(Final(cfg, s, steps + [Commit(at, q)]).done[k], u, families);
  }

  lemma JudgeStaysOpen(cfg: Config, s: Sys, pid: Pid, at: Time, q: Pid)
    requires cfg.lag >= 0 && Tidy(cfg, s) && Kin(cfg, s) && Can(cfg, s, Commit(at, pid)) && s.jobs[pid].job.Ask?
    requires q in s.jobs && s.jobs[q].phase.Judging?
    ensures Judges(cfg, Do(cfg, s, Commit(at, pid)), q, at) && Do(cfg, s, Commit(at, pid)).jobs[q] == s.jobs[q]
    ensures s.jobs[q].job.p.subject == s.jobs[q].phase.row.grant.user && s.jobs[q].phase.family in s.families
  {
    assert JobTidy(s.clock, s.db, s.jobs[q]);
  }

  /** A rotation of the user that is being judged when the request commits, and whose remaining queries do not tell it
      otherwise, issues its token after the request: the request is not final. */
  lemma JudgedRotationOutlivesTheRequest(cfg: Config, start: Time, before: seq<Step>, pid: Pid, at: Time, q: Pid)
    requires Sound(cfg) && Feasible(cfg, Begin(start), before)
    requires var s := Final(cfg, Begin(start), before);
      && Can(cfg, s, Commit(at, pid)) && s.jobs[pid].job.Ask?
      && q in s.jobs && WillIssue(cfg, Do(cfg, s, Commit(at, pid)).db, s.jobs[q].phase)
      && s.jobs[q].phase.row.grant.user == s.jobs[pid].job.user
    ensures var s := Final(cfg, Begin(start), before);
      !IsFinal(cfg, Do(cfg, s, Commit(at, pid)), s.jobs[pid].job.user, s.families)
  {
    var s := Final(cfg, Begin(start), before);
    InterleavingsKeepKin(cfg, start, before);
    JudgeStaysOpen(cfg, s, pid, at, q);
    JudgeIssues(cfg, Do(cfg, s, Commit(at, pid)), q, at, s.jobs[pid].job.user, s.families);
  }
}
