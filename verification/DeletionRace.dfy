/** A deletion request that is not calm: what it misses, and one interleaving in which a token survives it. */
module DeletionRace {
  import opened Prelude
  import opened GrantTables
  import opened GrantSteps
  import opened GrantMachine
  import opened FamilyLock
  import opened Witness

  /** A committed request leaves unrevoked exactly the rows that were not in its snapshot. */
  lemma RequestMissesExactly(cfg: Config, s: Sys, pid: Pid, at: Time)
    requires Can(cfg, s, Commit(at, pid)) && s.jobs[pid].job.Ask?
    ensures var u, s2 := s.jobs[pid].job.user, Do(cfg, s, Commit(at, pid));
      Unrevokeds(s2.db.tokens, u) == Unrevokeds(s.db.tokens, u) - s.jobs[pid].phase.seen
  {
  }

  // ---------- putting interleavings together ----------

  /** The steps lead from `s` to `t`, and every deletion request on the way commits calmly. */
  ghost predicate Leads(cfg: Config, s: Sys, steps: seq<Step>, t: Sys) {
    Feasible(cfg, s, steps) && Final(cfg, s, steps) == t && CalmRun(cfg, s, steps)
  }

  lemma OneStep(cfg: Config, s: Sys, step: Step)
    requires Can(cfg, s, step) && CalmStep(cfg, s, step)
    ensures Leads(cfg, s, [step], Do(cfg, s, step))
  {
    assert [step][1..] == [];
    assert Feasible(cfg, Do(cfg, s, step), []);
  }

  lemma {:induction false} LeadsOn(cfg: Config, s: Sys, steps: seq<Step>, t: Sys, more: seq<Step>, u: Sys)
    requires Leads(cfg, s, steps, t) && Leads(cfg, t, more, u)
    ensures Leads(cfg, s, steps + more, u)
    decreases |steps|
  {
    if steps == [] {
      assert steps + more == more;
    } else {
      LeadsOn(cfg, Do(cfg, s, steps[0]), steps[1..], t, more, u);
      assert (steps + more)[1..] == steps[1..] + more;
    }
  }

  /** One step further. */
  lemma Extend(cfg: Config, s: Sys, steps: seq<Step>, t: Sys, step: Step)
    requires Leads(cfg, s, steps, t) && Can(cfg, t, step) && CalmStep(cfg, t, step)
    ensures Leads(cfg, s, steps + [step], Do(cfg, t, step))
  {
    OneStep(cfg, t, step);
    LeadsOn(cfg, s, steps, t, [step], Do(cfg, t, step));
  }

  // ---------- the interleaving ----------

  function TheRotation(c: ClientId, phase: Phase): Running {
    Running(Rotate(Shown(c, 0), 1, 1), 0, phase)
  }

  function Requested(seen: set<TokenId>): Running {
    Running(Ask(0), 0, Asking(seen))
  }

  /** One user, one family, one token. */
  function Quiet(cfg: Config, c: ClientId): Sys {
    Sys(Tables(map[0 := FirstRow(cfg, c)], User(Active, None)), 0, map[], map[], {0}, {0}, {0}, 0, [])
  }

  /** The token's rotation is in this phase; `tickets` is 1 once it holds the lock. */
  function Rotating(cfg: Config, c: ClientId, phase: Phase): Sys {
    var held := phase.Holds();
    Sys(Tables(map[0 := FirstRow(cfg, c)], User(Active, None)), 0, if held then map[0 := 0] else map[],
        map[0 := TheRotation(c, phase)], {0, 1}, {0, 1}, {0}, if held then 1 else 0, [])
  }

  function Judge(cfg: Config, c: ClientId, tombstoned: Option<bool>): Phase {
    Judging(0, 0, 0, FirstRow(cfg, c), 0, tombstoned, None, None)
  }

  /** The rotation has committed while the request, which saw only the first row, is open. */
  function Overtaken(cfg: Config, c: ClientId): Sys {
    Sys(Tables(map[0 := RedeemedRow(cfg, c), 1 := ChildRow(cfg, c, 0)],
        User(Active, None)),
        0, map[], map[1 := Requested({0})], {0, 1}, {0, 1}, {0}, 1,
        [Entry(Rotate(Shown(c, 0), 1, 1), 0, Rotated(Issued(0)), Some(0), 0)])
  }

  /** The rotation is judged, and the request is in this phase. */
  function Racing(cfg: Config, c: ClientId, phase: Phase): Sys {
    Sys(Tables(map[0 := FirstRow(cfg, c)], User(Active, None)), 0, map[0 := 0],
        map[0 := TheRotation(c, Judge(cfg, c, Some(false))), 1 := Running(Ask(0), 0, phase)], {0, 1}, {0, 1}, {0}, 1,
            [])
  }

  /** Both have committed, and the account has this status. */
  function Missed(cfg: Config, c: ClientId, user: User): Sys {
    Overtaken(cfg, c).(
      db := Tables(Overtaken(cfg, c).db.tokens, user), jobs := map[],
      done := Overtaken(cfg, c).done + [Entry(Ask(0), 0, Asked(Accepted), None, 0)])
  }

  /** From `s` the step leads to `t`. */
  ghost predicate To(cfg: Config, s: Sys, step: Step, t: Sys) {
    Can(cfg, s, step) && Do(cfg, s, step) == t && CalmStep(cfg, s, step)
  }

  lemma FirstRowIsFound(cfg: Config, c: ClientId)
    ensures FindByHash(map[0 := FirstRow(cfg, c)], 0) == Some(0)
  {
    var t: Tokens := map[0 := FirstRow(cfg, c)];
    assert t[0].hash == 0;
  }

  lemma Opens(cfg: Config, c: ClientId)
    requires cfg.lag >= 0
    ensures Leads(cfg, Begin(0), [Env(0, SignUp(0, 0, 0))] + [Env(0, Open(0, 0, 0, 0, 0, TheGrant(c)))], Quiet(cfg, c))
  {
    var up, open := Env(0, SignUp(0, 0, 0)), Env(0, Open(0, 0, 0, 0, 0, TheGrant(c)));
    OneStep(cfg, Begin(0), up);
    Extend(cfg, Begin(0), [up], Do(cfg, Begin(0), up), open);
    assert Do(cfg, Do(cfg, Begin(0), up), open) == Quiet(cfg, c);
  }

  lemma Spawns(cfg: Config, c: ClientId)
    requires cfg.lag >= 0
    ensures To(cfg, Quiet(cfg, c), Spawn(0, 0, Rotate(Shown(c, 0), 1, 1)), Rotating(cfg, c, Started))
  {
  }

  lemma LooksUp(cfg: Config, c: ClientId)
    requires cfg.lag >= 0
    ensures To(cfg, Rotating(cfg, c, Started), Lookup(0, 0), Rotating(cfg, c, Looked(0, 0)))
  {
    FirstRowIsFound(cfg, c);
  }

  lemma Locks(cfg: Config, c: ClientId)
    requires cfg.lag >= 0
    ensures To(cfg, Rotating(cfg, c, Looked(0, 0)), Lock(0, 0), Rotating(cfg, c, Locked(0, 0, 0)))
  {
  }

  lemma Reloads(cfg: Config, c: ClientId)
    requires cfg.lag >= 0
    ensures To(cfg, Rotating(cfg, c, Locked(0, 0, 0)), Reload(0, 0),
      Rotating(cfg, c, Reading(0, 0, 0, FirstRow(cfg, c))))
  {
    FirstRowIsFound(cfg, c);
  }

  lemma Checks(cfg: Config, c: ClientId)
    requires cfg.lag >= 0 && cfg.ttl > 0
    ensures To(cfg, Rotating(cfg, c, Reading(0, 0, 0, FirstRow(cfg, c))), Check(0, 0),
      Rotating(cfg, c, Judge(cfg, c, None)))
  {
  }

  lemma Sees(cfg: Config, c: ClientId)
    requires cfg.lag >= 0
    ensures To(cfg, Rotating(cfg, c, Judge(cfg, c, None)), SeeTombstone(0, 0),
      Rotating(cfg, c, Judge(cfg, c, Some(false))))
  {
  }

  lemma Asks(cfg: Config, c: ClientId)
    requires cfg.lag >= 0
    ensures To(cfg, Rotating(cfg, c, Judge(cfg, c, Some(false))), Spawn(0, 1, Ask(0)), Racing(cfg, c, Started))
  {
  }

  lemma Snaps(cfg: Config, c: ClientId)
    requires cfg.lag >= 0
    ensures To(cfg, Racing(cfg, c, Started), Snapshot(0, 1), Racing(cfg, c, Asking({0})))
  {
    assert Unrevokeds(Racing(cfg, c, Started).db.tokens, 0) == {0};
  }

  lemma RotationCommits(cfg: Config, c: ClientId)
    requires cfg.lag >= 0
    ensures To(cfg, Racing(cfg, c, Asking({0})), Commit(0, 0), Overtaken(cfg, c))
  {
    var s := Racing(cfg, c, Asking({0}));
    assert Written(cfg, s.db, s.jobs[0], Redeem(0)).tokens == Overtaken(cfg, c).db.tokens;
    assert s.jobs - {0} == Overtaken(cfg, c).jobs && s.locks - {0} == map[];
  }

  lemma RequestCommits(cfg: Config, c: ClientId)
    requires cfg.lag >= 0
    ensures Can(cfg, Overtaken(cfg, c), Commit(0, 1))
    ensures Do(cfg, Overtaken(cfg, c), Commit(0, 1)) == Missed(cfg, c, User(PendingDeletion, Some(DELETION_DELAY)))
    ensures !Calm(Overtaken(cfg, c), 1)
  {
    var t := Overtaken(cfg, c).db.tokens;
    assert RevokeSeen(t, 0, {0}, 0) == t;
    assert 1 in Unrevokeds(t, 0);
  }

  lemma Recovers(cfg: Config, c: ClientId)
    requires cfg.lag >= 0
    ensures To(cfg, Missed(cfg, c, User(PendingDeletion, Some(DELETION_DELAY))), Env(0, RecoverUser(0, 0)),
               Missed(cfg, c, User(Active, None)))
  {
  }

  // ---------- one after another ----------

  lemma Join2(cfg: Config, s: Sys, a: Step, t: Sys, b: Step, u: Sys) returns (steps: seq<Step>)
    requires To(cfg, s, a, t) && To(cfg, t, b, u)
    ensures Leads(cfg, s, steps, u)
  {
    OneStep(cfg, s, a);
    Extend(cfg, s, [a], t, b);
    steps := [a] + [b];
  }

  lemma RotationIsJudged(cfg: Config, c: ClientId) returns (steps: seq<Step>)
    requires cfg.lag >= 0 && cfg.ttl > 0
    ensures Leads(cfg, Quiet(cfg, c), steps, Rotating(cfg, c, Judge(cfg, c, Some(false))))
  {
    var q, row := Quiet(cfg, c), FirstRow(cfg, c);
    Spawns(cfg, c);
    LooksUp(cfg, c);
    Locks(cfg, c);
    Reloads(cfg, c);
    Checks(cfg, c);
    Sees(cfg, c);
    var spawn := Spawn(0, 0, Rotate(Shown(c, 0), 1, 1));
    var one := Join2(cfg, q, spawn, Rotating(cfg, c, Started), Lookup(0, 0), Rotating(cfg, c, Looked(0, 0)));
    var two := Join2(cfg, Rotating(cfg, c, Looked(0, 0)), Lock(0, 0), Rotating(cfg, c, Locked(0, 0, 0)),
                     Reload(0, 0), Rotating(cfg, c, Reading(0, 0, 0, row)));
    var three := Join2(cfg, Rotating(cfg, c, Reading(0, 0, 0, row)), Check(0, 0), Rotating(cfg, c, Judge(cfg, c, None)),
                       SeeTombstone(0, 0), Rotating(cfg, c, Judge(cfg, c, Some(false))));
    LeadsOn(cfg, q, one, Rotating(cfg, c, Looked(0, 0)), two, Rotating(cfg, c, Reading(0, 0, 0, row)));
    LeadsOn(cfg, q, one + two, Rotating(cfg, c, Reading(0, 0, 0, row)), three,
        Rotating(cfg, c, Judge(cfg, c, Some(false))));
    steps := one + two + three;
  }

  lemma RequestIsOvertaken(cfg: Config, c: ClientId) returns (steps: seq<Step>)
    requires cfg.lag >= 0 && cfg.ttl > 0
    ensures Leads(cfg, Begin(0), steps, Overtaken(cfg, c))
  {
    Opens(cfg, c);
    var open := [Env(0, SignUp(0, 0, 0))] + [Env(0, Open(0, 0, 0, 0, 0, TheGrant(c)))];
    var rotate := RotationIsJudged(cfg, c);
    Asks(cfg, c);
    Snaps(cfg, c);
    RotationCommits(cfg, c);
    var ask := Join2(cfg, Rotating(cfg, c, Judge(cfg, c, Some(false))), Spawn(0, 1, Ask(0)), Racing(cfg, c, Started),
                     Snapshot(0, 1), Racing(cfg, c, Asking({0})));
    LeadsOn(cfg, Begin(0), open, Quiet(cfg, c), rotate, Rotating(cfg, c, Judge(cfg, c, Some(false))));
    LeadsOn(cfg, Begin(0), open + rotate, Rotating(cfg, c, Judge(cfg, c, Some(false))), ask,
        Racing(cfg, c, Asking({0})));
    Extend(cfg, Begin(0), open + rotate + ask, Racing(cfg, c, Asking({0})), Commit(0, 0));
    steps := open + rotate + ask + [Commit(0, 0)];
  }

  /** A rotation is judged before the request takes its snapshot, and commits before the request does. The request is
      accepted, yet the token the rotation issued is live; and once the account is recovered it is redeemed. */
  lemma RotationOutlivesTheRequest(cfg: Config, c: ClientId) returns (before: seq<Step>, s: Sys, recovered: Sys)
    requires cfg.lag >= 0 && cfg.ttl > 0
    ensures Leads(cfg, Begin(0), before, s) && Can(cfg, s, Commit(0, 1)) && s.jobs[1].job == Ask(0) && !Calm(s, 1)
    ensures Leads(cfg, Do(cfg, s, Commit(0, 1)), [Env(0, RecoverUser(0, 0))], recovered)
    ensures 1 in recovered.db.tokens && recovered.db.tokens[1].Live() && recovered.db.tokens[1].grant.user == 0
    ensures Decide(cfg, recovered.db, Shown(c, 1), 0) == Redeem(1)
  {
    before := RequestIsOvertaken(cfg, c);
    s, recovered := Overtaken(cfg, c), Missed(cfg, c, User(Active, None));
    RequestCommits(cfg, c);
    Recovers(cfg, c);
    OneStep(cfg, Missed(cfg, c, User(PendingDeletion, Some(DELETION_DELAY))), Env(0, RecoverUser(0, 0)));
    assert recovered.db.tokens[1].hash == 1 && FindByHash(recovered.db.tokens, 1) == Some(1);
  }
}
