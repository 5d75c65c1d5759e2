/** Where the promises end: how late a transaction may take effect, and how long reuse is detected.

The witness is one account and one family. A token is redeemed, deletion is asked for and undone at once,
and the only evidence, the revoked child, is old enough for cleanup while the redeemed token is still in grace.
*/
module GrantBounds {
  import opened Prelude
  import opened GrantTables
  import opened GrantSteps
  import opened GrantMachine
  import opened GrantInvariants
  import opened GrantFinality
  import opened GrantCleanup
  import opened Witness

  /** Nothing is ever issued into a family after its user's deletion request, whatever the run. */
  ghost predicate DeletionIsFinal(cfg: Config) {
    forall w, op, ops, f :: FinalCase(cfg, w, op, ops, f) ==>
      NothingIssuedSince(After(cfg, Next(cfg, w, op), ops).log, |w.log|, f)
  }

  ghost predicate FinalCase(cfg: Config, w: World, op: Op, ops: seq<Op>, f: FamilyId) {
    && Reachable(cfg, w) && Enabled(cfg, w, op) && op.AskDeletion?
    && RequestDeletionAnswer(w.db, op.user) == Accepted
    && f in w.origins && w.origins[f].user == op.user
    && Runnable(cfg, Next(cfg, w, op), ops)
  }

  /** A configuration in which the grace can let a replay through at all. */
  predicate Graceful(cfg: Config, c: ClientId) {
    cfg.lag >= 0 && 0 < cfg.grace <= MINUTE && cfg.grace < cfg.ttl && c in cfg.graceClients
  }

  /** A token lives long enough to be redeemed. */
  predicate Usable(cfg: Config) {
    cfg.lag >= 0 && cfg.ttl > 0
  }

  // ---------- the witness ----------

  function Evidence(cfg: Config, c: ClientId): Token {
    ChildRow(cfg, c, 0 - cfg.lag).(revokedAt := Some(0 - cfg.lag))
  }

  ghost function Opened(cfg: Config, c: ClientId): World {
    World(Tables(map[0 := FirstRow(cfg, c)], User(Active, None)), 0, {0}, {0}, map[0 := TheGrant(c)],
          [Issue(0, None, 0, c, 0, [])])
  }

  /** After the redemption, with these two rows and this user. */
  ghost function Rotated(cfg: Config, c: ClientId, t: Tokens, user: User, clock: Time): World {
    World(Tables(t, user), clock, {0, 1}, {0, 1}, map[0 := TheGrant(c)],
          [Issue(0, None, 0, c, 0, []), Issue(1, Some(0), 0, c, 0, [])])
  }

  lemma OpeningRun(cfg: Config, c: ClientId) returns (ops: seq<Op>)
    requires Usable(cfg)
    ensures Runnable(cfg, Start(0), ops) && After(cfg, Start(0), ops) == Opened(cfg, c)
  {
    var signUp, open := SignUp(0, 0, 0), Open(0, 0, 0, 0, 0, TheGrant(c));
    var w := Next(cfg, Start(0), signUp);
    assert Next(cfg, w, open) == Opened(cfg, c);
    RunCons(cfg, w, open, []);
    RunCons(cfg, Start(0), signUp, [open]);
    ops := [signUp, open];
    assert ops == [signUp] + [open] && [open] == [open] + [];
  }

  lemma Redeeming(cfg: Config, c: ClientId)
    requires Usable(cfg)
    ensures var op := Present(0, 0 - cfg.lag, Shown(c, 0), 1, 1);
      && Enabled(cfg, Opened(cfg, c), op)
      && Next(cfg, Opened(cfg, c), op) ==
         Rotated(cfg, c, map[0 := RedeemedRow(cfg, c), 1 := ChildRow(cfg, c, 0 - cfg.lag)], User(Active, None), 0)
  {
    var w := Opened(cfg, c);
    assert w.db.tokens[0].hash == 0;
    assert Decide(cfg, w.db, Shown(c, 0), 0) == Redeem(0);
  }

  /** The rows just before cleanup, with the account already recovered. */
  ghost function Recovered(cfg: Config, c: ClientId): World {
    Rotated(cfg, c, map[0 := RedeemedRow(cfg, c), 1 := Evidence(cfg, c)], User(Active, None), 0)
  }

  ghost function Asked(cfg: Config, c: ClientId): World {
    Rotated(cfg, c, map[0 := RedeemedRow(cfg, c), 1 := Evidence(cfg, c)],
            User(PendingDeletion, Some(DELETION_DELAY - cfg.lag)), 0)
  }

  lemma Asking(cfg: Config, c: ClientId)
    requires Graceful(cfg, c)
    ensures var w := Rotated(cfg, c, map[0 := RedeemedRow(cfg, c), 1 := ChildRow(cfg, c, 0 - cfg.lag)],
      User(Active, None), 0);
      var op := AskDeletion(0, 0 - cfg.lag, 0);
      RequestDeletionAnswer(w.db, 0) == Accepted && Enabled(cfg, w, op) && Next(cfg, w, op) == Asked(cfg, c)
  {
    var w := Rotated(cfg, c, map[0 := RedeemedRow(cfg, c), 1 := ChildRow(cfg, c, 0 - cfg.lag)], User(Active, None), 0);
    assert RevokeUser(w.db.tokens, 0, 0 - cfg.lag) == Asked(cfg, c).db.tokens;
  }

  lemma Recovering(cfg: Config, c: ClientId)
    requires Graceful(cfg, c)
    ensures Enabled(cfg, Asked(cfg, c), RecoverUser(0, 0))
    ensures Next(cfg, Asked(cfg, c), RecoverUser(0, 0)) == Recovered(cfg, c)
  {
    assert Recover(Asked(cfg, c).db, 0).users == map[0 := User(Active, None)];
  }

  ghost function Swept(cfg: Config, c: ClientId): World {
    Rotated(cfg, c, map[0 := RedeemedRow(cfg, c)], User(Active, None), cfg.grace)
  }

  lemma Sweeping(cfg: Config, c: ClientId) returns (op: Op)
    requires Graceful(cfg, c) && !Sound(cfg)
    ensures Enabled(cfg, Recovered(cfg, c), op) && Next(cfg, Recovered(cfg, c), op) == Swept(cfg, c)
  {
    var w := Recovered(cfg, c);
    op := if cfg.lag + cfg.grace > 7 * DAY
    then CleanRevoked(cfg.grace, cfg.grace, {1})
    else CleanExpired(cfg.grace, cfg.grace, {1});
    assert w.db.tokens - {1} == map[0 := RedeemedRow(cfg, c)];
  }

  lemma Replaying(cfg: Config, c: ClientId)
    requires Graceful(cfg, c)
    ensures var op := Present(cfg.grace, cfg.grace, Shown(c, 0), 2, 2);
      && Enabled(cfg, Swept(cfg, c), op)
      && Next(cfg, Swept(cfg, c), op).log == Swept(cfg, c).log + [Issue(2, Some(0), 0, c, cfg.grace, [])]
  {
    var w := Swept(cfg, c);
    assert w.db.tokens[0].hash == 0;
    assert Children(w.db.tokens, 0) == {};
    assert Decide(cfg, w.db, Shown(c, 0), cfg.grace) == GraceChild(0);
  }

  lemma RotatedIsReachable(cfg: Config, c: ClientId)
    requires Usable(cfg)
    ensures Reachable(cfg, Rotated(cfg, c, map[0 := RedeemedRow(cfg, c), 1 := ChildRow(cfg, c, 0 - cfg.lag)],
      User(Active, None), 0))
  {
    var redeem := Present(0, 0 - cfg.lag, Shown(c, 0), 1, 1);
    var ops := OpeningRun(cfg, c);
    Redeeming(cfg, c);
    RunCons(cfg, Opened(cfg, c), redeem, []);
    RunsJoin(cfg, Start(0), ops, [redeem] + []);
  }

  /** A redeemed token is replayed a week later. While its row is kept that ends the family; once cleanup has deleted
      the row the replay changes nothing, and the token issued from it stays live. */
  lemma DeletedRowIsNotDetected(cfg: Config, c: ClientId)
    requires cfg.lag >= 0 && 0 <= cfg.grace <= MINUTE && cfg.ttl > 8 * DAY
    ensures var w := Rotated(cfg, c, map[0 := RedeemedRow(cfg, c), 1 := ChildRow(cfg, c, 0 - cfg.lag)],
      User(Active, None), 0);
      var cleaned := Cleaned(w.db, {0}, {});
      && Reachable(cfg, w) && Cleanable(cfg, w.db, {0}, {}, 8 * DAY)
      && Decide(cfg, w.db, Shown(c, 0), 8 * DAY) == Kill(0)
      && Decide(cfg, cleaned, Shown(c, 0), 8 * DAY) == Refuse(UnknownToken)
      && (forall sampledAt, id, hash ::
            DbAfter(cfg, cleaned, Present(8 * DAY, sampledAt, Shown(c, 0), id, hash)) == cleaned)
      && 1 in cleaned.tokens && cleaned.tokens[1].Live() && cleaned.tokens[1].parent == Some(0)
  {
    var w := Rotated(cfg, c, map[0 := RedeemedRow(cfg, c), 1 := ChildRow(cfg, c, 0 - cfg.lag)], User(Active, None), 0);
    RotatedIsReachable(cfg, c);
    assert w.db.tokens[0].hash == 0 && FindByHash(w.db.tokens, 0) == Some(0);
    assert FindByHash(w.db.tokens - {0}, 0) == None;
  }

  lemma LateRun(cfg: Config, c: ClientId) returns (ops: seq<Op>)
    requires Graceful(cfg, c) && !Sound(cfg)
    ensures Runnable(cfg, Asked(cfg, c), ops)
    ensures After(cfg, Asked(cfg, c), ops).log == Asked(cfg, c).log + [Issue(2, Some(0), 0, c, cfg.grace, [])]
  {
    var replay := Present(cfg.grace, cfg.grace, Shown(c, 0), 2, 2);
    Recovering(cfg, c);
    var sweep := Sweeping(cfg, c);
    Replaying(cfg, c);
    RunCons(cfg, Swept(cfg, c), replay, []);
    RunCons(cfg, Recovered(cfg, c), sweep, [replay] + []);
    RunCons(cfg, Asked(cfg, c), RecoverUser(0, 0), [sweep] + ([replay] + []));
    ops := [RecoverUser(0, 0)] + ([sweep] + ([replay] + []));
  }

  lemma LateReplayIsLetThrough(cfg: Config, c: ClientId)
    requires Graceful(cfg, c) && !Sound(cfg)
    ensures !DeletionIsFinal(cfg)
  {
    var w := Rotated(cfg, c, map[0 := RedeemedRow(cfg, c), 1 := ChildRow(cfg, c, 0 - cfg.lag)], User(Active, None), 0);
    var ask := AskDeletion(0, 0 - cfg.lag, 0);
    RotatedIsReachable(cfg, c);
    Asking(cfg, c);
    var ops := LateRun(cfg, c);
    assert FinalCase(cfg, w, ask, ops, 0);
    assert After(cfg, Next(cfg, w, ask), ops).log[2].family == 0;
  }

  /** Deletion is final exactly when no transaction takes effect later than the two retention periods allow:
      beyond that bound cleanup can remove the one row that closes the grace. */
  lemma LagBoundIsExact(cfg: Config, c: ClientId)
    requires Graceful(cfg, c)
    ensures DeletionIsFinal(cfg) <==> Sound(cfg)
  {
    if Sound(cfg) {
      forall w, op, ops, f | FinalCase(cfg, w, op, ops, f)
        ensures NothingIssuedSince(After(cfg, Next(cfg, w, op), ops).log, |w.log|, f)
      {
        DeletionRequestIsFinal(cfg, w, op, ops, f);
      }
    } else {
      LateReplayIsLetThrough(cfg, c);
    }
  }
}
