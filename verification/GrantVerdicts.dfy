/** Exactly what a presentation, a revocation and a deletion request do, said in terms of what the run has recorded: the
grant each family was opened with, its live rows, and the log of all tokens issued. */
module GrantVerdicts {
  import opened Prelude
  import opened GrantTables
  import opened GrantSteps
  import opened GrantMachine
  import opened GrantInvariants
  import opened GrantChildren

  // ---------- every row is on record ----------

  ghost predicate OnRecord(log: seq<Issue>, child: TokenId, parent: TokenId) {
    exists k :: 0 <= k < |log| && log[k].child == child && log[k].parent == Some(parent)
  }

  ghost predicate RowsOnRecord(t: Tokens, log: seq<Issue>) {
    forall c :: c in t && t[c].parent.Some? ==> OnRecord(log, c, t[c].parent.value)
  }

  lemma RecordStays(log: seq<Issue>, more: Issue, child: TokenId, parent: TokenId)
    requires OnRecord(log, child, parent)
    ensures OnRecord(log + [more], child, parent)
  {
    var k :| 0 <= k < |log| && log[k].child == child && log[k].parent == Some(parent);
    assert (log + [more])[k] == log[k];
  }

  /** One new row, with its entry. */
  lemma NewRowOnRecord(t: Tokens, t2: Tokens, log: seq<Issue>, e: Issue)
    requires RowsOnRecord(t, log) && t2.Keys == t.Keys + {e.child} && t2[e.child].parent == e.parent
    requires forall c :: c in t && c != e.child ==> t2[c].parent == t[c].parent
    ensures RowsOnRecord(t2, log + [e])
  {
    forall c | c in t2 && t2[c].parent.Some? ensures OnRecord(log + [e], c, t2[c].parent.value) {
      if c == e.child {
        assert (log + [e])[|log|] == e;
      } else {
        RecordStays(log, e, c, t2[c].parent.value);
      }
    }
  }

  lemma IssueIsOnRecord(cfg: Config, w: World, op: Op)
    requires Sound(cfg) && Inv(cfg, w) && RowsOnRecord(w.db.tokens, w.log) && Enabled(cfg, w, op) && Issues(cfg, w, op)
    ensures RowsOnRecord(Next(cfg, w, op).db.tokens, Next(cfg, w, op).log)
  {
    if op.Present? {
      RotationGivesBirth(cfg, w, op);
    }
    NewRowOnRecord(w.db.tokens, Next(cfg, w, op).db.tokens, w.log, IssueOf(cfg, w.db, op).value);
  }

  lemma {:induction false} RunKeepsRecords(cfg: Config, w: World, ops: seq<Op>)
    requires Sound(cfg) && Inv(cfg, w) && RowsOnRecord(w.db.tokens, w.log) && Runnable(cfg, w, ops)
    ensures RowsOnRecord(After(cfg, w, ops).db.tokens, After(cfg, w, ops).log)
    decreases |ops|
  {
    if ops == [] {
    } else {
      StepKeeps(cfg, w, ops[0]);
      if Issues(cfg, w, ops[0]) {
        IssueIsOnRecord(cfg, w, ops[0]);
      } else {
        QuietStepFades(cfg, w, ops[0]);
      }
      RunKeepsRecords(cfg, Next(cfg, w, ops[0]), ops[1..]);
    }
  }

  /** While a row is in grace, its surviving children are exactly the tokens ever issued from it. */
  lemma ChildrenAreTheRecord(cfg: Config, w: World, id: TokenId)
    requires Sound(cfg) && Reachable(cfg, w) && id in w.db.tokens && InGrace(cfg, w.db.tokens[id], w.clock)
    ensures Children(w.db.tokens, id) == IssuedFrom(w.log, id)
  {
    var start, ops :| Runnable(cfg, Start(start), ops) && w == After(cfg, Start(start), ops);
    ReachableLogIsOk(cfg, w);
    assert CountOk(cfg, w.db.tokens, w.log, w.clock, id);
    RunKeepsRecords(cfg, Start(start), ops);
    forall c | c in Children(w.db.tokens, id) ensures c in IssuedFrom(w.log, id) {
      assert OnRecord(w.log, c, id);
    }
  }

  // ---------- presentations ----------

  /** The request is one this family's grant entitles to a new token, if the row's state allows. */
  ghost predicate Entitled(w: World, row: Token, p: Presentation, at: Time) {
    && row.family in w.origins
    && var grant := w.origins[row.family];
       && p.isRefresh && p.client == grant.client && p.subject == grant.user
       && (forall sc :: sc in p.scopes ==> sc in grant.scopes)
       && at < row.expiresAt && p.resourceOk && p.accessOk
       && grant.user in w.db.users && w.db.users[grant.user].status == Active
  }

  /** The presented row has been redeemed no more than the grace ago, by a client that has the grace. */
  predicate JustRedeemed(cfg: Config, row: Token, at: Time) {
    && cfg.grace > 0 && row.grant.client in cfg.graceClients
    && row.usedAt.Some? && at <= row.usedAt.value + cfg.grace
  }

  ghost predicate HasLiveRow(t: Tokens, f: FamilyId) {
    exists i :: i in t && t[i].family == f && t[i].revokedAt.None? && t[i].usedAt.None?
  }

  ghost predicate Carries(t: Tokens, i: TokenId, hash: TokenHash) {
    i in t && t[i].hash == hash
  }

  /** The checks on the row, in terms of the grant its family was opened with. */
  lemma ValidMeansEntitled(cfg: Config, w: World, i: TokenId, p: Presentation, at: Time)
    requires Inv(cfg, w) && i in w.db.tokens
    ensures Validate(w.db, w.db.tokens[i], p, at).None? <==> Entitled(w, w.db.tokens[i], p, at)
  {
  }

  /** A family with a live row has neither a tombstone nor a purposely revoked row; and one in grace without these has a
      live row. */
  lemma OpenMeansLive(cfg: Config, w: World, i: TokenId, at: Time)
    requires Inv(cfg, w) && i in w.db.tokens && w.clock <= at
    ensures var t, f := w.db.tokens, w.db.tokens[i].family;
      && (HasLiveRow(t, f) ==> f !in w.db.tombstones && !HasRevokedOnPurpose(t, f))
      && (InGrace(cfg, t[i], at) && f !in w.db.tombstones && !HasRevokedOnPurpose(t, f) ==> HasLiveRow(t, f))
  {
    var t, f := w.db.tokens, w.db.tokens[i].family;
    if HasLiveRow(t, f) {
      var d :| d in t && t[d].family == f && t[d].revokedAt.None? && t[d].usedAt.None?;
      assert t[d].Live() && !NoLive(t, f);
    }
    if InGrace(cfg, t[i], at) && f !in w.db.tombstones && !HasRevokedOnPurpose(t, f) {
      var d :| Heir(cfg, t, t[i], d);
    }
  }

  /** The grace, in terms of live rows and of the log. */
  lemma GraceMeansLiveFamily(cfg: Config, w: World, i: TokenId, at: Time)
    requires Sound(cfg) && Reachable(cfg, w) && w.clock <= at && i in w.db.tokens
    ensures var row, g := w.db.tokens[i], GraceDecision(cfg, w.db, i, at);
      && (g == GraceNone <==> !(JustRedeemed(cfg, row, at) && HasLiveRow(w.db.tokens, row.family)))
      && (g == GraceIssue ==> |IssuedFrom(w.log, i)| < 3)
      && (g == GraceRefuse ==> |IssuedFrom(w.log, i)| >= 3)
  {
    ReachableIsSafe(cfg, w);
    OpenMeansLive(cfg, w, i, at);
    assert RowOk(cfg, w.db.tokens[i], w.clock);
    if GraceDecision(cfg, w.db, i, at) != GraceNone {
      ChildrenAreTheRecord(cfg, w, i);
    }
  }

  /** What is to become of an entitled presentation of this row. */
  ghost predicate Fits(cfg: Config, w: World, i: TokenId, at: Time, v: Verdict)
    requires i in w.db.tokens
  {
    var row := w.db.tokens[i];
    var replay := JustRedeemed(cfg, row, at) && HasLiveRow(w.db.tokens, row.family);
    match v
    case Redeem(j) => j == i && row.revokedAt.None? && row.usedAt.None?
    case GraceChild(j) => j == i && replay && |IssuedFrom(w.log, i)| < 3
    case Refuse(why) => why == GraceExhausted && replay && |IssuedFrom(w.log, i)| >= 3
    case Kill(j) => j == i && row.revokedAt.Some? && !replay
  }

  lemma EntitledRowIsDecided(cfg: Config, w: World, i: TokenId, p: Presentation, at: Time)
    requires Sound(cfg) && Reachable(cfg, w) && w.clock <= at && i in w.db.tokens && Entitled(w, w.db.tokens[i], p, at)
    ensures Fits(cfg, w, i, at, DecideRow(cfg, w.db, i, p, at))
  {
    ReachableIsSafe(cfg, w);
    ValidMeansEntitled(cfg, w, i, p, at);
    OpenMeansLive(cfg, w, i, at);
    GraceMeansLiveFamily(cfg, w, i, at);
    assert RowOk(cfg, w.db.tokens[i], w.clock);
    if w.db.tokens[i].Live() {
      assert HasLiveRow(w.db.tokens, w.db.tokens[i].family);
    }
  }

  lemma FoundByHash(t: Tokens, i: TokenId, hash: TokenHash)
    requires UniqueHashes(t)
    ensures FindByHash(t, hash) == Some(i) <==> Carries(t, i, hash)
  {
  }

  /** The request names the client and the subject of this family's grant. */
  ghost predicate ForThisGrant(w: World, row: Token, p: Presentation) {
    && row.family in w.origins && p.isRefresh
    && p.client == w.origins[row.family].client && p.subject == w.origins[row.family].user
  }

  ghost predicate AsksWithin(w: World, row: Token, p: Presentation) {
    row.family in w.origins && forall sc :: sc in p.scopes ==> sc in w.origins[row.family].scopes
  }

  /** Why a presentation that is not entitled is refused: for the first thing wrong with it, in this order. */
  ghost function WhatIsWrong(w: World, row: Token, p: Presentation, at: Time): Refusal {
    if !ForThisGrant(w, row, p) then NotThisGrant
    else if !AsksWithin(w, row, p) then InvalidScope
    else if at >= row.expiresAt then Expired
    else if !p.resourceOk then ResourceRefused
    else if p.subject !in w.db.users then UserMissing
    else if w.db.users[p.subject].status != Active then NotActive
    else AccessRefused
  }

  /** The verdict on every presentation of a token that is on file. */
  lemma VerdictExactly(cfg: Config, w: World, i: TokenId, p: Presentation, at: Time)
    requires Sound(cfg) && Reachable(cfg, w) && w.clock <= at && Carries(w.db.tokens, i, p.hash)
    ensures var row, v := w.db.tokens[i], Decide(cfg, w.db, p, at);
      && (Entitled(w, row, p, at) ==> Fits(cfg, w, i, at, v))
      && (!Entitled(w, row, p, at) ==> v == Refuse(WhatIsWrong(w, row, p, at)))
  {
    ReachableIsSafe(cfg, w);
    FoundByHash(w.db.tokens, i, p.hash);
    ValidMeansEntitled(cfg, w, i, p, at);
    if Entitled(w, w.db.tokens[i], p, at) {
      EntitledRowIsDecided(cfg, w, i, p, at);
    }
  }

  /** In every reachable store: a presentation issues exactly when the row carrying this hash belongs to the presenting
      client and subject, asks for no more scopes than its family was opened with, has not expired,
          the user is active and
      both policies agree; and it is live, or was redeemed within the grace while its family still has a live row and
      fewer than three tokens have ever been issued from it. */
  lemma IssuedExactlyWhen(cfg: Config, w: World, op: Op)
    requires Sound(cfg) && Reachable(cfg, w) && Enabled(cfg, w, op) && op.Present?
    ensures Issues(cfg, w, op) <==>
      exists i :: && Carries(w.db.tokens, i, op.p.hash) && Entitled(w, w.db.tokens[i], op.p, op.at)
                  && (|| (w.db.tokens[i].revokedAt.None? && w.db.tokens[i].usedAt.None?)
                      || (&& JustRedeemed(cfg, w.db.tokens[i], op.at)
                          && HasLiveRow(w.db.tokens, w.db.tokens[i].family) && |IssuedFrom(w.log, i)| < 3))
  {
    if i :| Carries(w.db.tokens, i, op.p.hash) {
      VerdictExactly(cfg, w, i, op.p, op.at);
      ReachableIsSafe(cfg, w);
      assert forall j :: Carries(w.db.tokens, j, op.p.hash) ==> j == i;
    } else {
      assert forall j :: j in w.db.tokens ==> !Carries(w.db.tokens, j, op.p.hash);
    }
  }

  /** The row a presentation creates. */
  predicate NewRow(cfg: Config, parent: Token, id: TokenId, op: Op, row: Token)
    requires op.Present?
  {
    && row.hash == op.hash && row.family == parent.family && row.grant == parent.grant && row.parent == Some(id)
    && row.createdAt == op.sampledAt && row.expiresAt == op.sampledAt + cfg.ttl
    && row.revokedAt.None? && row.usedAt.None?
  }

  /** The tables after an issue: a live parent is redeemed and revoked at this instant, one in grace stays as it is, one
      row is new, and nothing else changes. */
  lemma IssuingDoes(cfg: Config, w: World, op: Op)
    requires Enabled(cfg, w, op) && op.Present? && Named(w) && Issues(cfg, w, op)
    ensures var t, t2 := w.db.tokens, Next(cfg, w, op).db.tokens;
      exists i :: && Carries(t, i, op.p.hash) && t2.Keys == t.Keys + {op.id} && op.id !in t
                  && NewRow(cfg, t[i], i, op, t2[op.id])
                  && t2[i] == (if t[i].usedAt.Some? then t[i]
                               else t[i].(usedAt := Some(op.at), revokedAt := Some(op.at)))
                  && forall j :: j in t && j != i ==> t2[j] == t[j]
    ensures Next(cfg, w, op).db == w.db.(tokens := Next(cfg, w, op).db.tokens)
  {
    var i := Decide(cfg, w.db, op.p, op.at).id;
    assert Carries(w.db.tokens, i, op.p.hash);
  }

  // ---------- ending a family ----------

  /** Every row of the family is revoked, those not revoked before at `at`; a tombstone is there, an old one or this new
      one; and nothing else has changed. */
  ghost predicate EndsFamily(db: Db, db2: Db, f: FamilyId, user: UserId, reason: Reason, at: Time) {
    && db2 == db.(tokens := db2.tokens, tombstones := db2.tombstones)
    && db2.tokens.Keys == db.tokens.Keys && db2.tombstones.Keys == db.tombstones.Keys + {f}
    && (forall i :: i in db.tokens && (db.tokens[i].family != f || db.tokens[i].revokedAt.Some?) ==>
          db2.tokens[i] == db.tokens[i])
    && (forall i :: i in db.tokens && db.tokens[i].family == f && db.tokens[i].revokedAt.None? ==>
          db2.tokens[i] == db.tokens[i].(revokedAt := Some(at)))
    && (forall g :: g in db.tombstones ==> db2.tombstones[g] == db.tombstones[g])
    && (f !in db.tombstones ==> db2.tombstones[f] == Tombstone(user, reason, at))
  }

  lemma KillingEnds(db: Db, f: FamilyId, user: UserId, reason: Reason, at: Time)
    ensures EndsFamily(db, KillFamily(db, f, Tombstone(user, reason, at)), f, user, reason, at)
  {
  }

  /** A presentation that issues nothing ends the family of the presented token, or changes nothing: the former exactly
      for an entitled presentation of a spent token outside the grace. */
  lemma RefusingDoes(cfg: Config, w: World, i: TokenId, op: Op)
    requires Sound(cfg) && Reachable(cfg, w) && Enabled(cfg, w, op) && op.Present? && !Issues(cfg, w, op)
    requires Carries(w.db.tokens, i, op.p.hash)
    ensures var row, db2 := w.db.tokens[i], Next(cfg, w, op).db;
      if Entitled(w, row, op.p, op.at) && row.revokedAt.Some? &&
         !(JustRedeemed(cfg, row, op.at) && HasLiveRow(w.db.tokens, row.family))
      then EndsFamily(w.db, db2, row.family, w.origins[row.family].user, ReuseDetected, op.at)
      else db2 == w.db
  {
    VerdictExactly(cfg, w, i, op.p, op.at);
    if Decide(cfg, w.db, op.p, op.at).Kill? {
      assert w.db.tokens[i].grant.user == w.origins[w.db.tokens[i].family].user by {
        ReachableIsSafe(cfg, w);
      }
      KillingEnds(w.db, w.db.tokens[i].family, w.db.tokens[i].grant.user, ReuseDetected, op.at);
    }
  }

  // ---------- revocation ----------

  /** A revocation request names this row: by its hash, or by its id if no row of the client carries the hash. */
  ghost predicate Names(t: Tokens, hash: TokenHash, byId: Option<TokenId>, client: ClientId, i: TokenId) {
    && i in t && t[i].grant.client == client
    && (t[i].hash == hash ||
        (byId == Some(i) && forall j :: j in t && t[j].hash == hash ==> t[j].grant.client != client))
  }

  lemma LookupFindsExactly(t: Tokens, hash: TokenHash, byId: Option<TokenId>, client: ClientId, i: TokenId)
    requires UniqueHashes(t)
    ensures LookupGrant(t, hash, byId, client) == Some(i) <==> Names(t, hash, byId, client, i)
  {
    FoundByHash(t, i, hash);
  }

  /** A revocation ends the family of the row it names, on behalf of its owner, and otherwise changes nothing. */
  lemma RevocationDoes(db: Db, hash: TokenHash, byId: Option<TokenId>, client: ClientId, at: Time)
    requires UniqueHashes(db.tokens)
    ensures var db2 := RevokeGrant(db, hash, byId, client, at);
      && (forall i :: Names(db.tokens, hash, byId, client, i) ==>
            EndsFamily(db, db2, db.tokens[i].family, db.tokens[i].grant.user, Revoked, at))
      && ((forall i :: i in db.tokens ==> !Names(db.tokens, hash, byId, client, i)) ==> db2 == db)
  {
    forall i | i in db.tokens
      ensures LookupGrant(db.tokens, hash, byId, client) == Some(i) <==> Names(db.tokens, hash, byId, client, i)
    {
      LookupFindsExactly(db.tokens, hash, byId, client, i);
    }
  }

  // ---------- deletion requests ----------

  /** An active or pending account is accepted: an active one is scheduled thirty days ahead, a pending one keeps its
      date, and every token of the user is revoked, those not revoked before at `at`. Otherwise nothing changes. */
  lemma DeletionRequestDoes(db: Db, u: UserId, at: Time)
    ensures RequestDeletionAnswer(db, u) == Accepted <==>
      u in db.users && (db.users[u].status == Active || db.users[u].status == PendingDeletion)
    ensures RequestDeletionAnswer(db, u) == NoSuchUser <==> u !in db.users
    ensures RequestDeletionAnswer(db, u).AccountClosed? ==> RequestDeletionAnswer(db, u).status == db.users[u].status
    ensures var db2 := RequestDeletion(db, u, at);
      if u !in db.users || (db.users[u].status != Active && db.users[u].status != PendingDeletion) then db2 == db
      else
        && db2 == db.(tokens := db2.tokens, users := db2.users) && db2.tokens.Keys == db.tokens.Keys
        && (forall v :: v in db2.users <==> v in db.users)
        && (forall v :: v in db.users && v != u ==> db2.users[v] == db.users[v])
        && db2.users[u] == (if db.users[u].status == Active then User(PendingDeletion, Some(at + 30 * DAY))
             else db.users[u])
        && (forall i :: i in db.tokens && (db.tokens[i].grant.user != u || db.tokens[i].revokedAt.Some?) ==>
              db2.tokens[i] == db.tokens[i])
        && (forall i :: i in db.tokens && db.tokens[i].grant.user == u && db.tokens[i].revokedAt.None? ==>
              db2.tokens[i] == db.tokens[i].(revokedAt := Some(at)))
  {
  }
}
