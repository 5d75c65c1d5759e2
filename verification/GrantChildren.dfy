/** How many tokens one redemption may yield, when, and with which scopes. */
module GrantChildren {
  import opened Prelude
  import opened GrantTables
  import opened GrantSteps
  import opened GrantMachine
  import opened GrantInvariants

  /** The tokens ever issued from `p`, whether or not their rows still exist. */
  ghost function IssuedFrom(log: seq<Issue>, p: TokenId): set<TokenId> {
    set k | 0 <= k < |log| && log[k].parent == Some(p) :: log[k].child
  }

  ghost predicate EntryOk(w: World, e: Issue) {
    && e.child in w.ids
    && (e.parent.Some? ==> e.parent.value in w.ids)
    && e.at <= w.clock
    && e.family in w.origins
    && e.client == w.origins[e.family].client
    && (forall sc :: sc in e.requested ==> sc in w.origins[e.family].scopes)
  }

  ghost predicate EntriesOk(w: World) {
    && (forall k :: 0 <= k < |w.log| ==> EntryOk(w, w.log[k]))
    && (forall j, k :: 0 <= j < k < |w.log| ==> w.log[j].child != w.log[k].child)
  }

  /** While the parent's row exists its entries agree with it. */
  ghost predicate ParentsOk(cfg: Config, w: World) {
    forall k :: 0 <= k < |w.log| && w.log[k].parent.Some? && w.log[k].parent.value in w.db.tokens ==>
      var p := w.db.tokens[w.log[k].parent.value];
      && p.usedAt.Some? && p.family == w.log[k].family
      && p.usedAt.value <= w.log[k].at <= p.usedAt.value + cfg.grace
  }

  /** While a row is in grace, none of the tokens issued from it has been deleted. */
  ghost predicate CountOk(cfg: Config, t: Tokens, log: seq<Issue>, clock: Time, p: TokenId) {
    p in t && InGrace(cfg, t[p], clock) ==> IssuedFrom(log, p) <= Children(t, p)
  }

  ghost predicate CountsOk(cfg: Config, w: World) {
    forall p :: CountOk(cfg, w.db.tokens, w.log, w.clock, p)
  }

  ghost predicate CapOk(w: World) {
    forall p :: |IssuedFrom(w.log, p)| <= MAX_CHILDREN
  }

  /** Entries with the same parent are at most the grace apart, and a client without grace has just one. */
  ghost predicate WindowOk(cfg: Config, w: World) {
    forall j, k :: 0 <= j < k < |w.log| && w.log[j].parent.Some? && w.log[j].parent == w.log[k].parent ==>
      && w.log[j].at <= w.log[k].at <= w.log[j].at + cfg.grace
      && w.log[j].client == w.log[k].client
      && w.log[j].client in cfg.graceClients
  }

  ghost predicate LogOk(cfg: Config, w: World) {
    EntriesOk(w) && ParentsOk(cfg, w) && CountsOk(cfg, w) && CapOk(w) && WindowOk(cfg, w)
  }

  // ---------- steps that issue nothing ----------

  lemma FadingSparesChildren(cfg: Config, t: Tokens, t2: Tokens, p: TokenId, at: Time)
    requires KinOk(cfg, t) && Faded(cfg, t, t2, at) && p in t2 && InGrace(cfg, t2[p], at)
    ensures Children(t, p) <= Children(t2, p)
  {
    forall c | c in Children(t, p) ensures c in t2 {
      assert Relative(cfg, t, t[p], c);
    }
  }

  lemma QuietStepKeepsParents(cfg: Config, w: World, op: Op)
    requires Sound(cfg) && Inv(cfg, w) && ParentsOk(cfg, w) && Enabled(cfg, w, op) && !Issues(cfg, w, op)
    ensures ParentsOk(cfg, Next(cfg, w, op))
  {
    QuietStepFades(cfg, w, op);
  }

  lemma QuietStepKeepsCounts(cfg: Config, w: World, op: Op)
    requires Sound(cfg) && Inv(cfg, w) && CountsOk(cfg, w) && Enabled(cfg, w, op) && !Issues(cfg, w, op)
    ensures CountsOk(cfg, Next(cfg, w, op))
  {
    var t, t2 := w.db.tokens, Next(cfg, w, op).db.tokens;
    QuietStepFades(cfg, w, op);
    forall p ensures CountOk(cfg, t2, w.log, op.at, p) {
      assert CountOk(cfg, t, w.log, w.clock, p);
      if p in t2 && InGrace(cfg, t2[p], op.at) {
        FadingSparesChildren(cfg, t, t2, p, op.at);
      }
    }
  }

  lemma QuietStepKeepsLog(cfg: Config, w: World, op: Op)
    requires Sound(cfg) && Inv(cfg, w) && LogOk(cfg, w) && Enabled(cfg, w, op) && !Issues(cfg, w, op)
    ensures LogOk(cfg, Next(cfg, w, op))
  {
    QuietStepKeepsParents(cfg, w, op);
    QuietStepKeepsCounts(cfg, w, op);
  }

  // ---------- steps that issue a token ----------

  lemma IssuedFromGrows(log: seq<Issue>, e: Issue, p: TokenId)
    ensures IssuedFrom(log + [e], p) == IssuedFrom(log, p) + (if e.parent == Some(p) then {e.child} else {})
  {
    var log2 := log + [e];
    assert log2[|log|] == e;
    forall c | c in IssuedFrom(log, p) ensures c in IssuedFrom(log2, p) {
      var k :| 0 <= k < |log| && log[k].parent == Some(p) && log[k].child == c;
      assert log2[k] == log[k];
    }
  }

  lemma UnredeemedHasNoEntries(cfg: Config, w: World, p: TokenId)
    requires ParentsOk(cfg, w) && p in w.db.tokens && w.db.tokens[p].usedAt.None?
    ensures IssuedFrom(w.log, p) == {}
    ensures forall k :: 0 <= k < |w.log| ==> w.log[k].parent != Some(p)
  {
  }

  lemma IssueKeepsEntries(cfg: Config, w: World, op: Op)
    requires Sound(cfg) && Inv(cfg, w) && EntriesOk(w) && Enabled(cfg, w, op) && Issues(cfg, w, op)
    ensures EntriesOk(Next(cfg, w, op))
  {
  }

  lemma RotationKeepsParents(cfg: Config, w: World, op: Op)
    requires Sound(cfg) && Inv(cfg, w) && EntriesOk(w) && ParentsOk(cfg, w) && Enabled(cfg, w, op) && op.Present? &&
      Issues(cfg, w, op)
    ensures ParentsOk(cfg, Next(cfg, w, op))
  {
    RotationGivesBirth(cfg, w, op);
  }

  lemma SubsetIsSmaller<T>(a: set<T>, b: set<T>)
    requires a <= b
    ensures |a| <= |b|
  {
    assert b == a + (b - a);
  }

  /** The cap is checked against surviving rows, but inside the grace those are all there ever were. */
  lemma RotationRespectsCap(cfg: Config, w: World, op: Op)
    requires Sound(cfg) && Inv(cfg, w) && LogOk(cfg, w) && Enabled(cfg, w, op) && op.Present? && Issues(cfg, w, op)
    ensures |IssuedFrom(w.log, IssueOf(cfg, w.db, op).value.parent.value)| < MAX_CHILDREN
  {
    var v := Decide(cfg, w.db, op.p, op.at);
    if v.Redeem? {
      UnredeemedHasNoEntries(cfg, w, v.id);
    } else {
      assert CountOk(cfg, w.db.tokens, w.log, w.clock, v.id);
      SubsetIsSmaller(IssuedFrom(w.log, v.id), Children(w.db.tokens, v.id));
    }
  }

  lemma RotationKeepsCap(cfg: Config, w: World, op: Op)
    requires Sound(cfg) && Inv(cfg, w) && LogOk(cfg, w) && Enabled(cfg, w, op) && op.Present? && Issues(cfg, w, op)
    ensures CapOk(Next(cfg, w, op))
  {
    var w2, e := Next(cfg, w, op), IssueOf(cfg, w.db, op).value;
    RotationRespectsCap(cfg, w, op);
    forall p ensures |IssuedFrom(w2.log, p)| <= MAX_CHILDREN {
      IssuedFromGrows(w.log, e, p);
    }
  }

  lemma BirthAddsToChildren(cfg: Config, db: Db, t2: Tokens, parent: TokenId, child: TokenId, at: Time, p: TokenId)
    requires Born(cfg, db, t2, parent, child, at)
    ensures Children(t2, p) == Children(db.tokens, p) + (if p == parent then {child} else {})
  {
  }

  lemma BirthKeepsCount(cfg: Config, w: World, t2: Tokens, e: Issue, at: Time, p: TokenId)
    requires e.parent.Some? && Born(cfg, w.db, t2, e.parent.value, e.child, at) && w.clock <= at
    requires ParentsOk(cfg, w) && CountOk(cfg, w.db.tokens, w.log, w.clock, p) && IssuedFrom(w.log, e.child) == {}
    ensures CountOk(cfg, t2, w.log + [e], at, p)
  {
    IssuedFromGrows(w.log, e, p);
    BirthAddsToChildren(cfg, w.db, t2, e.parent.value, e.child, at, p);
    if p in w.db.tokens && w.db.tokens[p].usedAt.None? {
      UnredeemedHasNoEntries(cfg, w, p);
    }
  }

  lemma FreshIdHasNoEntries(w: World, id: TokenId)
    requires EntriesOk(w) && id !in w.ids
    ensures IssuedFrom(w.log, id) == {}
  {
  }

  lemma RotationKeepsCounts(cfg: Config, w: World, op: Op)
    requires Sound(cfg) && Inv(cfg, w) && LogOk(cfg, w) && Enabled(cfg, w, op) && op.Present? && Issues(cfg, w, op)
    ensures CountsOk(cfg, Next(cfg, w, op))
  {
    var w2, e := Next(cfg, w, op), IssueOf(cfg, w.db, op).value;
    RotationGivesBirth(cfg, w, op);
    FreshIdHasNoEntries(w, op.id);
    forall p ensures CountOk(cfg, w2.db.tokens, w2.log, w2.clock, p) {
      BirthKeepsCount(cfg, w, w2.db.tokens, e, op.at, p);
    }
  }

  lemma RotationKeepsWindow(cfg: Config, w: World, op: Op)
    requires Sound(cfg) && Inv(cfg, w) && LogOk(cfg, w) && Enabled(cfg, w, op) && op.Present? && Issues(cfg, w, op)
    ensures WindowOk(cfg, Next(cfg, w, op))
  {
    var v := Decide(cfg, w.db, op.p, op.at);
    if v.Redeem? {
      UnredeemedHasNoEntries(cfg, w, v.id);
    }
  }

  lemma OpeningKeepsParents(cfg: Config, w: World, op: Op)
    requires Inv(cfg, w) && EntriesOk(w) && ParentsOk(cfg, w) && Enabled(cfg, w, op) && op.Open?
    ensures ParentsOk(cfg, Next(cfg, w, op))
  {
  }

  lemma OpeningKeepsCount(cfg: Config, w: World, op: Op, p: TokenId)
    requires CountOk(cfg, w.db.tokens, w.log, w.clock, p) && |IssuedFrom(w.log, p)| <= MAX_CHILDREN
    requires Named(w) && Enabled(cfg, w, op) && op.Open?
    ensures CountOk(cfg, Next(cfg, w, op).db.tokens, Next(cfg, w, op).log, op.at, p)
    ensures |IssuedFrom(Next(cfg, w, op).log, p)| <= MAX_CHILDREN
  {
    IssuedFromGrows(w.log, IssueOf(cfg, w.db, op).value, p);
    assert Children(Next(cfg, w, op).db.tokens, p) == Children(w.db.tokens, p);
  }

  lemma OpeningKeepsLog(cfg: Config, w: World, op: Op)
    requires Sound(cfg) && Inv(cfg, w) && LogOk(cfg, w) && Enabled(cfg, w, op) && op.Open?
    ensures LogOk(cfg, Next(cfg, w, op))
  {
    IssueKeepsEntries(cfg, w, op);
    OpeningKeepsParents(cfg, w, op);
    forall p
      ensures CountOk(cfg, Next(cfg, w, op).db.tokens, Next(cfg, w, op).log, op.at, p)
      ensures |IssuedFrom(Next(cfg, w, op).log, p)| <= MAX_CHILDREN
    {
      OpeningKeepsCount(cfg, w, op, p);
    }
  }

  // ---------- every run ----------

  lemma StepKeepsLog(cfg: Config, w: World, op: Op)
    requires Sound(cfg) && Inv(cfg, w) && LogOk(cfg, w) && Enabled(cfg, w, op)
    ensures LogOk(cfg, Next(cfg, w, op))
  {
    if !Issues(cfg, w, op) {
      QuietStepKeepsLog(cfg, w, op);
    } else if op.Open? {
      OpeningKeepsLog(cfg, w, op);
    } else {
      IssueKeepsEntries(cfg, w, op);
      RotationKeepsParents(cfg, w, op);
      RotationKeepsCounts(cfg, w, op);
      RotationKeepsCap(cfg, w, op);
      RotationKeepsWindow(cfg, w, op);
    }
  }

  lemma {:induction false} RunKeepsLog(cfg: Config, w: World, ops: seq<Op>)
    requires Sound(cfg) && Inv(cfg, w) && LogOk(cfg, w) && Runnable(cfg, w, ops)
    ensures LogOk(cfg, After(cfg, w, ops))
    decreases |ops|
  {
    if ops == [] {
    } else {
      StepKeeps(cfg, w, ops[0]);
      StepKeepsLog(cfg, w, ops[0]);
      RunKeepsLog(cfg, Next(cfg, w, ops[0]), ops[1..]);
    }
  }

  lemma ReachableLogIsOk(cfg: Config, w: World)
    requires Sound(cfg) && Reachable(cfg, w)
    ensures LogOk(cfg, w)
  {
    var t, ops :| Runnable(cfg, Start(t), ops) && w == After(cfg, Start(t), ops);
    RunKeepsLog(cfg, Start(t), ops);
  }

  /** Over a whole run one token yields at most three others, counting those already deleted. */
  lemma AtMostThreeChildren(cfg: Config, w: World, p: TokenId)
    requires Sound(cfg) && Reachable(cfg, w)
    ensures |IssuedFrom(w.log, p)| <= 3
    ensures forall j, k :: 0 <= j < k < |w.log| ==> w.log[j].child != w.log[k].child
  {
    ReachableLogIsOk(cfg, w);
  }

  /** Two tokens issued from one parent: the client has the grace, and the later was decided within the
      grace of the earlier, so the window opened by the first redemption never slides. A client
      without grace therefore gets one token per redemption. */
  lemma ReplaysStayInTheFirstWindow(cfg: Config, w: World, j: nat, k: nat)
    requires Sound(cfg) && Reachable(cfg, w) && j < k < |w.log|
    requires w.log[j].parent.Some? && w.log[k].parent == w.log[j].parent
    ensures w.log[j].client in cfg.graceClients && w.log[k].client == w.log[j].client
    ensures w.log[j].at <= w.log[k].at <= w.log[j].at + cfg.grace
  {
    ReachableLogIsOk(cfg, w);
  }

  /** Every token of a family carries the grant of its first one, and no redemption ever asked for more scopes. */
  lemma GrantNeverWidens(cfg: Config, w: World)
    requires Sound(cfg) && Reachable(cfg, w)
    ensures forall i, j :: i in w.db.tokens && j in w.db.tokens && w.db.tokens[i].family == w.db.tokens[j].family ==>
      w.db.tokens[i].grant == w.db.tokens[j].grant
    ensures forall i :: i in w.db.tokens ==>
      w.db.tokens[i].family in w.origins && w.db.tokens[i].grant == w.origins[w.db.tokens[i].family]
    ensures forall k, sc :: 0 <= k < |w.log| && sc in w.log[k].requested ==>
      w.log[k].family in w.origins && sc in w.origins[w.log[k].family].scopes
  {
    ReachableIsSafe(cfg, w);
    ReachableLogIsOk(cfg, w);
    forall k, sc | 0 <= k < |w.log| && sc in w.log[k].requested
      ensures w.log[k].family in w.origins && sc in w.origins[w.log[k].family].scopes
    {
      assert EntryOk(w, w.log[k]);
    }
  }
}
