/** What every call for a client document is answered, in terms of the calls on record: which of them went out, what
came back, and how long that lasts. */
module FetchAnswers {
  import opened Prelude
  import opened CimdTtl
  import opened CimdFetcher

  /** What a call that went out leaves in the cache: a document for its lifetime, an error for thirty seconds. */
  function EntryOf(c: Call): Entry {
    match c.outcome
    case Fetches(doc, ttl) => Positive(doc, c.ended + ttl)
    case Fails(error) => Negative(error, c.ended + 30 * SECOND)
  }

  ghost predicate WentOut(t: Time, cs: seq<Call>, k: nat)
    requires k < |cs|
  {
    GoesOut(After(Start(t), cs[..k]).state, cs[k])
  }

  /** The k-th call went out for this client, and what it brought back lasts beyond `looked`. */
  ghost predicate Serves(t: Time, cs: seq<Call>, k: nat, id: ClientId, looked: Time) {
    k < |cs| && cs[k].id == id && WentOut(t, cs, k) && looked < EntryOf(cs[k]).expiresAt
  }

  // ---------- runs from the front and from the back ----------

  lemma {:induction false} AfterLast(w: World, cs: seq<Call>, c: Call)
    ensures After(w, cs + [c]) == Next(After(w, cs), c)
    ensures Runnable(w, cs + [c]) <==> Runnable(w, cs) && Enabled(After(w, cs), c)
    decreases |cs|
  {
    if cs == [] {
      assert ([] + [c])[1..] == [];
    } else {
      assert (cs + [c])[1..] == cs[1..] + [c];
      AfterLast(Next(w, cs[0]), cs[1..], c);
    }
  }

  lemma {:induction false} AfterSplit(w: World, cs: seq<Call>, n: nat)
    requires n <= |cs|
    ensures After(w, cs) == After(After(w, cs[..n]), cs[n..])
    ensures Runnable(w, cs) <==> Runnable(w, cs[..n]) && Runnable(After(w, cs[..n]), cs[n..])
    decreases n
  {
    if n == 0 {
      assert cs[..0] == [] && cs[0..] == cs;
    } else {
      assert cs[..n][1..] == cs[1..][..n - 1] && cs[1..][n - 1..] == cs[n..];
      AfterSplit(Next(w, cs[0]), cs[1..], n - 1);
    }
  }

  // ---------- entries ----------

  lemma OutgoingIsCached(s: State, c: Call)
    requires GoesOut(s, c)
    ensures c.id in StateAfter(s, c).cache && StateAfter(s, c).cache[c.id] == EntryOf(c)
  {
  }

  lemma EntryAfter(s: State, c: Call, id: ClientId)
    requires id in StateAfter(s, c).cache
    ensures (c.id == id && GoesOut(s, c)) || (id in s.cache && StateAfter(s, c).cache[id] == s.cache[id])
  {
  }

  /** Every entry is what some call that went out brought back. */
  lemma {:induction false} EntriesComeFromCalls(t: Time, cs: seq<Call>, id: ClientId) returns (k: nat)
    requires Runnable(Start(t), cs) && id in After(Start(t), cs).state.cache
    ensures k < |cs| && cs[k].id == id && WentOut(t, cs, k) && After(Start(t), cs).state.cache[id] == EntryOf(cs[k])
    decreases |cs|
  {
    var n := |cs| - 1;
    var front, c := cs[..n], cs[n];
    assert cs == front + [c];
    AfterLast(Start(t), front, c);
    var s := After(Start(t), front).state;
    EntryAfter(s, c, id);
    if c.id == id && GoesOut(s, c) {
      OutgoingIsCached(s, c);
      k := n;
    } else {
      k := EntriesComeFromCalls(t, front, id);
      assert front[..k] == cs[..k];
    }
  }

  /** Until it expires, what a call brought back answers every call of its client. */
  lemma ServedFromCache(t: Time, cs: seq<Call>, k: nat, c: Call)
    requires Runnable(Start(t), cs) && Enabled(After(Start(t), cs), c) && c.admissible &&
      Serves(t, cs, k, c.id, c.looked)
    ensures AnswerTo(After(Start(t), cs).state, c) == FromCache(EntryOf(cs[k]))
  {
    var w := After(Start(t), cs[..k]);
    AfterSplit(Start(t), cs, k);
    assert cs[k..][0] == cs[k] && cs[k..][1..] == cs[k + 1..];
    OutgoingIsCached(w.state, cs[k]);
    LiveEntryIsServed(Next(w, cs[k]), cs[k + 1..], c);
  }

  // ---------- the quota ----------

  lemma {:induction false} NewerIsATail(h: seq<Time>, k: nat, cutoff: Time)
    requires Sorted(h) && 0 < k <= |h| && h[|h| - k] <= cutoff
    ensures |Newer(h, cutoff)| < k
    decreases k
  {
    var n := |h| - 1;
    if k > 1 {
      NewerIsATail(h[..n], k - 1, cutoff);
    } else {
      NothingNewer(h, cutoff);
    }
  }

  lemma {:induction false} NothingNewer(h: seq<Time>, cutoff: Time)
    requires forall k :: 0 <= k < |h| ==> h[k] <= cutoff
    ensures Newer(h, cutoff) == []
  {
    if h == [] {
    } else {
      NothingNewer(h[..|h| - 1], cutoff);
    }
  }

  lemma {:induction false} NewerIsShort(h: seq<Time>, cutoff: Time)
    ensures |Newer(h, cutoff)| <= |h|
  {
    if h == [] {
    } else {
      NewerIsShort(h[..|h| - 1], cutoff);
    }
  }

  /** The fifth last failure of the client is less than five minutes ago. */
  ghost predicate FiveFailures(w: World, id: ClientId, now: Time) {
    var h := History(w, id);
    |h| >= 5 && h[|h| - 5] > now - 5 * MINUTE
  }

  lemma QuotaIsTheFifthFailure(t: Time, cs: seq<Call>, c: Call)
    requires Runnable(Start(t), cs) && Enabled(After(Start(t), cs), c)
    ensures OverQuota(After(Start(t), cs).state, c) <==> FiveFailures(After(Start(t), cs), c.id, c.checked)
  {
    var w := After(Start(t), cs);
    var h, cutoff := History(w, c.id), c.checked - 5 * MINUTE;
    PrunedListIsTheHistory(t, cs, c);
    RunKeeps(Start(t), cs);
    assert HistoryOk(w, c.id);
    if |h| < 5 {
      NewerIsShort(h, cutoff);
    } else if h[|h| - 5] > cutoff {
      TailIsCounted(h, 5, cutoff);
    } else {
      NewerIsATail(h, 5, cutoff);
    }
  }

  // ---------- the answers ----------

  /** In every run: an inadmissible call is refused; one while an earlier result of its client lasts gets that result;
      one after five failures in five minutes is turned away; and any other goes out and gets what comes back. */
  lemma AnswersExactly(t: Time, cs: seq<Call>, c: Call)
    requires Runnable(Start(t), cs) && Enabled(After(Start(t), cs), c)
    ensures var w := After(Start(t), cs);
      var a := AnswerTo(w.state, c);
      && (a == Inadmissible <==> !c.admissible)
      && (c.admissible ==>
            && (forall k: nat :: Serves(t, cs, k, c.id, c.looked) ==> a == FromCache(EntryOf(cs[k])))
            && ((forall k: nat :: !Serves(t, cs, k, c.id, c.looked)) ==>
                  a == if FiveFailures(w, c.id, c.checked) then RateLimited
                       else if c.outcome.Fetches? then Fetched(c.outcome.doc) else FetchFailed(c.outcome.error)))
  {
    var w := After(Start(t), cs);
    forall k: nat | c.admissible && Serves(t, cs, k, c.id, c.looked)
      ensures AnswerTo(w.state, c) == FromCache(EntryOf(cs[k]))
    {
      ServedFromCache(t, cs, k, c);
    }
    QuotaIsTheFifthFailure(t, cs, c);
    if Hit(w.state, c) {
      var k := EntriesComeFromCalls(t, cs, c.id);
      assert Serves(t, cs, k, c.id, c.looked);
    }
  }

  /** What comes back lasts as long as its own header says: a document with a max-age of n seconds for n seconds, but
      at least five and at most a day; one whose header states nothing for five minutes; and an error for thirty
      seconds. */
  lemma ResultsLastAsStated(c: Call, doc: Document, header: string, n: nat, error: Error)
    requires n <= 9_223_372_036
    ensures c.outcome == OutcomeOf(Body(doc, header)) ==>
      EntryOf(c) == Positive(doc, c.ended + CacheTtl(header, 5 * MINUTE))
    ensures c.outcome == OutcomeOf(Body(doc, "max-age=" + Decimal(n))) ==>
      EntryOf(c) == Positive(doc, c.ended + (if n < 5 then 5 else if n > 86_400 then 86_400 else n) * SECOND)
    ensures c.outcome == OutcomeOf(Body(doc, "")) ==> EntryOf(c) == Positive(doc, c.ended + 5 * MINUTE)
    ensures c.outcome == OutcomeOf(NoResponse(error)) ==> EntryOf(c) == Negative(error, c.ended + 30 * SECOND)
  {
    ModestMaxAgeIsHonoured(n, FALLBACK_TTL);
  }
}
