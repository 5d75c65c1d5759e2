/** Resolving client documents: positive and negative cache, and a failure quota per client.

Fetches are sequential and the bounded maps are taken to be large enough. The outcome of the outbound request
and the clock readings (lookup, quota check, completion) are parameters.
*/
module CimdFetcher {
  import opened Prelude
  import opened CimdTtl

  type ClientId = nat
  type Document = nat
  type Error = nat

  const NEGATIVE_TTL: Time := 30 * SECOND
  const FAILURE_LIMIT: nat := 5
  const FAILURE_WINDOW: Time := 5 * MINUTE
  const FALLBACK_TTL: Time := 5 * MINUTE

  datatype Entry = Positive(doc: Document, expiresAt: Time) | Negative(error: Error, expiresAt: Time)

  /** A cache lifetime as derived from a Cache-Control header. */
  type Ttl = t: Time | FLOOR_TTL <= t <= CEIL_TTL witness FLOOR_TTL

  /** What the outbound request would bring back: a document with its Cache-Control header, or an error. */
  datatype Response = Body(doc: Document, header: string) | NoResponse(error: Error)

  datatype Outcome = Fetches(doc: Document, ttl: Ttl) | Fails(error: Error)

  function OutcomeOf(r: Response): Outcome {
    match r
    case Body(doc, header) => Fetches(doc, CacheTtl(header, FALLBACK_TTL))
    case NoResponse(error) => Fails(error)
  }

  /** A response becomes an outcome: its cache lifetime is never outside the bounds. */
  method FetchAndValidate(r: Response) returns (o: Outcome)
    ensures o == OutcomeOf(r)
  {
    match r
    case Body(doc, header) =>
      var stated := ParseCacheControl(header, FALLBACK_TTL);
      var ttl := if stated < FLOOR_TTL then FLOOR_TTL else if stated > CEIL_TTL then CEIL_TTL else stated;
      return Fetches(doc, ttl);
    case NoResponse(error) => return Fails(error);
  }

  datatype Answer =
    | Inadmissible | FromCache(entry: Entry) | RateLimited | Fetched(doc: Document) | FetchFailed(error: Error)

  datatype Call = Call(id: ClientId, admissible: bool, looked: Time, checked: Time, ended: Time, outcome: Outcome)

  /** The failures after `cutoff`, in order. */
  function Newer(times: seq<Time>, cutoff: Time): seq<Time> {
    if times == [] then []
    else
      var n := |times| - 1;
      Newer(times[..n], cutoff) + (if times[n] > cutoff then [times[n]] else [])
  }

  lemma NewerLast(times: seq<Time>, t: Time, cutoff: Time)
    ensures Newer(times + [t], cutoff) == Newer(times, cutoff) + (if t > cutoff then [t] else [])
  {
    assert (times + [t])[..|times|] == times;
  }

  /** Filters the first `n` slots of the buffer into its own front, as the program does. */
  method PruneInPlace(buffer: array<Time>, n: nat, cutoff: Time) returns (kept: nat)
    requires n <= buffer.Length
    modifies buffer
    ensures kept <= n && buffer[..kept] == Newer(old(buffer[..n]), cutoff)
    ensures buffer[n..] == old(buffer[n..])
  {
    ghost var was, front := buffer[..n], [];
    kept := 0;
    for i := 0 to n
      invariant kept == |front| <= i && front == Newer(was[..i], cutoff)
      invariant forall k :: 0 <= k < kept ==> buffer[k] == front[k]
      invariant forall k :: i <= k < buffer.Length ==> buffer[k] == old(buffer[k])
    {
      var t := buffer[i];
      assert was[..i + 1] == was[..i] + [t];
      NewerLast(was[..i], t, cutoff);
      if t > cutoff {
        buffer[kept] := t;
        kept, front := kept + 1, front + [t];
      }
    }
    assert was[..n] == was && buffer[..kept] == front;
  }

  method PruneOldTimestamps(times: seq<Time>, now: Time) returns (kept: seq<Time>)
    ensures kept == Newer(times, now - FAILURE_WINDOW)
  {
    var buffer := new Time[|times|](k requires 0 <= k < |times| => times[k]);
    assert buffer[..|times|] == times;
    var n := PruneInPlace(buffer, |times|, now - FAILURE_WINDOW);
    return buffer[..n];
  }

  datatype State = State(cache: map<ClientId, Entry>, failures: map<ClientId, seq<Time>>)

  function Failures(s: State, id: ClientId): seq<Time> {
    if id in s.failures then s.failures[id] else []
  }

  predicate Hit(s: State, c: Call) {
    c.id in s.cache && c.looked < s.cache[c.id].expiresAt
  }

  predicate OverQuota(s: State, c: Call) {
    |Newer(Failures(s, c.id), c.checked - FAILURE_WINDOW)| >= FAILURE_LIMIT
  }

  /** Whether the call makes an outbound request. */
  predicate GoesOut(s: State, c: Call) {
    c.admissible && !Hit(s, c) && !OverQuota(s, c)
  }

  function AnswerTo(s: State, c: Call): Answer {
    if !c.admissible then Inadmissible
    else if Hit(s, c) then FromCache(s.cache[c.id])
    else if OverQuota(s, c) then RateLimited
    else match c.outcome
      case Fetches(doc, _) => Fetched(doc)
      case Fails(error) => FetchFailed(error)
  }

  /** After a miss: the dead entry is dropped and old failures are pruned. */
  function Missed(s: State, c: Call): State {
    State(s.cache - {c.id},
          if c.id in s.failures then s.failures[c.id := Newer(s.failures[c.id], c.checked - FAILURE_WINDOW)]
              else s.failures)
  }

  /** After the request: its outcome is cached, and a failure counted. */
  function Remembered(s: State, id: ClientId, ended: Time, outcome: Outcome): State {
    match outcome
    case Fetches(doc, ttl) => s.(cache := s.cache[id := Positive(doc, ended + ttl)])
    case Fails(error) =>
      State(s.cache[id := Negative(error, ended + NEGATIVE_TTL)],
            s.failures[id := Newer(Failures(s, id), ended - FAILURE_WINDOW) + [ended]])
  }

  function StateAfter(s: State, c: Call): State {
    if !c.admissible || Hit(s, c) then s
    else if OverQuota(s, c) then Missed(s, c)
    else Remembered(Missed(s, c), c.id, c.ended, c.outcome)
  }

  class Fetcher {
    var cache: map<ClientId, Entry>
    var failures: map<ClientId, seq<Time>>

    function Contents(): State
      reads this
    {
      State(cache, failures)
    }

    constructor ()
      ensures Contents() == State(map[], map[])
    {
      cache, failures := map[], map[];
    }

    /** A live entry, or a miss; an expired entry is removed. */
    method Lookup(id: ClientId, now: Time) returns (hit: Option<Entry>)
      modifies this`cache
      ensures hit == if id in old(cache) && now < old(cache)[id].expiresAt then Some(old(cache)[id]) else None
      ensures cache == if hit.Some? then old(cache) else old(cache) - {id}
    {
      if id !in cache {
        return None;
      }
      if now < cache[id].expiresAt {
        return Some(cache[id]);
      }
      cache := cache - {id};
      return None;
    }

    method IsRateLimited(id: ClientId, now: Time) returns (limited: bool)
      modifies this`failures
      ensures limited <==> |Newer(Failures(old(Contents()), id), now - FAILURE_WINDOW)| >= FAILURE_LIMIT
      ensures failures == if id in old(failures)
        then old(failures)[id := Newer(old(failures)[id], now - FAILURE_WINDOW)] else old(failures)
    {
      if id !in failures {
        return false;
      }
      var kept := PruneOldTimestamps(failures[id], now);
      failures := failures[id := kept];
      return |kept| >= FAILURE_LIMIT;
    }

    method Record(id: ClientId, now: Time)
      modifies this`failures
      ensures failures == old(failures)[id := Newer(Failures(old(Contents()), id), now - FAILURE_WINDOW) + [now]]
    {
      var times := if id in failures then failures[id] else [];
      var kept := PruneOldTimestamps(times, now);
      failures := failures[id := kept + [now]];
    }

    /** Caches what came back, and counts a failure. */
    method Remember(id: ClientId, ended: Time, outcome: Outcome)
      modifies this
      ensures Contents() == Remembered(old(Contents()), id, ended, outcome)
    {
      match outcome
      case Fails(error) =>
        Record(id, ended);
        cache := cache[id := Negative(error, ended + NEGATIVE_TTL)];
      case Fetches(doc, ttl) =>
        if ttl > 0 {
          cache := cache[id := Positive(doc, ended + ttl)];
        }
    }

    /** Cache, then quota, then the request `r` answers; both outcomes are remembered. */
    method FetchClient(c: Call, r: Response) returns (a: Answer)
      requires c.outcome == OutcomeOf(r)
      modifies this
      ensures a == AnswerTo(old(Contents()), c)
      ensures Contents() == StateAfter(old(Contents()), c)
    {
      if !c.admissible {
        return Inadmissible;
      }
      var hit := Lookup(c.id, c.looked);
      if hit.Some? {
        return FromCache(hit.value);
      }
      var limited := IsRateLimited(c.id, c.checked);
      assert Contents() == Missed(old(Contents()), c);
      if limited {
        return RateLimited;
      }
      var outcome := FetchAndValidate(r);
      Remember(c.id, c.ended, outcome);
      match outcome
      case Fetches(doc, _) => return Fetched(doc);
      case Fails(error) => return FetchFailed(error);
    }
  }

  // ---------- runs ----------

  /** `history` lists for every client the ends of all its failed requests. */
  datatype World = World(state: State, clock: Time, history: map<ClientId, seq<Time>>)

  predicate Enabled(w: World, c: Call) {
    w.clock <= c.looked <= c.checked <= c.ended
  }

  function History(w: World, id: ClientId): seq<Time> {
    if id in w.history then w.history[id] else []
  }

  predicate FailsNow(s: State, c: Call) {
    GoesOut(s, c) && c.outcome.Fails?
  }

  function Next(w: World, c: Call): World {
    World(StateAfter(w.state, c), c.ended,
          if FailsNow(w.state, c) then w.history[c.id := History(w, c.id) + [c.ended]] else w.history)
  }

  predicate Runnable(w: World, cs: seq<Call>)
    decreases |cs|
  {
    cs == [] || (Enabled(w, cs[0]) && Runnable(Next(w, cs[0]), cs[1..]))
  }

  function After(w: World, cs: seq<Call>): World
    decreases |cs|
  {
    if cs == [] then w else After(Next(w, cs[0]), cs[1..])
  }

  function Start(t: Time): World {
    World(State(map[], map[]), t, map[])
  }

  // ---------- the pruned list is the history, restricted to the window ----------

  lemma {:induction false} NewerTwice(times: seq<Time>, a: Time, b: Time)
    requires a <= b
    ensures Newer(Newer(times, a), b) == Newer(times, b)
  {
    if times == [] {
    } else {
      var n := |times| - 1;
      var front, t := times[..n], times[n];
      assert times == front + [t];
      NewerTwice(front, a, b);
      NewerLast(front, t, a);
      NewerLast(front, t, b);
      NewerLast(Newer(front, a), t, b);
      assert t <= a ==> Newer(times, a) == Newer(front, a);
    }
  }

  predicate Sorted(times: seq<Time>) {
    forall j, k :: 0 <= j <= k < |times| ==> times[j] <= times[k]
  }

  /** Far enough apart: 30 seconds between any two, and the whole window between any one and the fifth after it. */
  predicate Spaced(times: seq<Time>) {
    && (forall j, k :: 0 <= j < k < |times| ==> times[j] + NEGATIVE_TTL <= times[k])
    && (forall j, k :: 0 <= j && j + FAILURE_LIMIT <= k < |times| ==> times[j] + FAILURE_WINDOW <= times[k])
  }

  /** From `clock` on, the list and the history agree on every window. */
  ghost predicate Agree(list: seq<Time>, h: seq<Time>, clock: Time) {
    forall cutoff :: cutoff >= clock - FAILURE_WINDOW ==> Newer(list, cutoff) == Newer(h, cutoff)
  }

  ghost predicate InStep(w: World, id: ClientId) {
    Agree(Failures(w.state, id), History(w, id), w.clock)
  }

  ghost predicate Inv(w: World) {
    forall id :: InStep(w, id) && HistoryOk(w, id)
  }

  /** Failures are well apart, and the last one is remembered by a cache entry expiring at `expiry` while it counts. */
  ghost predicate Fine(h: seq<Time>, clock: Time, expiry: Option<Time>) {
    && Spaced(h)
    && (h != [] ==>
          && h[|h| - 1] <= clock
          && (clock < h[|h| - 1] + NEGATIVE_TTL ==> expiry == Some(h[|h| - 1] + NEGATIVE_TTL)))
  }

  function Expiry(s: State, id: ClientId): Option<Time> {
    if id in s.cache then Some(s.cache[id].expiresAt) else None
  }

  ghost predicate HistoryOk(w: World, id: ClientId) {
    Fine(History(w, id), w.clock, Expiry(w.state, id))
  }

  lemma PrunedFailures(s: State, c: Call)
    requires c.admissible && !Hit(s, c)
    ensures Failures(StateAfter(s, c), c.id) ==
      var pruned := Newer(Failures(s, c.id), c.checked - FAILURE_WINDOW);
      if FailsNow(s, c) then Newer(pruned, c.ended - FAILURE_WINDOW) + [c.ended] else pruned
  {
    var pruned := Newer(Failures(s, c.id), c.checked - FAILURE_WINDOW);
    assert Failures(Missed(s, c), c.id) == pruned;
    if FailsNow(s, c) {
      assert StateAfter(s, c) == Remembered(Missed(s, c), c.id, c.ended, c.outcome);
    }
  }

  lemma SameFailures(s: State, c: Call, id: ClientId)
    requires id != c.id || !c.admissible || Hit(s, c)
    ensures Failures(StateAfter(s, c), id) == Failures(s, id)
  {
  }

  /** Agreement survives pruning at `checked`, and recording at `ended`. */
  lemma AgreementLasts(list: seq<Time>, h: seq<Time>, clock: Time, checked: Time, ended: Time)
    requires Agree(list, h, clock) && clock <= checked <= ended
    ensures Agree(list, h, ended)
    ensures Agree(Newer(list, checked - FAILURE_WINDOW), h, ended)
    ensures Agree(Newer(Newer(list, checked - FAILURE_WINDOW), ended - FAILURE_WINDOW) + [ended], h + [ended], ended)
  {
    var early, late := checked - FAILURE_WINDOW, ended - FAILURE_WINDOW;
    forall cutoff | cutoff >= late
      ensures Newer(Newer(list, early), cutoff) == Newer(h, cutoff)
      ensures Newer(Newer(Newer(list, early), late) + [ended], cutoff) == Newer(h + [ended], cutoff)
    {
      NewerTwice(list, early, cutoff);
      NewerTwice(Newer(list, early), late, cutoff);
      NewerLast(Newer(Newer(list, early), late), ended, cutoff);
      NewerLast(h, ended, cutoff);
    }
  }

  lemma StaysInStep(w: World, c: Call, id: ClientId)
    requires InStep(w, id) && Enabled(w, c)
    ensures InStep(Next(w, c), id)
  {
    AgreementLasts(Failures(w.state, id), History(w, id), w.clock, c.checked, c.ended);
    if id == c.id && c.admissible && !Hit(w.state, c) {
      PrunedFailures(w.state, c);
    } else {
      SameFailures(w.state, c, id);
    }
  }

  // ---------- failures stay apart ----------

  lemma {:induction false} TailIsCounted(h: seq<Time>, k: nat, cutoff: Time)
    requires Sorted(h) && 0 < k <= |h| && h[|h| - k] > cutoff
    ensures |Newer(h, cutoff)| >= k
    decreases k
  {
    var n := |h| - 1;
    assert h[..n] + [h[n]] == h;
    NewerLast(h[..n], h[n], cutoff);
    if k > 1 {
      TailIsCounted(h[..n], k - 1, cutoff);
    }
  }

  /** A request that goes out comes 30 seconds after the last failure and a whole window after the fifth last. */
  lemma OutgoingIsSpaced(w: World, c: Call)
    requires InStep(w, c.id) && HistoryOk(w, c.id) && Enabled(w, c) && GoesOut(w.state, c)
    ensures var h := History(w, c.id);
      && (|h| > 0 ==> h[|h| - 1] + NEGATIVE_TTL <= c.looked)
      && (|h| >= FAILURE_LIMIT ==> h[|h| - FAILURE_LIMIT] + FAILURE_WINDOW <= c.checked)
  {
    var h := History(w, c.id);
    var cutoff := c.checked - FAILURE_WINDOW;
    assert |Newer(h, cutoff)| < FAILURE_LIMIT;
    if |h| >= FAILURE_LIMIT && h[|h| - FAILURE_LIMIT] > cutoff {
      TailIsCounted(h, FAILURE_LIMIT, cutoff);
    }
  }

  lemma SameEntry(s: State, c: Call, id: ClientId)
    requires id != c.id || !c.admissible || Hit(s, c)
    ensures id in s.cache <==> id in StateAfter(s, c).cache
    ensures id in s.cache ==> StateAfter(s, c).cache[id] == s.cache[id]
  {
  }

  lemma FailureIsRemembered(s: State, c: Call)
    requires FailsNow(s, c)
    ensures Expiry(StateAfter(s, c), c.id) == Some(c.ended + NEGATIVE_TTL)
  {
  }

  lemma StaysFine(h: seq<Time>, clock: Time, expiry: Option<Time>, clock2: Time, expiry2: Option<Time>)
    requires Fine(h, clock, expiry) && clock <= clock2
    requires expiry2 == expiry || (h != [] ==> h[|h| - 1] + NEGATIVE_TTL <= clock2)
    ensures Fine(h, clock2, expiry2)
  {
  }

  lemma GrowsFine(h: seq<Time>, t: Time)
    requires Spaced(h)
    requires |h| > 0 ==> h[|h| - 1] + NEGATIVE_TTL <= t
    requires |h| >= FAILURE_LIMIT ==> h[|h| - FAILURE_LIMIT] + FAILURE_WINDOW <= t
    ensures Fine(h + [t], t, Some(t + NEGATIVE_TTL))
  {
  }

  /** A miss means that the last failure no longer counts. */
  lemma MissComesLate(w: World, c: Call)
    requires HistoryOk(w, c.id) && Enabled(w, c) && !Hit(w.state, c) && History(w, c.id) != []
    ensures History(w, c.id)[|History(w, c.id)| - 1] + NEGATIVE_TTL <= c.looked
  {
  }

  lemma FailureStaysOk(w: World, c: Call)
    requires InStep(w, c.id) && HistoryOk(w, c.id) && Enabled(w, c) && FailsNow(w.state, c)
    ensures HistoryOk(Next(w, c), c.id)
  {
    OutgoingIsSpaced(w, c);
    GrowsFine(History(w, c.id), c.ended);
    FailureIsRemembered(w.state, c);
  }

  /** Nothing is known of a new failure, so the old list must stay fine with the new clock and cache entry. */
  lemma OldHistoryStaysFine(w: World, c: Call, id: ClientId)
    requires HistoryOk(w, id) && Enabled(w, c)
    ensures Fine(History(w, id), c.ended, Expiry(StateAfter(w.state, c), id)) || (id == c.id && FailsNow(w.state, c))
  {
    var h := History(w, id);
    if id != c.id || !c.admissible || Hit(w.state, c) {
      SameEntry(w.state, c, id);
      StaysFine(h, w.clock, Expiry(w.state, id), c.ended, Expiry(StateAfter(w.state, c), id));
    } else if h != [] {
      MissComesLate(w, c);
      StaysFine(h, w.clock, Expiry(w.state, id), c.ended, Expiry(StateAfter(w.state, c), id));
    }
  }

  lemma HistoryGrowsOnlyByFailures(w: World, c: Call, id: ClientId)
    requires id != c.id || !FailsNow(w.state, c)
    ensures History(Next(w, c), id) == History(w, id)
  {
  }

  lemma HistoryStaysOk(w: World, c: Call, id: ClientId)
    requires InStep(w, id) && HistoryOk(w, id) && Enabled(w, c)
    ensures HistoryOk(Next(w, c), id)
  {
    if id == c.id && FailsNow(w.state, c) {
      FailureStaysOk(w, c);
    } else {
      OldHistoryStaysFine(w, c, id);
      HistoryGrowsOnlyByFailures(w, c, id);
    }
  }

  lemma {:induction false} RunKeeps(w: World, cs: seq<Call>)
    requires Inv(w) && Runnable(w, cs)
    ensures Inv(After(w, cs))
    decreases |cs|
  {
    if cs == [] {
    } else {
      forall id ensures InStep(Next(w, cs[0]), id) && HistoryOk(Next(w, cs[0]), id) {
        assert InStep(w, id) && HistoryOk(w, id);
        StaysInStep(w, cs[0], id);
        HistoryStaysOk(w, cs[0], id);
      }
      RunKeeps(Next(w, cs[0]), cs[1..]);
    }
  }

  /** In every run the pruned list agrees with the full history on every window from now on, so the quota
      decides as if nothing had ever been pruned. */
  lemma PrunedListIsTheHistory(t: Time, cs: seq<Call>, c: Call)
    requires Runnable(Start(t), cs) && Enabled(After(Start(t), cs), c)
    ensures var w := After(Start(t), cs);
      OverQuota(w.state, c) <==> |Newer(History(w, c.id), c.checked - 5 * MINUTE)| >= 5
  {
    RunKeeps(Start(t), cs);
    assert InStep(After(Start(t), cs), c.id);
  }

  /** In every run the failed requests of one client are at least 30 seconds apart, and any two of them less
      than five minutes apart are at most four places apart: no five-minute window holds more than five. */
  lemma FailuresAreRare(t: Time, cs: seq<Call>, id: ClientId, j: nat, k: nat)
    requires Runnable(Start(t), cs) && j < k < |History(After(Start(t), cs), id)|
    ensures var h := History(After(Start(t), cs), id);
      && h[j] + 30 * SECOND <= h[k]
      && (h[k] - h[j] < 5 * MINUTE ==> k - j < 5)
  {
    RunKeeps(Start(t), cs);
    assert HistoryOk(After(Start(t), cs), id);
  }

  // ---------- how long an entry is served ----------

  /** Until it expires an entry answers every lookup of its client, whatever else is resolved meanwhile. */
  lemma {:induction false} LiveEntryIsServed(w: World, cs: seq<Call>, c: Call)
    requires Runnable(w, cs) && Enabled(After(w, cs), c) && c.admissible
    requires c.id in w.state.cache && c.looked < w.state.cache[c.id].expiresAt
    ensures AnswerTo(After(w, cs).state, c) == FromCache(w.state.cache[c.id])
    decreases |cs|
  {
    if cs == [] {
    } else {
      ClockAdvances(Next(w, cs[0]), cs[1..]);
      SameEntry(w.state, cs[0], c.id);
      LiveEntryIsServed(Next(w, cs[0]), cs[1..], c);
    }
  }

  lemma {:induction false} ClockAdvances(w: World, cs: seq<Call>)
    requires Runnable(w, cs)
    ensures w.clock <= After(w, cs).clock
    decreases |cs|
  {
    if cs == [] {
    } else {
      ClockAdvances(Next(w, cs[0]), cs[1..]);
    }
  }

  /** A fetched document answers every lookup in the next five seconds, and none after a day,
      whatever its Cache-Control header says. */
  lemma DocumentIsServedWithinBounds(w: World, fetch: Call, cs: seq<Call>, c: Call)
    requires Enabled(w, fetch) && GoesOut(w.state, fetch) && fetch.outcome.Fetches?
    requires Runnable(Next(w, fetch), cs) && Enabled(After(Next(w, fetch), cs), c) && c.admissible && c.id == fetch.id
    ensures c.looked < fetch.ended + 5 * SECOND ==>
      var a := AnswerTo(After(Next(w, fetch), cs).state, c);
      a.FromCache? && a.entry.Positive? && a.entry.doc == fetch.outcome.doc
    ensures c.looked >= fetch.ended + 24 * HOUR ==>
      AnswerTo(After(Next(w, fetch), cs).state, c) != FromCache(Next(w, fetch).state.cache[c.id])
  {
    if c.looked < fetch.ended + 5 * SECOND {
      LiveEntryIsServed(Next(w, fetch), cs, c);
    }
  }
}
