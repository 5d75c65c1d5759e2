/** Deleting from a table in bounded batches. */
module Batches {
  import opened Prelude

  /** What one unbounded DELETE would leave. */
  function Without<K, V>(table: map<K, V>, condition: V -> bool): map<K, V> {
    map k | k in table && !condition(table[k]) :: table[k]
  }

  function Matching<K, V>(table: map<K, V>, condition: V -> bool): set<K> {
    set k | k in table && condition(table[k])
  }

  /** The LIMIT of a DELETE: which of the candidates go is up to the database. */
  method PickBatch<K>(candidates: set<K>, limit: nat) returns (picked: set<K>)
    ensures picked <= candidates
    ensures |picked| == limit || (|picked| < limit && picked == candidates)
  {
    var todo := candidates;
    picked := {};
    while |picked| < limit && todo != {}
      invariant todo + picked == candidates && todo !! picked && |picked| <= limit
      decreases todo
    {
      var k :| k in todo;
      todo, picked := todo - {k}, picked + {k};
    }
  }

  lemma RemovingShrinks<K, V>(table: map<K, V>, gone: set<K>)
    requires gone <= table.Keys
    ensures |table - gone| == |table| - |gone|
  {
    assert table.Keys == (table - gone).Keys + gone;
  }

  /** Removing another batch of matching rows. */
  lemma RemovingMore<K, V>(table: map<K, V>, condition: V -> bool, gone: set<K>, picked: set<K>)
    requires gone <= Matching(table, condition) && picked <= Matching(table - gone, condition)
    ensures table - gone - picked == table - (gone + picked)
    ensures gone + picked <= Matching(table, condition)
    ensures |gone + picked| == |gone| + |picked|
    ensures |table - gone - picked| == |table - gone| - |picked|
    ensures picked == Matching(table - gone, condition) ==> gone + picked == Matching(table, condition)
  {
    assert gone !! picked;
    RemovingShrinks(table - gone, picked);
  }

  lemma RemovingAllMatching<K, V>(table: map<K, V>, condition: V -> bool)
    ensures table - Matching(table, condition) == Without(table, condition)
  {
  }

  /** Some matching rows are gone, and nothing else has changed. */
  predicate Thinned<K(!new), V(==)>(table: map<K, V>, condition: V -> bool, rest: map<K, V>) {
    && rest.Keys <= table.Keys
    && (forall k :: k in rest ==> rest[k] == table[k])
    && (forall k :: k in table && !condition(table[k]) ==> k in rest)
  }

  /** Repeats a bounded DELETE until a batch comes back short, or the database reports an error. If there is to be an
      error it comes at call number `failsAt`, or at the last call if there are fewer. Whichever rows each batch picks,
      a loop without error ends with exactly the rows one unbounded delete would leave, and in any case its total is
      exactly the number removed. */
  method DeleteInBatches<K(!new), V(==)>(table: map<K, V>, condition: V -> bool, batch: nat, failsAt: Option<nat>)
    returns (rest: map<K, V>, total: nat, ok: bool)
    requires batch >= 1
    ensures ok <==> failsAt.None?
    ensures ok ==> rest == Without(table, condition) && total == |Matching(table, condition)|
    ensures Thinned(table, condition, rest) && total == |table| - |rest|
  {
    ghost var matching, gone := Matching(table, condition), {};
    var calls, short := 0, false;
    rest, total, ok := table, 0, true;
    while !short
      invariant rest == table - gone && gone <= matching && total == |gone| && ok
      invariant short ==> gone == matching && failsAt.None?
      decreases !short, |rest|
    {
      if failsAt.Some? && (calls == failsAt.value || |Matching(rest, condition)| < batch) {
        RemovingShrinks(table, gone);
        return rest, total, false;
      }
      calls := calls + 1;
      var picked := PickBatch(Matching(rest, condition), batch);
      RemovingMore(table, condition, gone, picked);
      gone := gone + picked;
      rest := rest - picked;
      total := total + |picked|;
      short := |picked| < batch;
    }
    RemovingShrinks(table, gone);
    RemovingAllMatching(table, condition);
  }
}
