/**
 * Lookup tables built by inserting key/value pairs one after another, as
 * `HashMap::insert` does: a later pair for the same key overwrites the
 * earlier one.
 */
module Tables {

  /** The table after inserting `pairs` into `m` in order. */
  function InsertAll<K, V>(m: map<K, V>, pairs: seq<(K, V)>): map<K, V>
  {
    if pairs == [] then m
    else
      var last := pairs[|pairs| - 1];
      InsertAll(m, pairs[..|pairs| - 1])[last.0 := last.1]
  }

  /** The keys of the pairs. */
  function KeysOf<K, V>(pairs: seq<(K, V)>): set<K>
  {
    set i | 0 <= i < |pairs| :: pairs[i].0
  }

  /** Inserting adds exactly the keys of the pairs. */
  lemma {:induction false} InsertAllKeys<K, V>(m: map<K, V>, pairs: seq<(K, V)>)
    ensures InsertAll(m, pairs).Keys == m.Keys + KeysOf(pairs)
  {
    if pairs != [] {
      var init := pairs[..|pairs| - 1];
      InsertAllKeys(m, init);
      assert KeysOf(pairs) == KeysOf(init) + {pairs[|pairs| - 1].0} by {
        forall k | k in KeysOf(pairs) ensures k in KeysOf(init) + {pairs[|pairs| - 1].0} {
          var i :| 0 <= i < |pairs| && pairs[i].0 == k;
          if i < |pairs| - 1 { assert init[i] == pairs[i]; }
        }
        forall k | k in KeysOf(init) ensures k in KeysOf(pairs) {
          var i :| 0 <= i < |init| && init[i].0 == k;
          assert pairs[i] == init[i];
        }
      }
    }
  }

  /** Last write wins: a key takes the value of its last pair. */
  lemma {:induction false} InsertAllLastWins<K, V>(m: map<K, V>, pairs: seq<(K, V)>, i: nat)
    requires i < |pairs|
    requires forall j | i < j < |pairs| :: pairs[j].0 != pairs[i].0
    ensures pairs[i].0 in InsertAll(m, pairs)
    ensures InsertAll(m, pairs)[pairs[i].0] == pairs[i].1
  {
    if i < |pairs| - 1 {
      var init := pairs[..|pairs| - 1];
      assert init[i] == pairs[i];
      InsertAllLastWins(m, init, i);
    }
  }

  /** A key no pair mentions keeps its entry, or its absence. */
  lemma {:induction false} InsertAllUntouched<K, V>(m: map<K, V>, pairs: seq<(K, V)>, k: K)
    requires forall j | 0 <= j < |pairs| :: pairs[j].0 != k
    ensures k in InsertAll(m, pairs) <==> k in m
    ensures k in m ==> InsertAll(m, pairs)[k] == m[k]
  {
    if pairs != [] {
      InsertAllUntouched(m, pairs[..|pairs| - 1], k);
    }
  }

  /**
   * `keys().cloned().collect()`: the keys of m, each once, in the map's
   * iteration order (which the model leaves unspecified).
   */
  method CollectKeys<V>(m: map<string, V>) returns (r: seq<string>)
    ensures forall k :: k in r <==> k in m
    ensures forall i, j | 0 <= i < j < |r| :: r[i] != r[j]
    ensures |r| == |m|
  {
    r := [];
    var rest := m.Keys;
    while rest != {}
      invariant rest <= m.Keys
      invariant forall k :: k in r <==> k in m.Keys - rest
      invariant forall i, j | 0 <= i < j < |r| :: r[i] != r[j]
      invariant |r| + |rest| == |m|
      decreases rest
    {
      var k :| k in rest;
      assert k !in r;
      r := r + [k];
      rest := rest - {k};
    }
  }
}
