/**
  Python's dict built from a list of (key, value) pairs, `dict(pairs)`: the pairs are
  inserted from left to right, so the last pair with a given key decides its value.
  Both the export driver (`dict(processed_params_list)`) and the YAML field update
  (assignment of each update item in turn) build dictionaries this way.
*/
module PyDicts {

  /** `dict(pairs)`: insert every pair from left to right. */
  function DictOf<K, V>(pairs: seq<(K, V)>): map<K, V>
  {
    if pairs == [] then map[]
    else DictOf(pairs[..|pairs| - 1])[pairs[|pairs| - 1].0 := pairs[|pairs| - 1].1]
  }

  /** The keys that occur anywhere in the pair list. */
  function KeysOf<K, V>(pairs: seq<(K, V)>): (ks: set<K>)
    ensures forall i :: 0 <= i < |pairs| ==> pairs[i].0 in ks
    ensures forall k :: k in ks ==> exists i :: 0 <= i < |pairs| && pairs[i].0 == k
  {
    set i | 0 <= i < |pairs| :: pairs[i].0
  }

  /** True when no later pair repeats the key of pair `i`. */
  predicate IsLastOccurrence<K(==), V>(pairs: seq<(K, V)>, i: int)
    requires 0 <= i < |pairs|
  {
    forall j :: i < j < |pairs| ==> pairs[j].0 != pairs[i].0
  }

  /** Distinct keys: what the items of a Python dict always have. */
  predicate DistinctKeys<K(==), V>(pairs: seq<(K, V)>)
  {
    forall i, j :: 0 <= i < j < |pairs| ==> pairs[i].0 != pairs[j].0
  }

  /** The dictionary has exactly the keys of the list. */
  lemma {:induction false} DictOfKeys<K, V>(pairs: seq<(K, V)>)
    ensures DictOf(pairs).Keys == KeysOf(pairs)
  {
    if pairs != [] {
      var init := pairs[..|pairs| - 1];
      DictOfKeys(init);
      assert KeysOf(pairs) == KeysOf(init) + {pairs[|pairs| - 1].0} by {
        forall k | k in KeysOf(pairs) ensures k in KeysOf(init) + {pairs[|pairs| - 1].0} {
          var i :| 0 <= i < |pairs| && pairs[i].0 == k;
          if i < |pairs| - 1 { assert init[i] == pairs[i]; }
        }
        forall k | k in KeysOf(init) ensures k in KeysOf(pairs) {
          var i :| 0 <= i < |init| && init[i].0 == k;
          assert pairs[i] == init[i];
        }
      }
    }
  }

  /** The value of every key is the value of its last occurrence in the list. */
  lemma {:induction false} DictOfLastWins<K, V>(pairs: seq<(K, V)>, i: int)
    requires 0 <= i < |pairs| && IsLastOccurrence(pairs, i)
    ensures pairs[i].0 in DictOf(pairs) && DictOf(pairs)[pairs[i].0] == pairs[i].1
  {
    if i < |pairs| - 1 {
      var init := pairs[..|pairs| - 1];
      assert init[i] == pairs[i];
      assert IsLastOccurrence(init, i) by {
        forall j | i < j < |init| ensures init[j].0 != init[i].0 {
          assert init[j] == pairs[j];
        }
      }
      DictOfLastWins(init, i);
      assert pairs[|pairs| - 1].0 != pairs[i].0;
    }
  }

  /** Every key of the dictionary has a last occurrence in the list that gives its value. */
  lemma DictOfValueSource<K, V>(pairs: seq<(K, V)>, k: K)
    requires k in DictOf(pairs)
    ensures exists i :: 0 <= i < |pairs| && pairs[i].0 == k && IsLastOccurrence(pairs, i)
                        && DictOf(pairs)[k] == pairs[i].1
  {
    DictOfKeys(pairs);
    var i :| 0 <= i < |pairs| && pairs[i].0 == k;
    while !IsLastOccurrence(pairs, i)
      invariant 0 <= i < |pairs| && pairs[i].0 == k
      decreases |pairs| - i
    {
      var j :| i < j < |pairs| && pairs[j].0 == pairs[i].0;
      i := j;
    }
    DictOfLastWins(pairs, i);
  }

  /** Duplicate keys collapse, so the dictionary is never larger than the list. */
  lemma {:induction false} DictOfSize<K, V>(pairs: seq<(K, V)>)
    ensures |DictOf(pairs)| <= |pairs|
  {
    if pairs != [] {
      DictOfSize(pairs[..|pairs| - 1]);
    }
  }

  /** With distinct keys nothing collapses. */
  lemma {:induction false} DictOfSizeDistinct<K, V>(pairs: seq<(K, V)>)
    requires DistinctKeys(pairs)
    ensures |DictOf(pairs)| == |pairs|
  {
    if pairs != [] {
      var init := pairs[..|pairs| - 1];
      assert DistinctKeys(init) by {
        forall i, j | 0 <= i < j < |init| ensures init[i].0 != init[j].0 {
          assert init[i] == pairs[i] && init[j] == pairs[j];
        }
      }
      DictOfSizeDistinct(init);
      DictOfKeys(init);
      assert pairs[|pairs| - 1].0 !in DictOf(init) by {
        forall i | 0 <= i < |init| ensures init[i].0 != pairs[|pairs| - 1].0 {
          assert init[i] == pairs[i];
        }
      }
    }
  }

  /** The dictionary is empty exactly when the list is. */
  lemma DictOfEmpty<K, V>(pairs: seq<(K, V)>)
    ensures DictOf(pairs) == map[] <==> pairs == []
  {
    if pairs != [] {
      assert pairs[|pairs| - 1].0 in DictOf(pairs);
    }
  }
}
