/**
 * Lists of keys without repeats, used to count the entries of the constant
 * tables.
 */
module KeyLists {
  /** No element appears twice in the list. */
  ghost predicate Distinct<T>(keys: seq<T>) {
    forall a, b :: 0 <= a < b < |keys| ==> keys[a] != keys[b]
  }

  /** A list without repeats has as many elements as the set of its
      elements. */
  lemma {:induction false} DistinctKeysCount<T>(keys: seq<T>)
    requires Distinct(keys)
    ensures |set k | k in keys| == |keys|
  {
    if keys != [] {
      var rest := keys[1..];
      DistinctKeysCount(rest);
      assert (set k | k in keys) == {keys[0]} + (set k | k in rest);
      assert keys[0] !in (set k | k in rest);
    }
  }
}
