/**
 * Go's `for k := range m` visits every key of a map exactly once, in an
 * order the language leaves unspecified. The adapters' map loops are
 * modelled as loops over such an order.
 */
module Iteration {

  /** The keys in `keys` are pairwise distinct. */
  predicate Distinct<K(==)>(keys: seq<K>)
  {
    forall i, j :: 0 <= i < j < |keys| ==> keys[i] != keys[j]
  }

  /** Some order of the keys of a map: each key once, nothing else. */
  method RangeOrder<K>(s: set<K>) returns (keys: seq<K>)
    ensures Distinct(keys) && |keys| == |s|
    ensures forall k :: k in s <==> k in keys
  {
    keys := [];
    var todo := s;
    while todo != {}
      invariant todo <= s && |keys| + |todo| == |s|
      invariant Distinct(keys)
      invariant forall k :: k in s ==> (k in keys <==> k !in todo)
      invariant forall k :: k in keys ==> k in s
      decreases |todo|
    {
      var k :| k in todo;
      keys := keys + [k];
      todo := todo - {k};
    }
  }
}
