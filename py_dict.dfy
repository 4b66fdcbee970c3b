/**
 * Building a Python `dict` from two parallel lists.
 */
module PyDict {

  /** No key occurs twice. */
  predicate Distinct<K(==)>(keys: seq<K>) {
    forall i, j :: 0 <= i < j < |keys| ==> keys[i] != keys[j]
  }

  /** `dict(zip(keys, values))`: pairs up the common prefix of the two lists; a repeated key keeps its last value. */
  function ZipMap<K, V>(keys: seq<K>, values: seq<V>): (m: map<K, V>)
    ensures forall k :: k in m ==> k in keys
    ensures forall i :: 0 <= i < |keys| && i < |values| ==> keys[i] in m
    decreases |keys|
  {
    if keys == [] || values == [] then map[]
    else
      var n := if |keys| < |values| then |keys| else |values|;
      var ks, vs := keys[..n - 1], values[..n - 1];
      assert forall i :: 0 <= i < n - 1 ==> ks[i] == keys[i];
      ZipMap(ks, vs)[keys[n - 1] := values[n - 1]]
  }

  /** With distinct keys, every key of the common prefix maps to the value at its own position. */
  lemma {:induction false} ZipMapValues<K, V>(keys: seq<K>, values: seq<V>)
    requires Distinct(keys)
    ensures forall i :: 0 <= i < |keys| && i < |values| ==> ZipMap(keys, values)[keys[i]] == values[i]
    decreases |keys|
  {
    if keys != [] && values != [] {
      var n := if |keys| < |values| then |keys| else |values|;
      var ks, vs := keys[..n - 1], values[..n - 1];
      assert forall i :: 0 <= i < n - 1 ==> ks[i] == keys[i] && vs[i] == values[i];
      ZipMapValues(ks, vs);
    }
  }
}
