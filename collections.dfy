/** The snapshot loop shared by every GetAll: range over a Go map and append
    each value to a fresh slice. Go's map iteration order is unspecified, so the
    loop picks an arbitrary remaining key at each step. */
module Collections {

  /** Collects the values of `m` into a sequence, one element per key.
      The ghost `keys` records which key each element was read from. */
  method CollectValues<K, V>(m: map<K, V>) returns (values: seq<V>, ghost keys: seq<K>)
    ensures |values| == |keys| == |m|
    ensures forall i :: 0 <= i < |keys| ==> keys[i] in m && values[i] == m[keys[i]]
    ensures forall i, j :: 0 <= i < j < |keys| ==> keys[i] != keys[j]
    ensures forall k :: k in m ==> k in keys
  {
    var remaining := m.Keys;
    values, keys := [], [];
    while remaining != {}
      invariant remaining <= m.Keys
      invariant |values| == |keys|
      invariant |keys| + |remaining| == |m|
      invariant forall i :: 0 <= i < |keys| ==> keys[i] in m && keys[i] !in remaining && values[i] == m[keys[i]]
      invariant forall i, j :: 0 <= i < j < |keys| ==> keys[i] != keys[j]
      invariant forall k :: k in m ==> k in keys || k in remaining
      decreases remaining
    {
      var k :| k in remaining;
      values, keys := values + [m[k]], keys + [k];
      remaining := remaining - {k};
    }
  }
}
