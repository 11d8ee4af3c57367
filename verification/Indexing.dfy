/** Two ways of indexing a list in one pass: keep the last binding of a key, or its first position. */
module Indexing {
  import opened Common

  function LastBindings<K(==), V>(bs: seq<Option<(K, V)>>): map<K, V> {
    if bs == [] then map[]
    else
      var rest, b := LastBindings(bs[..|bs| - 1]), bs[|bs| - 1];
      if b.None? then rest else rest[b.value.0 := b.value.1]
  }

  predicate Binds<K(==), V>(bs: seq<Option<(K, V)>>, i: nat, k: K) {
    i < |bs| && bs[i].Some? && bs[i].value.0 == k
  }

  /** A key is bound iff some element binds it, and then to what the last such element says. */
  lemma {:induction false} LastBindingsIsScan<K, V>(bs: seq<Option<(K, V)>>, k: K)
    ensures k in LastBindings(bs) <==> exists i: nat :: Binds(bs, i, k)
    ensures k in LastBindings(bs) ==>
              exists i: nat :: Binds(bs, i, k) && LastBindings(bs)[k] == bs[i].value.1
                               && forall j: nat | i < j :: !Binds(bs, j, k)
  {
    if bs != [] {
      var n := |bs| - 1;
      LastBindingsIsScan(bs[..n], k);
      forall i: nat ensures Binds(bs, i, k) <==> Binds(bs[..n], i, k) || (i == n && Binds(bs, n, k)) {}
      if Binds(bs, n, k) {
        assert LastBindings(bs)[k] == bs[n].value.1 && forall j: nat | n < j :: !Binds(bs, j, k);
      }
    }
  }

  predicate Holds<K(==)>(keys: seq<Option<K>>, i: nat, k: K) {
    i < |keys| && keys[i] == Some(k)
  }

  predicate Seen<K(==)>(keys: seq<Option<K>>, k: K) {
    Some(k) in keys
  }

  /** The positions at which each key occurs for the first time, in order. */
  function Firsts<K(==)>(keys: seq<Option<K>>): (r: seq<nat>)
    ensures forall i | 0 <= i < |r| :: r[i] < |keys| && keys[r[i]].Some?
    ensures forall i, j | 0 <= i < j < |r| :: r[i] < r[j]
  {
    if keys == [] then []
    else
      var n := |keys| - 1;
      if keys[n].None? || Seen(keys[..n], keys[n].value) then Firsts(keys[..n])
      else Firsts(keys[..n]) + [n]
  }

  lemma {:induction false} FirstsCover<K>(keys: seq<Option<K>>, i: nat, k: K)
    requires Holds(keys, i, k)
    ensures exists l :: 0 <= l < |Firsts(keys)| && Firsts(keys)[l] <= i && keys[Firsts(keys)[l]] == Some(k)
    decreases |keys|
  {
    var n := |keys| - 1;
    if i == n && !Seen(keys[..n], k) {
      assert Firsts(keys)[|Firsts(keys)| - 1] == n;
    } else {
      var j: nat :| j < n && j <= i && keys[..n][j] == Some(k);
      FirstsCover(keys[..n], j, k);
      var l :| 0 <= l < |Firsts(keys[..n])| && Firsts(keys[..n])[l] <= j && keys[..n][Firsts(keys[..n])[l]] == Some(k);
      assert Firsts(keys)[l] == Firsts(keys[..n])[l];
    }
  }
}
