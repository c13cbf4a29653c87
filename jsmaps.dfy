/** A JavaScript `Map` with string keys as an association list with distinct keys, kept in insertion order
    (the order in which `for (const [k, v] of m)` visits it). `set` on a present key
    replaces its value in place; on a new key it appends. */
module JsMaps {
  import opened Options

  type JsMap<V> = seq<(string, V)>

  function Keys<V>(m: JsMap<V>): (r: seq<string>)
    ensures |r| == |m|
    ensures forall i :: 0 <= i < |m| ==> r[i] == m[i].0
  {
    seq(|m|, i requires 0 <= i < |m| => m[i].0)
  }

  predicate DistinctKeys<V>(m: JsMap<V>)
  {
    forall i, j :: 0 <= i < j < |m| ==> m[i].0 != m[j].0
  }

  /** `m.get(k)`. */
  function Get<V>(m: JsMap<V>, k: string): (r: Option<V>)
  {
    if m == [] then None
    else if m[0].0 == k then Some(m[0].1)
    else Get(m[1..], k)
  }

  /** `get` finds a key exactly when some entry carries it, and returns that entry's value. */
  lemma {:induction false} GetSome<V>(m: JsMap<V>, k: string)
    ensures Get(m, k).Some? <==> exists i :: 0 <= i < |m| && m[i].0 == k
    ensures Get(m, k).Some? ==> exists i :: 0 <= i < |m| && m[i] == (k, Get(m, k).value)
  {
    if m != [] && m[0].0 != k {
      GetSome(m[1..], k);
      if Get(m, k).Some? {
        var i :| 0 <= i < |m[1..]| && m[1..][i] == (k, Get(m, k).value);
        assert m[i + 1] == (k, Get(m, k).value);
      }
      if exists i :: 0 <= i < |m| && m[i].0 == k {
        var i :| 0 <= i < |m| && m[i].0 == k;
        assert m[1..][i - 1].0 == k;
      }
    }
  }

  /** With distinct keys a key's entry is the one `get` finds. */
  lemma {:induction false} GetAt<V>(m: JsMap<V>, i: nat)
    requires DistinctKeys(m) && i < |m|
    ensures Get(m, m[i].0) == Some(m[i].1)
  {
    if i > 0 {
      GetAt(m[1..], i - 1);
    }
  }

  /** `m.get(k) || d` for a map whose values are never falsy. */
  function GetOr<V>(m: JsMap<V>, k: string, d: V): V
  {
    Get(m, k).GetOr(d)
  }

  /** `m.set(k, v)`. */
  function Set<V>(m: JsMap<V>, k: string, v: V): (r: JsMap<V>)
    ensures Get(r, k) == Some(v)
    ensures forall k' :: k' != k ==> Get(r, k') == Get(m, k')
  {
    if m == [] then [(k, v)]
    else if m[0].0 == k then [(k, v)] + m[1..]
    else
      var rest := Set(m[1..], k, v);
      assert forall i :: 1 <= i < |m| ==> m[i] == m[1..][i - 1];
      [m[0]] + rest
  }

  /** `set` keeps the key order and appends a key it has not seen. */
  lemma {:induction false} SetKeys<V>(m: JsMap<V>, k: string, v: V)
    ensures Keys(Set(m, k, v)) == if Get(m, k).Some? then Keys(m) else Keys(m) + [k]
  {
    if m != [] && m[0].0 != k {
      SetKeys(m[1..], k, v);
      assert Keys(m) == [m[0].0] + Keys(m[1..]);
      assert Keys(Set(m, k, v)) == [m[0].0] + Keys(Set(m[1..], k, v));
    }
  }

  /** `set` never introduces a second entry for a key. */
  lemma SetDistinct<V>(m: JsMap<V>, k: string, v: V)
    requires DistinctKeys(m)
    ensures DistinctKeys(Set(m, k, v))
  {
    var r := Set(m, k, v);
    SetKeys(m, k, v);
    GetSome(m, k);
    var ks, rs := Keys(m), Keys(r);
    assert forall i, j :: 0 <= i < j < |ks| ==> ks[i] != ks[j];
    if Get(m, k).None? {
      assert forall i :: 0 <= i < |ks| ==> ks[i] != k;
      assert rs == ks + [k];
    }
    assert forall i, j :: 0 <= i < j < |rs| ==> rs[i] != rs[j];
  }
}
