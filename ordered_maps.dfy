/**
 * A Python `dict` as its list of entries in insertion order. Assigning to a
 * key already present replaces the value and keeps the key's position;
 * assigning to a new key appends it.
 */
module OrderedMaps {
  import opened Wrappers

  /** Keys are strings: provider names in this program. */
  type Entries<V> = seq<(string, V)>

  function Keys<V>(m: Entries<V>): (ks: seq<string>)
    ensures |ks| == |m|
    ensures forall i :: 0 <= i < |m| ==> ks[i] == m[i].0
  {
    if m == [] then [] else [m[0].0] + Keys(m[1..])
  }

  /** The dictionary invariant: no key occurs twice. */
  predicate DistinctKeys<V>(m: Entries<V>)
  {
    forall i, j :: 0 <= i < j < |m| ==> m[i].0 != m[j].0
  }

  /** `d.get(k)` */
  function Get<V>(m: Entries<V>, k: string): (r: Option<V>)
    ensures r.Some? <==> k in Keys(m)
    ensures r.Some? ==> (k, r.value) in m
  {
    if m == [] then None
    else if m[0].0 == k then Some(m[0].1)
    else Get(m[1..], k)
  }

  /** `d[k] = v`; its properties are the lemmas below. */
  function Put<V>(m: Entries<V>, k: string, v: V): Entries<V>
  {
    if m == [] then [(k, v)]
    else if m[0].0 == k then [(k, v)] + m[1..]
    else [m[0]] + Put(m[1..], k, v)
  }

  /** After `d[k] = v`, `d.get(k)` is `v` and every other key reads as before. */
  lemma {:induction false} PutGet<V>(m: Entries<V>, k: string, v: V, k': string)
    ensures Get(Put(m, k, v), k') == if k' == k then Some(v) else Get(m, k')
  {
    if m != [] && m[0].0 != k {
      PutGet(m[1..], k, v, k');
      assert Put(m, k, v)[1..] == Put(m[1..], k, v);
    }
  }

  /** `d[k] = v` keeps the key order, appending `k` only when it is new. */
  lemma {:induction false} PutKeys<V>(m: Entries<V>, k: string, v: V)
    ensures Keys(Put(m, k, v)) == if k in Keys(m) then Keys(m) else Keys(m) + [k]
  {
    if m == [] {
    } else if m[0].0 == k {
      assert Keys(m)[0] == k;
    } else {
      PutKeys(m[1..], k, v);
      assert Put(m, k, v) == [m[0]] + Put(m[1..], k, v);
      assert k in Keys(m) <==> k in Keys(m[1..]);
    }
  }

  /** `d[k] = v` keeps the dictionary invariant. */
  lemma {:induction false} PutDistinct<V>(m: Entries<V>, k: string, v: V)
    requires DistinctKeys(m)
    ensures DistinctKeys(Put(m, k, v))
  {
    var r := Put(m, k, v);
    PutKeys(m, k, v);
    var ks := Keys(r);
    if k in Keys(m) {
      assert forall i, j :: 0 <= i < j < |r| ==> r[i].0 == ks[i] && r[j].0 == ks[j];
    } else {
      forall i, j | 0 <= i < j < |r| ensures r[i].0 != r[j].0 {
        assert r[i].0 == ks[i] && r[j].0 == ks[j];
        if j == |m| {
          assert ks[i] == Keys(m)[i];
        }
      }
    }
  }

  /** Assigning a new key appends its entry. */
  lemma {:induction false} PutNew<V>(m: Entries<V>, k: string, v: V)
    requires k !in Keys(m)
    ensures Put(m, k, v) == m + [(k, v)]
  {
    if m != [] {
      assert k !in Keys(m[1..]);
      PutNew(m[1..], k, v);
      assert m == [m[0]] + m[1..];
    }
  }
}
