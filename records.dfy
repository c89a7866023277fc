/**
 * A JavaScript object used as a record from string keys to values, as
 * Object.entries lists it: each key once, in the order it was first set.
 */
module Records {
  import opened Wrappers
  import opened Seqs

  type Record<V> = seq<(string, V)>

  function Keys<V>(c: Record<V>): (r: seq<string>)
    ensures |r| == |c| && forall t :: 0 <= t < |c| ==> r[t] == c[t].0
  {
    Map(c, (e: (string, V)) => e.0)
  }

  /** `record[k]`, None for undefined. */
  function Get<V>(c: Record<V>, k: string): Option<V>
    decreases |c|
  {
    if c == [] then None else if c[0].0 == k then Some(c[0].1) else Get(c[1..], k)
  }

  /** `record[k] = v`: an existing key keeps its place, a new one goes last. */
  function Put<V>(c: Record<V>, k: string, v: V): Record<V>
    decreases |c|
  {
    if c == [] then [(k, v)]
    else if c[0].0 == k then [(k, v)] + c[1..]
    else [c[0]] + Put(c[1..], k, v)
  }

  /** Reading after a write sees the write, and only at its key. */
  lemma {:induction false} GetPut<V>(c: Record<V>, k: string, v: V, k': string)
    ensures Get(Put(c, k, v), k') == if k == k' then Some(v) else Get(c, k')
    decreases |c|
  {
    if c != [] && c[0].0 != k {
      GetPut(c[1..], k, v, k');
    }
  }

  /** A write adds its key last when it is new and keeps the key order otherwise. */
  lemma {:induction false} KeysPut<V>(c: Record<V>, k: string, v: V)
    ensures Keys(Put(c, k, v)) == if k in Keys(c) then Keys(c) else Keys(c) + [k]
    decreases |c|
  {
    if c != [] && c[0].0 != k {
      KeysPut(c[1..], k, v);
      assert Keys(c) == [c[0].0] + Keys(c[1..]);
      assert Keys(Put(c, k, v)) == [c[0].0] + Keys(Put(c[1..], k, v));
    }
  }

  /** A key is defined exactly when the record lists it. */
  lemma {:induction false} GetDefined<V>(c: Record<V>, k: string)
    ensures Get(c, k).Some? <==> k in Keys(c)
    decreases |c|
  {
    if c != [] {
      assert Keys(c) == [c[0].0] + Keys(c[1..]);
      GetDefined(c[1..], k);
    }
  }

  /** With distinct keys, each entry holds what Get finds for its key. */
  lemma {:induction false} EntryIsGet<V>(c: Record<V>, t: nat)
    requires Distinct(Keys(c)) && t < |c|
    ensures Get(c, c[t].0) == Some(c[t].1)
    decreases t
  {
    if t > 0 {
      assert Keys(c[1..]) == Keys(c)[1..];
      assert c[0].0 == Keys(c)[0] != Keys(c)[t] == c[t].0;
      EntryIsGet(c[1..], t - 1);
    }
  }

  /** An entry of a reordering of a record with distinct keys holds its key's value. */
  lemma PermutedEntryIsGet<V>(c: Record<V>, sorted: Record<V>, j: nat)
    requires Distinct(Keys(c)) && multiset(sorted) == multiset(c) && j < |sorted|
    ensures Get(c, sorted[j].0) == Some(sorted[j].1)
  {
    assert sorted[j] in multiset(c);
    var v :| 0 <= v < |c| && c[v] == sorted[j];
    EntryIsGet(c, v);
  }

  /** A key of a record appears in any reordering of it. */
  lemma PermutedKeyAt<V>(c: Record<V>, sorted: Record<V>, k: string) returns (j: nat)
    requires multiset(sorted) == multiset(c) && k in Keys(c)
    ensures j < |sorted| && sorted[j].0 == k
  {
    var u :| 0 <= u < |c| && c[u].0 == k;
    assert c[u] in multiset(sorted);
    j :| 0 <= j < |sorted| && sorted[j] == c[u];
  }

  /** A map and a key order that together hold the record `c`. */
  ghost predicate Mirrors<V>(m: map<string, V>, order: seq<string>, c: Record<V>)
  {
    && order == Keys(c)
    && (forall k :: k in m <==> k in order)
    && (forall k :: k in m ==> Get(c, k) == Some(m[k]))
  }

  /** Writing the map (adding the key last when new) mirrors Put. */
  lemma MirrorsPut<V>(m: map<string, V>, order: seq<string>, c: Record<V>, k: string, v: V)
    requires Mirrors(m, order, c)
    ensures k in m <==> Get(c, k).Some?
    ensures Mirrors(m[k := v], if k in m then order else order + [k], Put(c, k, v))
  {
    var m2, c2 := m[k := v], Put(c, k, v);
    var order2 := if k in m then order else order + [k];
    KeysPut(c, k, v);
    GetDefined(c, k);
    assert (k in m) == (k in Keys(c));
    assert order2 == Keys(c2);
    forall k' ensures k' in m2 <==> k' in order2 {
    }
    forall k' | k' in m2 ensures Get(c2, k') == Some(m2[k']) {
      GetPut(c, k, v, k');
    }
  }

  /** Object.entries of a record held as a map and its key order. */
  method EntriesOf<V>(m: map<string, V>, order: seq<string>) returns (entries: Record<V>)
    requires forall t :: 0 <= t < |order| ==> order[t] in m
    ensures |entries| == |order|
    ensures forall t :: 0 <= t < |order| ==> entries[t] == (order[t], m[order[t]])
  {
    entries := [];
    for j := 0 to |order|
      invariant |entries| == j
      invariant forall t :: 0 <= t < j ==> entries[t] == (order[t], m[order[t]])
    {
      entries := entries + [(order[j], m[order[j]])];
    }
  }

  /** The entries of a mirrored record with distinct keys are the record. */
  lemma MirroredEntries<V>(m: map<string, V>, order: seq<string>, c: Record<V>, entries: Record<V>)
    requires Mirrors(m, order, c) && Distinct(Keys(c))
    requires |entries| == |order| && forall t :: 0 <= t < |order| ==> entries[t] == (order[t], m[order[t]])
    ensures entries == c
  {
    forall t | 0 <= t < |c|
      ensures entries[t] == c[t]
    {
      EntryIsGet(c, t);
    }
  }
}
