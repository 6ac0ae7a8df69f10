/**
 The counter store shared by both variants of the engine: a map from package
 name to a per-category map of occurrence counts, where a missing package or
 a missing category reads as 0 (Go's zero value for a map lookup), and the
 sum of a map's values, which does not depend on the order the map is
 traversed in.
 */
module Counters {

  /** The count of category `c` in one package record; 0 when absent. */
  function Get<C>(r: map<C, nat>, c: C): nat
  {
    if c in r then r[c] else 0
  }

  /** The record of package `p`; the empty record when `p` is absent. */
  function Record<C>(s: map<string, map<C, nat>>, p: string): map<C, nat>
  {
    if p in s then s[p] else map[]
  }

  /** The count of category `c` for package `p`; 0 when either is absent. */
  function CountIn<C>(s: map<string, map<C, nat>>, p: string, c: C): nat
  {
    Get(Record(s, p), c)
  }

  /** The store after making sure `p` has a record (an empty one if it had none). */
  function Touch<C(!new)>(s: map<string, map<C, nat>>, p: string): (t: map<string, map<C, nat>>)
    ensures t.Keys == s.Keys + {p}
    ensures t - {p} == s - {p}
    ensures p in s ==> t == s
    ensures forall c :: CountIn(t, p, c) == CountIn(s, p, c)
  {
    if p in s then s else s[p := map[]]
  }

  /** The store after adding one occurrence of category `c` to package `p`. */
  function Bump<C(!new)>(s: map<string, map<C, nat>>, p: string, c: C): (t: map<string, map<C, nat>>)
    ensures t.Keys == s.Keys + {p}
    ensures t - {p} == s - {p}
    ensures CountIn(t, p, c) == CountIn(s, p, c) + 1
    ensures forall c' :: c' != c ==> CountIn(t, p, c') == CountIn(s, p, c')
  {
    var r := Record(s, p);
    s[p := r[c := Get(r, c) + 1]]
  }

  /** Replacing an empty record by a fresh one does not change what `Bump` yields. */
  lemma BumpEmpty<C(!new)>(s: map<string, map<C, nat>>, p: string, c: C)
    requires Record(s, p) == map[]
    ensures Bump(s[p := map[]], p, c) == Bump(s, p, c)
  {
    var r: map<C, nat> := map[c := 1];
    assert Bump(s, p, c) == s[p := r];
  }

  /** `Bump` when `hit` holds, the unchanged store otherwise. */
  function BumpIf<C(!new)>(s: map<string, map<C, nat>>, p: string, c: C, hit: bool): (t: map<string, map<C, nat>>)
    ensures t.Keys == if hit then s.Keys + {p} else s.Keys
    ensures t - {p} == s - {p}
    ensures CountIn(t, p, c) == CountIn(s, p, c) + (if hit then 1 else 0)
    ensures forall c' :: c' != c ==> CountIn(t, p, c') == CountIn(s, p, c')
  {
    if hit then Bump(s, p, c) else s
  }

  /** The sum of the values of `m`, taken in an arbitrary order. */
  ghost function SumValues<K>(m: map<K, nat>): nat
    decreases |m|
  {
    if m == map[] then 0
    else
      var k :| k in m;
      assert |m - {k}| < |m| by { assert (m - {k}).Keys == m.Keys - {k}; }
      m[k] + SumValues(m - {k})
  }

  /** Any key may be taken first: the sum does not depend on the order. */
  lemma {:induction false} SumValuesRemove<K>(m: map<K, nat>, k: K)
    requires k in m
    ensures SumValues(m) == m[k] + SumValues(m - {k})
    decreases |m|
  {
    var j :| j in m && SumValues(m) == m[j] + SumValues(m - {j});
    if j != k {
      assert (m - {j}).Keys == m.Keys - {j};
      assert (m - {k}).Keys == m.Keys - {k};
      SumValuesRemove(m - {j}, k);
      SumValuesRemove(m - {k}, j);
      assert m - {j} - {k} == m - {k} - {j};
    }
  }

  /** Adding one occurrence to a record raises the sum of its values by one. */
  lemma SumValuesBump<K>(m: map<K, nat>, k: K)
    ensures SumValues(m[k := Get(m, k) + 1]) == SumValues(m) + 1
  {
    var m' := m[k := Get(m, k) + 1];
    SumValuesRemove(m', k);
    assert m' - {k} == m - {k};
    if k in m {
      SumValuesRemove(m, k);
    } else {
      assert m - {k} == m;
    }
  }

  /** Adding one occurrence to `p` raises `p`'s total by one and no other package's total. */
  lemma BumpTotal<C(!new)>(s: map<string, map<C, nat>>, p: string, c: C, q: string)
    ensures SumValues(Record(Bump(s, p, c), q)) == SumValues(Record(s, q)) + (if q == p then 1 else 0)
  {
    if q == p {
      SumValuesBump(Record(s, p), c);
    } else {
      assert q in Bump(s, p, c) <==> q in s;
      if q in s {
        assert Bump(s, p, c)[q] == (Bump(s, p, c) - {p})[q];
      }
    }
  }
}
