/** Shared values of the wavelength tables: sampled (r,g,b) responses, the triple handed to the
    view layer, the key range, and the construction steps both generators perform on the table
    (building a Map from entries, Math.min/Math.max over the keys, sorting the key array). */
module Samples {

  /** The `{ r, g, b }` record stored per wavelength. */
  datatype Rgb = Rgb(r: real, g: real, b: real)

  /** Stands for three.js `Vector3`: a plain triple. */
  datatype Vector3 = Vector3(x: real, y: real, z: real)

  /** `{ min, max }` of the wavelength keys. */
  datatype Range = Range(min: int, max: int)

  /** One `[key, value]` pair of the data table, keys already parsed to integers. */
  datatype Entry = Entry(key: int, value: Rgb)

  function KeysOf(es: seq<Entry>): (ks: seq<int>)
    ensures |ks| == |es|
    ensures forall i :: 0 <= i < |es| ==> ks[i] == es[i].key
  {
    if es == [] then [] else KeysOf(es[..|es| - 1]) + [es[|es| - 1].key]
  }

  ghost predicate Distinct(s: seq<int>) {
    forall i, j :: 0 <= i < j < |s| ==> s[i] != s[j]
  }

  ghost predicate Sorted(s: seq<int>) {
    forall i, j :: 0 <= i < j < |s| ==> s[i] <= s[j]
  }

  ghost predicate StrictlyAscending(s: seq<int>) {
    forall i, j :: 0 <= i < j < |s| ==> s[i] < s[j]
  }

  /** `new Map(entries)`: entries are inserted in order, a later entry overwriting an earlier
      one with the same key. */
  function MapOf(es: seq<Entry>): (m: map<int, Rgb>) {
    if es == [] then map[]
    else MapOf(es[..|es| - 1])[es[|es| - 1].key := es[|es| - 1].value]
  }

  /** The keys of the built map are exactly the keys of the entries. */
  lemma {:induction false} MapOfKeys(es: seq<Entry>)
    ensures forall k :: k in MapOf(es) <==> k in KeysOf(es)
  {
    if es != [] {
      var init := es[..|es| - 1];
      MapOfKeys(init);
      assert KeysOf(es) == KeysOf(init) + [es[|es| - 1].key];
    }
  }

  /** An entry with no later entry of the same key gives the key's value in the built map. */
  lemma {:induction false} MapOfLastWins(es: seq<Entry>, i: int)
    requires 0 <= i < |es|
    requires forall j :: i < j < |es| ==> es[j].key != es[i].key
    ensures es[i].key in MapOf(es) && MapOf(es)[es[i].key] == es[i].value
  {
    if i < |es| - 1 {
      var init := es[..|es| - 1];
      assert init[i] == es[i];
      assert forall j :: i < j < |init| ==> init[j] == es[j];
      MapOfLastWins(init, i);
    }
  }

  /** `Math.min(...s)` for a non-empty array. */
  function MinOf(s: seq<int>): (m: int)
    requires |s| > 0
    ensures m in s
    ensures forall i :: 0 <= i < |s| ==> m <= s[i]
  {
    if |s| == 1 then s[0]
    else
      var rest := MinOf(s[1..]);
      assert forall i :: 1 <= i < |s| ==> s[1..][i - 1] == s[i];
      if s[0] <= rest then s[0] else rest
  }

  /** `Math.max(...s)` for a non-empty array. */
  function MaxOf(s: seq<int>): (m: int)
    requires |s| > 0
    ensures m in s
    ensures forall i :: 0 <= i < |s| ==> s[i] <= m
  {
    if |s| == 1 then s[0]
    else
      var rest := MaxOf(s[1..]);
      assert forall i :: 1 <= i < |s| ==> s[1..][i - 1] == s[i];
      if s[0] >= rest then s[0] else rest
  }

  /** Exchanges two elements of the key array. */
  method Swap(a: array<int>, i: int, j: int)
    requires 0 <= i < a.Length && 0 <= j < a.Length
    modifies a
    ensures a[i] == old(a[j]) && a[j] == old(a[i])
    ensures forall k :: 0 <= k < a.Length && k != i && k != j ==> a[k] == old(a[k])
    ensures multiset(a[..]) == multiset(old(a[..]))
  {
    a[i], a[j] := a[j], a[i];
  }

  /** `keys.sort((a, b) => a - b)`: sorts the array in place into ascending numeric order. */
  method SortAscending(a: array<int>)
    modifies a
    ensures Sorted(a[..])
    ensures multiset(a[..]) == multiset(old(a[..]))
  {
    var i := 0;
    while i < a.Length
      invariant 0 <= i <= a.Length
      invariant forall p, q :: 0 <= p < q < i ==> a[p] <= a[q]
      invariant multiset(a[..]) == multiset(old(a[..]))
    {
      var j := i;
      while j > 0 && a[j - 1] > a[j]
        invariant 0 <= j <= i
        invariant forall p, q :: 0 <= p < q <= i && q != j ==> a[p] <= a[q]
        invariant multiset(a[..]) == multiset(old(a[..]))
      {
        Swap(a, j - 1, j);
        j := j - 1;
      }
      i := i + 1;
    }
  }

  lemma {:induction false} DistinctCountsAtMostOne(t: seq<int>, v: int)
    requires Distinct(t)
    ensures multiset(t)[v] <= 1
  {
    if |t| > 0 {
      var rest := t[1..];
      assert t == [t[0]] + rest;
      assert forall i, j :: 0 <= i < j < |rest| ==> rest[i] == t[i + 1] && rest[j] == t[j + 1];
      DistinctCountsAtMostOne(rest, v);
      if t[0] == v {
        assert forall i :: 0 <= i < |rest| ==> rest[i] != v;
        assert v !in rest;
      }
    }
  }

  lemma RepeatCountsTwice(s: seq<int>, i: int, j: int)
    requires 0 <= i < j < |s| && s[i] == s[j]
    ensures multiset(s)[s[i]] >= 2
  {
    assert s == s[..j] + s[j..];
    assert s[..j][i] == s[i];
    assert s[j..][0] == s[j];
    assert s[i] in multiset(s[..j]);
    assert s[i] in multiset(s[j..]);
  }

  /** A sorted rearrangement of distinct keys is strictly ascending. */
  lemma SortedPermutationOfDistinct(s: seq<int>, t: seq<int>)
    requires Distinct(t) && multiset(s) == multiset(t) && Sorted(s)
    ensures StrictlyAscending(s)
  {
    forall i, j | 0 <= i < j < |s| ensures s[i] < s[j] {
      if s[i] == s[j] {
        RepeatCountsTwice(s, i, j);
        DistinctCountsAtMostOne(t, s[i]);
        assert false;
      }
    }
  }

  /** After sorting, the first and last elements are the minimum and maximum of the keys. */
  lemma SortedEnds(s: seq<int>, t: seq<int>)
    requires |t| > 0 && multiset(s) == multiset(t) && Sorted(s)
    ensures |s| == |t|
    ensures s[0] == MinOf(t) && s[|s| - 1] == MaxOf(t)
  {
    assert |s| == |multiset(s)| == |multiset(t)| == |t|;
    var lo, hi := MinOf(t), MaxOf(t);
    assert lo in multiset(s) && hi in multiset(s);
    assert s[0] in multiset(t) && s[|s| - 1] in multiset(t);
    var i :| 0 <= i < |s| && s[i] == lo;
    var j :| 0 <= j < |s| && s[j] == hi;
    var p :| 0 <= p < |t| && t[p] == s[0];
    var q :| 0 <= q < |t| && t[q] == s[|s| - 1];
    assert s[0] <= s[i] && s[j] <= s[|s| - 1];
  }

  /** `v` lies between `a` and `b`, in either order. */
  ghost predicate Between(a: real, b: real, v: real) {
    (a <= v <= b) || (b <= v <= a)
  }

  lemma ScaleDown(u: real, t: real)
    requires 0.0 <= u && 0.0 <= t <= 1.0
    ensures 0.0 <= u * t <= u
  {
  }

  lemma ScaleDownNegative(u: real, t: real)
    requires u <= 0.0 && 0.0 <= t <= 1.0
    ensures u <= u * t <= 0.0
  {
  }

  lemma LerpBetweenOffset(a: real, d: real, t: real, v: real)
    requires 0.0 <= t <= 1.0 && v == a + d * t
    ensures Between(a, a + d, v)
  {
    if d >= 0.0 {
      ScaleDown(d, t);
    } else {
      ScaleDownNegative(d, t);
    }
  }

  /** A linear blend with a fraction in [0,1] lies between its two end points. */
  lemma LerpBetween(a: real, b: real, t: real)
    requires 0.0 <= t <= 1.0
    ensures Between(a, b, a + (b - a) * t)
  {
    LerpBetweenOffset(a, b - a, t, a + (b - a) * t);
    assert a + (b - a) == b;
  }

  /** A sorted rearrangement of the distinct keys of a non-empty table is strictly ascending,
      starts at the minimum key and ends at the maximum key. */
  lemma SortedKeys(sorted: seq<int>, es: seq<Entry>)
    requires |es| > 0 && Distinct(KeysOf(es))
    requires Sorted(sorted) && multiset(sorted) == multiset(KeysOf(es))
    ensures StrictlyAscending(sorted)
    ensures |sorted| == |es|
    ensures sorted[0] == MinOf(KeysOf(es)) && sorted[|sorted| - 1] == MaxOf(KeysOf(es))
  {
    var keys := KeysOf(es);
    SortedPermutationOfDistinct(sorted, keys);
    SortedEnds(sorted, keys);
  }

  /** A rearrangement of a table's keys holds exactly the keys of the table's Map. */
  lemma SameElementsAsMapKeys(sorted: seq<int>, es: seq<Entry>)
    requires multiset(sorted) == multiset(KeysOf(es))
    ensures forall i :: 0 <= i < |sorted| ==> sorted[i] in MapOf(es)
    ensures forall k :: k in MapOf(es) ==> k in sorted
  {
    var keys := KeysOf(es);
    MapOfKeys(es);
    forall i | 0 <= i < |sorted| ensures sorted[i] in MapOf(es) {
      assert sorted[i] in multiset(keys);
    }
    forall k | k in MapOf(es) ensures k in sorted {
      assert k in multiset(keys);
      assert k in multiset(sorted);
    }
  }
}
