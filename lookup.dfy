/** The query both generator drafts share: `findIndex((w) => w >= wavelength)` over the sorted keys,
    a step back to the lower neighbour, and linear interpolation between the two neighbouring samples. */
module Lookup {
  import opened Samples

  /** What `findIndex((w) => w >= x)` returns: the first index whose key is at least `x`, or -1. */
  function FirstAtLeast(keys: seq<int>, x: real): (i: int)
    ensures -1 <= i < |keys|
    ensures i >= 0 ==> x <= keys[i] as real && forall k :: 0 <= k < i ==> (keys[k] as real) < x
    ensures i == -1 <==> forall k :: 0 <= k < |keys| ==> (keys[k] as real) < x
  {
    if |keys| == 0 then -1
    else if keys[0] as real >= x then 0
    else
      var j := FirstAtLeast(keys[1..], x);
      assert forall k :: 1 <= k < |keys| ==> keys[1..][k - 1] == keys[k];
      if j == -1 then -1 else j + 1
  }

  /** The `findIndex` linear search over the key array. */
  method FindIndex(a: array<int>, x: real) returns (i: int)
    ensures -1 <= i < a.Length
    ensures i >= 0 ==> x <= a[i] as real && forall k :: 0 <= k < i ==> (a[k] as real) < x
    ensures i == -1 <==> forall k :: 0 <= k < a.Length ==> (a[k] as real) < x
    ensures i == FirstAtLeast(a[..], x)
  {
    var k := 0;
    while k < a.Length
      invariant 0 <= k <= a.Length
      invariant forall p :: 0 <= p < k ==> (a[p] as real) < x
    {
      if a[k] as real >= x {
        FirstAtLeastUnique(a[..], x, k);
        return k;
      }
      k := k + 1;
    }
    assert forall p :: 0 <= p < |a[..]| ==> (a[..][p] as real) < x;
    return -1;
  }

  /** The characterisation of FirstAtLeast determines its value. */
  lemma FirstAtLeastUnique(keys: seq<int>, x: real, i: int)
    requires 0 <= i < |keys| && x <= keys[i] as real
    requires forall k :: 0 <= k < i ==> (keys[k] as real) < x
    ensures FirstAtLeast(keys, x) == i
  {
  }

  /** Every key of the sorted array has a sample in the map. */
  ghost predicate Covers(keys: seq<int>, m: map<int, Rgb>) {
    forall i :: 0 <= i < |keys| ==> keys[i] in m
  }

  /** The state both generators keep: the key array is non-empty and strictly ascending, holds
      exactly the keys of the Map, and the range is its first and last element. */
  ghost predicate KeyIndex(keys: seq<int>, m: map<int, Rgb>, range: Range) {
    && |keys| > 0
    && StrictlyAscending(keys)
    && Covers(keys, m)
    && (forall k :: k in m ==> k in keys)
    && range == Range(keys[0], keys[|keys| - 1])
  }

  /** `lower + (upper - lower) * t`, channel by channel in the order r, g, b. */
  function Blend(lower: Rgb, upper: Rgb, t: real): (v: Rgb) {
    Rgb(lower.r + (upper.r - lower.r) * t,
        lower.g + (upper.g - lower.g) * t,
        lower.b + (upper.b - lower.b) * t)
  }

  /** The part of `interpolateWavelength` that follows the search, for a given `lowerIndex`:
      below 0 the first sample, at or past the last key the last sample, otherwise the blend of
      the samples at `lowerIndex` and `lowerIndex + 1`. */
  function FromLowerIndex(keys: seq<int>, m: map<int, Rgb>, x: real, lowerIndex: int): (v: Rgb)
    requires |keys| > 0 && Covers(keys, m) && StrictlyAscending(keys)
    ensures lowerIndex < 0 ==> v == m[keys[0]]
    ensures lowerIndex + 1 >= |keys| ==> v == m[keys[|keys| - 1]]
  {
    var first := m[keys[0]];
    var last := m[keys[|keys| - 1]];
    var upperIndex := lowerIndex + 1;
    if lowerIndex < 0 then first
    else if upperIndex >= |keys| then last
    else
      var lowerWavelength := keys[lowerIndex];
      var upperWavelength := keys[upperIndex];
      var t := (x - lowerWavelength as real) / (upperWavelength - lowerWavelength) as real;
      Blend(m[lowerWavelength], m[upperWavelength], t)
  }

  /** The result of `interpolateWavelength(x)` over the sorted keys and the selected map. */
  function Interpolated(keys: seq<int>, m: map<int, Rgb>, x: real): (v: Rgb)
    requires |keys| > 0 && Covers(keys, m) && StrictlyAscending(keys)
  {
    FromLowerIndex(keys, m, x, FirstAtLeast(keys, x) - 1)
  }

  /** The clamp-high branch cannot be taken: `upperIndex` is `findIndex(...)`, which is at most
      `length - 1`. */
  lemma ClampHighUnreachable(keys: seq<int>, x: real)
    ensures (FirstAtLeast(keys, x) - 1) + 1 < |keys|
  {
  }

  /** At or below the smallest key, `findIndex` yields 0 and the first sample is returned. */
  lemma AtOrBelowSmallestKey(keys: seq<int>, m: map<int, Rgb>, x: real)
    requires |keys| > 0 && Covers(keys, m) && StrictlyAscending(keys)
    requires x <= keys[0] as real
    ensures FirstAtLeast(keys, x) == 0
    ensures Interpolated(keys, m, x) == m[keys[0]]
  {
    FirstAtLeastUnique(keys, x, 0);
  }

  /** Above the largest key, `findIndex` yields -1, so `lowerIndex == -2` and the FIRST (lowest
      wavelength) sample is returned, not the last one. */
  lemma AboveLargestKey(keys: seq<int>, m: map<int, Rgb>, x: real)
    requires |keys| > 0 && Covers(keys, m) && StrictlyAscending(keys)
    requires keys[|keys| - 1] as real < x
    ensures FirstAtLeast(keys, x) == -1
    ensures Interpolated(keys, m, x) == m[keys[0]]
  {
    forall k | 0 <= k < |keys| ensures (keys[k] as real) < x {
      if k < |keys| - 1 {
        assert keys[k] < keys[|keys| - 1];
      }
    }
  }

  /** Outside the half-open interval (k_0, k_{n-1}] the query returns the first sample: the two
      boundary policies of the source coincide. */
  lemma FirstSampleOutside(keys: seq<int>, m: map<int, Rgb>, x: real)
    requires |keys| > 0 && Covers(keys, m) && StrictlyAscending(keys)
    requires x <= keys[0] as real || keys[|keys| - 1] as real < x
    ensures Interpolated(keys, m, x) == m[keys[0]]
  {
    if x <= keys[0] as real {
      AtOrBelowSmallestKey(keys, m, x);
    } else {
      AboveLargestKey(keys, m, x);
    }
  }

  /** Each channel of a blend with a fraction in [0,1] lies between the two samples. */
  lemma BlendBetween(lo: Rgb, hi: Rgb, t: real)
    requires 0.0 <= t <= 1.0
    ensures var v := Blend(lo, hi, t);
      Between(lo.r, hi.r, v.r) && Between(lo.g, hi.g, v.g) && Between(lo.b, hi.b, v.b)
  {
    LerpBetween(lo.r, hi.r, t);
    LerpBetween(lo.g, hi.g, t);
    LerpBetween(lo.b, hi.b, t);
  }

  /** The blending fraction of a query between two distinct keys lies in (0,1], and is 1 exactly
      at the upper key. */
  lemma FractionInUnitInterval(lo: int, hi: int, x: real)
    requires lo < hi && lo as real < x <= hi as real
    ensures var t := (x - lo as real) / (hi - lo) as real;
      0.0 < t <= 1.0 && (t == 1.0 <==> x == hi as real)
  {
    var d := (hi - lo) as real;
    assert 0.0 < x - lo as real <= d;
  }

  /** Strictly between two neighbouring keys k_i < x <= k_{i+1}: the search finds i+1, the result
      is the blend of the two neighbouring samples with a fraction in (0,1], every channel lies
      between the two samples, and at x == k_{i+1} the result is that sample. */
  lemma BetweenNeighbours(keys: seq<int>, m: map<int, Rgb>, x: real, i: int)
    requires |keys| > 0 && Covers(keys, m) && StrictlyAscending(keys)
    requires 0 <= i < |keys| - 1
    requires keys[i] as real < x <= keys[i + 1] as real
    ensures FirstAtLeast(keys, x) == i + 1
    ensures keys[i + 1] - keys[i] > 0
    ensures var lo, hi := m[keys[i]], m[keys[i + 1]];
      var v := Interpolated(keys, m, x);
      var t := (x - keys[i] as real) / (keys[i + 1] - keys[i]) as real;
      && 0.0 < t <= 1.0
      && v == Blend(lo, hi, t)
      && Between(lo.r, hi.r, v.r) && Between(lo.g, hi.g, v.g) && Between(lo.b, hi.b, v.b)
      && (x == keys[i + 1] as real ==> v == hi)
  {
    forall k | 0 <= k < i + 1 ensures (keys[k] as real) < x {
      if k < i {
        assert keys[k] < keys[i];
      }
    }
    FirstAtLeastUnique(keys, x, i + 1);
    var lo, hi := m[keys[i]], m[keys[i + 1]];
    var t := (x - keys[i] as real) / (keys[i + 1] - keys[i]) as real;
    assert keys[i] < keys[i + 1];
    assert Interpolated(keys, m, x) == FromLowerIndex(keys, m, x, i) == Blend(lo, hi, t);
    FractionInUnitInterval(keys[i], keys[i + 1], x);
    BlendBetween(lo, hi, t);
    if x == keys[i + 1] as real {
      assert t == 1.0;
      assert Blend(lo, hi, 1.0) == hi;
    }
  }

  /** The two-sample table {0: (0,0,0), 10: (10,10,10)} queried at 11 gives (0,0,0), the sample
      of the smallest key, and not the sample of the largest key. */
  lemma AboveTableExample()
    ensures var m := map[0 := Rgb(0.0, 0.0, 0.0), 10 := Rgb(10.0, 10.0, 10.0)];
      Interpolated([0, 10], m, 11.0) == Rgb(0.0, 0.0, 0.0)
  {
    var m := map[0 := Rgb(0.0, 0.0, 0.0), 10 := Rgb(10.0, 10.0, 10.0)];
    AboveLargestKey([0, 10], m, 11.0);
  }
}
