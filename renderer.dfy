/** The older `ColorModelGenerator` draft: a single wavelength Map, the key range taken from one
    copy of the keys and the sorted key array built from a second copy, and the interpolating
    query over that one Map. The table is a constructor parameter whose keys are already
    integers. */
module Renderer {
  import opened Samples
  import opened Lookup

  class ColorModelGenerator {
    var wavelengthMap: map<int, Rgb>
    var wavelengthRange: Range
    var sortedWavelengths: array<int>

    /** The key array and the range index the Map (Lookup.KeyIndex). */
    ghost predicate Valid()
      reads this, sortedWavelengths
    {
      KeyIndex(sortedWavelengths[..], wavelengthMap, wavelengthRange)
    }

    /** Builds the Map, takes the minimum and maximum of its keys, and sorts a fresh copy of the
        keys. */
    constructor (wavelengthData: seq<Entry>)
      requires |wavelengthData| > 0 && Distinct(KeysOf(wavelengthData))
      ensures Valid()
      ensures wavelengthMap == MapOf(wavelengthData)
      ensures wavelengthRange == Range(MinOf(KeysOf(wavelengthData)), MaxOf(KeysOf(wavelengthData)))
      ensures multiset(sortedWavelengths[..]) == multiset(KeysOf(wavelengthData))
      ensures fresh(sortedWavelengths)
    {
      var range, sorted := RangeAndSortedCopy(wavelengthData);
      wavelengthMap := MapOf(wavelengthData);
      wavelengthRange := range;
      sortedWavelengths := sorted;
    }

    /** The `Math.min`/`Math.max` range of one copy of the Map's keys, and
        `Array.from(this.wavelengthMap.keys()).sort((a, b) => a - b)`: a second, new array of the
        keys, sorted in place. */
    static method RangeAndSortedCopy(wavelengthData: seq<Entry>) returns (range: Range, sorted: array<int>)
      requires |wavelengthData| > 0 && Distinct(KeysOf(wavelengthData))
      ensures range == Range(MinOf(KeysOf(wavelengthData)), MaxOf(KeysOf(wavelengthData)))
      ensures fresh(sorted)
      ensures multiset(sorted[..]) == multiset(KeysOf(wavelengthData))
      ensures KeyIndex(sorted[..], MapOf(wavelengthData), range)
    {
      var wavelengths := KeysOf(wavelengthData);
      range := Range(MinOf(wavelengths), MaxOf(wavelengths));
      var keys := KeysOf(wavelengthData);
      sorted := new int[|keys|](i requires 0 <= i < |keys| => keys[i]);
      assert sorted[..] == keys;
      SortAscending(sorted);
      SortedKeys(sorted[..], wavelengthData);
      SameElementsAsMapKeys(sorted[..], wavelengthData);
    }

    /** The stored range: its ends are keys of the Map and every key lies between them. */
    function GetWavelengthRange(): (r: Range)
      requires Valid()
      reads this, sortedWavelengths
      ensures r.min in wavelengthMap && r.max in wavelengthMap
      ensures forall k :: k in wavelengthMap ==> r.min <= k <= r.max
    {
      var s := sortedWavelengths[..];
      assert forall j :: 0 <= j < |s| ==> s[0] <= s[j] <= s[|s| - 1] by {
        forall j | 0 <= j < |s| ensures s[0] <= s[j] <= s[|s| - 1] {
          if 0 < j { assert s[0] < s[j]; }
          if j < |s| - 1 { assert s[j] < s[|s| - 1]; }
        }
      }
      assert s[0] in wavelengthMap && s[|s| - 1] in wavelengthMap;
      wavelengthRange
    }

    /** `interpolateWavelength`: the `findIndex` search over the sorted keys followed by the
        clamping and blending of Lookup.FromLowerIndex; every Map lookup is of a present key. */
    method InterpolateWavelength(wavelength: real) returns (r: Rgb)
      requires Valid()
      ensures r == Interpolated(sortedWavelengths[..], wavelengthMap, wavelength)
    {
      var found := FindIndex(sortedWavelengths, wavelength);
      var lowerIndex := found - 1;
      r := FromLowerIndex(sortedWavelengths[..], wavelengthMap, wavelength, lowerIndex);
    }

    /** `wavelengthToSensitivity`: the interpolated triple as a `Vector3`, channels in the order
        r, g, b. */
    method WavelengthToSensitivity(wavelength: real) returns (v: Vector3)
      requires Valid()
      ensures var s := Interpolated(sortedWavelengths[..], wavelengthMap, wavelength);
        v.x == s.r && v.y == s.g && v.z == s.b
    {
      var sensitivity := InterpolateWavelength(wavelength);
      v := Vector3(sensitivity.r, sensitivity.g, sensitivity.b);
    }
  }
}
