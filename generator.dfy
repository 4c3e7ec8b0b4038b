/** `ColorModelGenerator` of the current generator: the wavelength table and the cone table as
    Maps, the sorted key array with the key range, the interpolating query over either table, and
    the hand-off to `RgbCalculator.calc`. The two tables are constructor parameters; their keys are
    already integers. */
module Generator {
  import opened Samples
  import opened Lookup
  import RgbCalculator

  class ColorModelGenerator {
    var originalWavelengthMap: map<int, Rgb>
    var wavelengthRange: Range
    var sortedWavelengths: array<int>
    var coneWaveData: map<int, Rgb>

    /** The key array and the range index the wavelength Map (Lookup.KeyIndex). */
    ghost predicate Valid()
      reads this, sortedWavelengths
    {
      KeyIndex(sortedWavelengths[..], originalWavelengthMap, wavelengthRange)
    }

    /** Builds both Maps, takes the key array of the wavelength map, records its minimum and
        maximum and then sorts that same array in place. */
    constructor (wavelengthData: seq<Entry>, coneData: seq<Entry>)
      requires |wavelengthData| > 0 && Distinct(KeysOf(wavelengthData))
      ensures Valid()
      ensures originalWavelengthMap == MapOf(wavelengthData)
      ensures coneWaveData == MapOf(coneData)
      ensures wavelengthRange == Range(MinOf(KeysOf(wavelengthData)), MaxOf(KeysOf(wavelengthData)))
      ensures multiset(sortedWavelengths[..]) == multiset(KeysOf(wavelengthData))
      ensures fresh(sortedWavelengths)
    {
      originalWavelengthMap := MapOf(wavelengthData);
      coneWaveData := ParseConeData(coneData);
      var wavelengths, range := RangeAndSortedKeys(wavelengthData);
      wavelengthRange := range;
      sortedWavelengths := wavelengths;
    }

    /** The key array of the wavelength Map, its `Math.min`/`Math.max` range taken before the
        sort, and the same array sorted in place afterwards. */
    static method RangeAndSortedKeys(wavelengthData: seq<Entry>) returns (wavelengths: array<int>, range: Range)
      requires |wavelengthData| > 0 && Distinct(KeysOf(wavelengthData))
      ensures fresh(wavelengths)
      ensures range == Range(MinOf(KeysOf(wavelengthData)), MaxOf(KeysOf(wavelengthData)))
      ensures multiset(wavelengths[..]) == multiset(KeysOf(wavelengthData))
      ensures KeyIndex(wavelengths[..], MapOf(wavelengthData), range)
    {
      var keys := KeysOf(wavelengthData);
      wavelengths := new int[|keys|](i requires 0 <= i < |keys| => keys[i]);
      assert wavelengths[..] == keys;
      range := Range(MinOf(wavelengths[..]), MaxOf(wavelengths[..]));
      SortAscending(wavelengths);
      SortedKeys(wavelengths[..], wavelengthData);
      SameElementsAsMapKeys(wavelengths[..], wavelengthData);
    }

    /** `parseConeData`: the cone Map built from its records, a later record of the same key
        overwriting an earlier one. */
    static function ParseConeData(coneData: seq<Entry>): (m: map<int, Rgb>)
      ensures forall k :: k in m <==> k in KeysOf(coneData)
      ensures forall i :: 0 <= i < |coneData| && (forall j :: i < j < |coneData| ==> coneData[j].key != coneData[i].key)
                ==> m[coneData[i].key] == coneData[i].value
    {
      MapOfKeys(coneData);
      forall i | 0 <= i < |coneData| && (forall j :: i < j < |coneData| ==> coneData[j].key != coneData[i].key)
        ensures coneData[i].key in MapOf(coneData) && MapOf(coneData)[coneData[i].key] == coneData[i].value
      {
        MapOfLastWins(coneData, i);
      }
      MapOf(coneData)
    }

    /** The stored range: its ends are keys of the table and every key lies between them. */
    function GetWavelengthRange(): (r: Range)
      requires Valid()
      reads this, sortedWavelengths
      ensures r.min in originalWavelengthMap && r.max in originalWavelengthMap
      ensures forall k :: k in originalWavelengthMap ==> r.min <= k <= r.max
    {
      var s := sortedWavelengths[..];
      assert forall j :: 0 <= j < |s| ==> s[0] <= s[j] <= s[|s| - 1] by {
        forall j | 0 <= j < |s| ensures s[0] <= s[j] <= s[|s| - 1] {
          if 0 < j { assert s[0] < s[j]; }
          if j < |s| - 1 { assert s[j] < s[|s| - 1]; }
        }
      }
      assert s[0] in originalWavelengthMap && s[|s| - 1] in originalWavelengthMap;
      wavelengthRange
    }

    /** Every key of the wavelength map is also a key of the cone map. */
    ghost predicate ConeCovers()
      reads this
    {
      forall k :: k in originalWavelengthMap ==> k in coneWaveData
    }

    /** `useNormalized ? this.coneWaveData : this.originalWavelengthMap`. */
    function SelectedMap(useNormalized: bool): (m: map<int, Rgb>)
      reads this
    {
      if useNormalized then coneWaveData else originalWavelengthMap
    }

    /** `interpolateWavelength`: the `findIndex` search over the sorted keys followed by the
        clamping and blending of Lookup.FromLowerIndex. Outside (k_0, k_{n-1}] it returns the
        first sample of the selected map. */
    method InterpolateWavelength(wavelength: real, useNormalized: bool) returns (r: Rgb)
      requires Valid()
      requires useNormalized ==> ConeCovers()
      ensures Covers(sortedWavelengths[..], SelectedMap(useNormalized))
      ensures r == Interpolated(sortedWavelengths[..], SelectedMap(useNormalized), wavelength)
    {
      var wMap := if useNormalized then coneWaveData else originalWavelengthMap;
      var found := FindIndex(sortedWavelengths, wavelength);
      var lowerIndex := found - 1;
      r := FromLowerIndex(sortedWavelengths[..], wMap, wavelength, lowerIndex);
    }

    /** `wavelengthToSensitivity`: the interpolated triple as a `Vector3`, channels in the order
        r, g, b. */
    method WavelengthToSensitivity(wavelength: real, useNormalized: bool) returns (v: Vector3)
      requires Valid()
      requires useNormalized ==> ConeCovers()
      ensures Covers(sortedWavelengths[..], SelectedMap(useNormalized))
      ensures var s := Interpolated(sortedWavelengths[..], SelectedMap(useNormalized), wavelength);
        v.x == s.r && v.y == s.g && v.z == s.b
    {
      var sensitivity := InterpolateWavelength(wavelength, useNormalized);
      v := Vector3(sensitivity.r, sensitivity.g, sensitivity.b);
    }

    /** `wavelengthToRGB`: `RgbCalculator.calc` of the wavelength. */
    method WavelengthToRgb(wavelength: real, pow: (real, real) -> real) returns (v: Vector3)
      ensures v == RgbCalculator.Color(wavelength, pow)
      ensures RgbCalculator.InUnitCube(v)
    {
      v := RgbCalculator.Calc(wavelength, pow);
    }
  }
}
