# Wavelength colour models of color_theory, in Dafny

This project models the three colour utilities of the color_theory viewer:

- `ColorModelGenerator` (`src/utils/color_model_genrator.ts`). It keeps two wavelength tables, the
  original (r,g,b) samples and the cone data, as Maps keyed by integer wavelength. It holds the
  keys as an array sorted in place, with their minimum and maximum. A query finds the first key
  `>= x` with `findIndex`, steps back one index, and blends the two neighbouring samples linearly.
- `RgbCalculator` (the same file). It converts a wavelength in nm to an sRGB triple with the
  CIE 1964 10° standard observer tables (sampled every 5 nm from 380 to 780 nm), the sRGB D65
  matrix, the sRGB transfer function and a final clip to [0,1]. Outside [380,780] the result
  is black.
- The older `ColorModelGenerator` draft (`src/utils/colormodelrenderer.ts`). It has one Map, the
  range taken from one copy of the keys, and a second copy that is sorted.
- `ColorSensitivity` (`src/utils/ColorSensitivity.ts`). It has a per-channel wavelength domain,
  the value range [0,1] and a half-period sine per channel.

Modules:

- `Samples` holds the shared values and the construction steps of the tables. These are
  `new Map(entries)`, `Math.min`/`Math.max` over the keys, and the in-place numeric sort.
- `Lookup` holds the query both generators share: the `findIndex` loop, the clamping and
  blending after it, and the lemmas about the result.
- `RgbCalculator` is `calc`. `Generator` and `Renderer` are the two generator classes.
  `Sensitivity` is `ColorSensitivity`.

Everything is over `real`. `Math.pow` and `Math.sin` are function parameters (`pow`, `sin`), and
no proved property depends on their values. `Math.PI` is the decimal 3.141592653589793.

The boundary behaviour of the generators' query is modelled as the code has it:

- At or below the smallest key, the query takes the first sample.
- Above the largest key, `findIndex` yields -1, so `lowerIndex` is -2. The query then returns the
  first (lowest-wavelength) sample too, not the last one. `Lookup.AboveTableExample` shows this
  on a two-sample table.
- The "clamp-high" branch (`upperIndex >= length`) can never be taken.

The branch at src/utils/color_model_genrator.ts:59-60 (and src/utils/colormodelrenderer.ts:35-36)
reads as a clamp to the last sample; the search never lets it run, and the model follows the
code.

## Model

| member | source | states |
|---|---|---|
| Samples.KeysOf | src/utils/color_model_genrator.ts:19 | the key array of the table lists the entries' keys, position by position |
| Samples.MapOfKeys | src/utils/color_model_genrator.ts:12-14 | the keys of `new Map(entries)` are exactly the entries' keys |
| Samples.MapOfLastWins | src/utils/color_model_genrator.ts:28-37 | an entry with no later entry of the same key gives that key's value in the Map |
| Samples.MinOf | src/utils/color_model_genrator.ts:21 | `Math.min(...keys)` is one of the keys and no key is smaller |
| Samples.MaxOf | src/utils/color_model_genrator.ts:22 | `Math.max(...keys)` is one of the keys and no key is larger |
| Samples.SortAscending | src/utils/color_model_genrator.ts:24 | the in-place `sort((a, b) => a - b)` leaves the array ascending and a permutation of its old contents |
| Samples.SortedPermutationOfDistinct | src/utils/color_model_genrator.ts:24 | a sorted permutation of distinct keys is strictly ascending |
| Samples.SortedEnds | src/utils/color_model_genrator.ts:19-24 | after the sort, the first and last elements are the pre-sort minimum and maximum |
| Samples.SortedKeys | src/utils/color_model_genrator.ts:19-24 | the sorted key array is strictly ascending, as long as the table, and runs from the minimum key to the maximum key |
| Samples.SameElementsAsMapKeys | src/utils/color_model_genrator.ts:19-24 | a permutation of the keys holds exactly the Map's keys, in both directions |
| Samples.LerpBetween | src/utils/color_model_genrator.ts:69-73 | `lower + (upper - lower) * t` with t in [0,1] lies between lower and upper |
| Lookup.FirstAtLeast | src/utils/color_model_genrator.ts:55 | `findIndex((w) => w >= x)`: the first index whose key is at least x, and -1 exactly when every key is below x |
| Lookup.FindIndex | src/utils/color_model_genrator.ts:55 | the linear search returns that first index, or -1 exactly when no key reaches x |
| Lookup.FirstAtLeastUnique | src/utils/color_model_genrator.ts:55 | an index whose key reaches x, with every earlier key below x, is the search result |
| Lookup.FromLowerIndex | src/utils/color_model_genrator.ts:56-73 | a negative lowerIndex gives the first sample; an upperIndex past the end gives the last sample |
| Lookup.ClampHighUnreachable | src/utils/color_model_genrator.ts:55-60 | upperIndex is always below the key count, so the clamp-high branch never runs |
| Lookup.AtOrBelowSmallestKey | src/utils/color_model_genrator.ts:55-58 | for x at or below the smallest key, findIndex is 0 and the first sample is returned |
| Lookup.AboveLargestKey | src/utils/color_model_genrator.ts:55-58 | for x above the largest key, findIndex is -1 and the first (not last) sample is returned |
| Lookup.FirstSampleOutside | src/utils/colormodelrenderer.ts:31-36 | outside (k_0, k_{n-1}] both boundary cases return the first sample |
| Lookup.AboveTableExample | src/utils/colormodelrenderer.ts:31-34 | on the table {0: 0, 10: 10}, querying 11 gives the sample of key 0 |
| Lookup.BlendBetween | src/utils/color_model_genrator.ts:69-73 | with t in [0,1], every channel of the blend lies between the two samples' channels; r, g and b are blended separately |
| Lookup.FractionInUnitInterval | src/utils/color_model_genrator.ts:62-64 | for lo < x <= hi the fraction t lies in (0,1], and equals 1 exactly at x == hi |
| Lookup.BetweenNeighbours | src/utils/color_model_genrator.ts:62-73 | for k_i < x <= k_{i+1}: findIndex is i+1, the divisor is positive, t lies in (0,1], the result is the blend of the two neighbours, each channel lies between them, and at x == k_{i+1} the result is that sample |
| RgbCalculator.TableSizes | src/utils/color_model_genrator.ts:86-122 | X, Y and Z have 81 entries each and the matrix has 9 |
| RgbCalculator.GridIndex | src/utils/color_model_genrator.ts:129-130 | within the span [0,400], the index lies in [0,80] and 5·index <= len < 5·(index+1) |
| RgbCalculator.GridOffset | src/utils/color_model_genrator.ts:129-131 | the offset lies in [0,5); within the span, a non-zero offset forces index <= 79 |
| RgbCalculator.GridExact | src/utils/color_model_genrator.ts:129-131 | on the grid point 5k the index is k and the offset is 0 |
| RgbCalculator.Interpolate | src/utils/color_model_genrator.ts:150-161 | a zero offset gives values[index]; otherwise y0 + (offset/5)(y1 - y0), which lies between the two samples; values[index+1] is read only for a non-zero offset |
| RgbCalculator.GammaCorrect | src/utils/color_model_genrator.ts:163-170 | 12.92·c up to 0.0031308, and 1.055·c^(1/2.4) - 0.055 above it |
| RgbCalculator.GammaLinearSegment | src/utils/color_model_genrator.ts:163-166 | on the linear segment the result does not depend on `Math.pow`, stays below 12.92·0.0031308 and keeps the sign of c |
| RgbCalculator.Clip | src/utils/color_model_genrator.ts:172-174 | the result lies in [0,1]; it is 0 below 0 and 1 above 1 |
| RgbCalculator.ClipIdentityAndIdempotent | src/utils/color_model_genrator.ts:172-174 | clip is the identity on [0,1] and idempotent |
| RgbCalculator.Color | src/utils/color_model_genrator.ts:124-148 | black outside [380,780]; every channel lies in [0,1] for every real input |
| RgbCalculator.Calc | src/utils/color_model_genrator.ts:124-148 | `calc` returns Color: exactly (0,0,0) outside [380,780], and inside the unit cube for every real input |
| RgbCalculator.CalcVisible | src/utils/color_model_genrator.ts:129-147 | the steps after the range check compute Color, with every table read in bounds |
| RgbCalculator.OnGridExact | src/utils/color_model_genrator.ts:129-153 | at 380 + 5k the tristimulus values are the k-th samples exactly, and the colour is their transform |
| RgbCalculator.BoundaryExact | src/utils/color_model_genrator.ts:124-135 | 380 and 780 give the transform of the first and the last samples |
| RgbCalculator.OffGridBetween | src/utils/color_model_genrator.ts:150-161 | off the grid, each tristimulus value lies between its two neighbouring samples |
| Generator.ColorModelGenerator.constructor | src/utils/color_model_genrator.ts:10-25 | both Maps are built from their tables; the range is the min and max of the keys; the sorted array is a permutation of the keys that is strictly ascending, holds exactly the Map's keys and starts and ends at the range |
| Generator.ColorModelGenerator.RangeAndSortedKeys | src/utils/color_model_genrator.ts:19-24 | the range is taken before the sort; the same array, sorted in place, is a permutation of the keys that indexes the Map with that range at its ends |
| Generator.ColorModelGenerator.ParseConeData | src/utils/color_model_genrator.ts:27-38 | the cone Map has exactly the records' keys, and each key maps to the value of its last record |
| Generator.ColorModelGenerator.GetWavelengthRange | src/utils/color_model_genrator.ts:40-42 | both ends of the range are keys of the table and every key lies between them |
| Generator.ColorModelGenerator.InterpolateWavelength | src/utils/color_model_genrator.ts:50-74 | the query over the selected Map (cone data when useNormalized) is Lookup.Interpolated, with every lookup hitting a present key; it changes no field |
| Generator.ColorModelGenerator.WavelengthToSensitivity | src/utils/color_model_genrator.ts:44-48 | the `Vector3` carries r, g, b of the interpolated sample in that order |
| Generator.ColorModelGenerator.WavelengthToRgb | src/utils/color_model_genrator.ts:75-77 | `wavelengthToRGB` is RgbCalculator's colour, inside the unit cube |
| Renderer.ColorModelGenerator.constructor | src/utils/colormodelrenderer.ts:9-19 | the Map is built from the table; the range is the min and max of the keys; the sorted array is a fresh permutation of the keys that is strictly ascending, holds exactly the Map's keys and starts and ends at the range |
| Renderer.ColorModelGenerator.RangeAndSortedCopy | src/utils/colormodelrenderer.ts:13-18 | the range comes from one copy of the keys; a second, fresh copy is sorted and indexes the Map with that range at its ends |
| Renderer.ColorModelGenerator.GetWavelengthRange | src/utils/colormodelrenderer.ts:21-23 | both ends of the stored range are keys and every key lies between them |
| Renderer.ColorModelGenerator.InterpolateWavelength | src/utils/colormodelrenderer.ts:30-50 | the query is Lookup.Interpolated over the one Map, every `!` lookup is of a present key, and no field changes |
| Renderer.ColorModelGenerator.WavelengthToSensitivity | src/utils/colormodelrenderer.ts:25-28 | the `Vector3` carries r, g, b of the interpolated sample in that order |
| Sensitivity.Phase | src/utils/ColorSensitivity.ts:35-42 | the phase fraction is 0 at the domain minimum, 1/2 at the midpoint, 1 at the maximum, and in [0,1] inside the domain |
| Sensitivity.ColorSensitivity.constructor | src/utils/ColorSensitivity.ts:5-12 | colorType is the argument, xRange is getXRange(), yRange is [0,1], and the data is empty |
| Sensitivity.ColorSensitivity.GetXRange | src/utils/ColorSensitivity.ts:14-25 | red [380,780], green [400,700], blue [420,680], any other type [380,780]; always an interval inside [380,780], and the whole of it exactly when the type is neither green nor blue |
| Sensitivity.ColorSensitivity.GetYRange | src/utils/ColorSensitivity.ts:27-29 | always [0,1], whatever the type |
| Sensitivity.ColorSensitivity.LoadSensitivityData | src/utils/ColorSensitivity.ts:31-33 | the data becomes empty and every other field is unchanged |
| Sensitivity.ColorSensitivity.GetYFromX | src/utils/ColorSensitivity.ts:35-46 | 0 for every type other than red, green and blue |
| Sensitivity.PhaseAlignedWithXRange | src/utils/ColorSensitivity.ts:14-42 | for red, green and blue, the constants of `getYFromX` describe the same domain as `getXRange`: the value is sin(phase·π), with the phase taken in that domain |
| Sensitivity.CurveOverDomain | src/utils/ColorSensitivity.ts:35-42 | for red, green and blue, the curve is sin(0) at the domain minimum, sin(π/2) at the midpoint and sin(π) at the maximum |
| Sensitivity.OtherTypeFlat | src/utils/ColorSensitivity.ts:22-44 | any other type has the full domain [380,780] but the value 0 at every x |

## Left out

- String-to-number parsing is not modelled. This covers `parseInt` of the table keys
  (src/utils/color_model_genrator.ts:13, src/utils/colormodelrenderer.ts:11) and `Number(...)` of
  the cone fields (:32-34). Entries arrive as integer keys with real channels.
- The `./wavelength` data module is not part of this model. Its two tables are constructor
  parameters.
- Generator.ColorModelGenerator.constructor requires a non-empty table with distinct keys.
  `Math.min` of no keys would be Infinity. A repeated key could only arise from two strings that
  parse to the same integer.
- Renderer.ColorModelGenerator.constructor carries the same requirement, for the same reason.
- Generator.ColorModelGenerator.InterpolateWavelength with `useNormalized` requires the cone Map
  to contain every key of the original Map. The cone Map is keyed by the raw `record.Field1`
  values. Whether those match the numeric keys depends on data that is not part of this model.
- Generator.ColorModelGenerator.InterpolateWavelength and the Renderer version express the
  branches after the search through the function Lookup.FromLowerIndex, which they call. They are
  not written as statements. One of those branches is unreachable after the search.
- The order of entries in a Map is not modelled. Each key array is built from the entries in
  table order, which equals the Map's order when the keys are distinct.
- `Math.pow` (:169) and `Math.sin` (src/utils/ColorSensitivity.ts:38-42) are parameters and
  `Math.PI` is a decimal. The power segment of the gamma curve and the sine values are therefore
  stated only as these calls.
- IEEE-754 rounding is not modelled. Everything is over the reals, so "exactly the sample" holds
  only in that idealisation.
- NaN is not representable over the reals. In the source `calc(NaN)` passes the range check and
  returns (NaN, NaN, NaN), and a query at NaN returns the first sample; the unit-cube bound of
  RgbCalculator.Color and RgbCalculator.Calc is proved for every real (non-NaN) input.
- The range object returned by `getWavelengthRange` (src/utils/color_model_genrator.ts:41,
  src/utils/colormodelrenderer.ts:22) is the stored object itself, so a caller could change the
  generator's range and break the invariant Valid() states. The model's `Range` is an immutable
  value, so this aliasing is not captured.
- The `async`/Promise wrapper of `loadSensitivityData` is not modelled. The method only resets a
  field.
- three.js `Vector3` is a plain triple. `src/router/index.ts` is not part of this model; it is
  configuration only.
- RgbCalculator.Calc hands the steps after its range check to RgbCalculator.CalcVisible. The
  arithmetic writes `LEN_STEP` as the literal 5 and the shift inside the colour function as 380.
