# Quantum random number generator: a Dafny model

This project models the logic of a browser app that draws random integers
from the ANU quantum random number service. If that service fails, the app
falls back to local pseudo-random numbers. The model has four parts:

- **QuantumService** (`quantum_service.dfy`) covers `generateQuantumRandomNumbers`
  and `checkQuantumApiAvailability`. That means the bit width
  `max(32, ceil(log2 range))`, the request URL, the rescale of a raw value
  into `[min, max]`, the fallback and the availability probe. The network
  is a parameter `fetch: string -> FetchOutcome`. It maps the URL that is
  requested to a network error, or to a status flag plus a parsed body.
  `Math.random` is a sequence of draws in `[0, 1)`. The module is written
  as functions and lemmas, like the source, which only computes values.
- **RangeSelector** (`range_selector.dfy`) covers the four guarded handlers
  that edit the parent's `(minValue, maxValue)`. `Apply` gives their meaning
  on a `Bounds` value. The class `RangeState` holds the two fields, and its
  four handler methods are proved against `Apply`.
- **NumberGenerator** (`number_generator.dfy`) covers the screen's state.
  The class `Generator` has the `useState` fields as its fields, and its
  methods are `handleGenerate`, `handleClearHistory`, `handleTabChange` and
  the availability check on mount. The history update
  `[item, ...prev].slice(0, 20)` is the function `PushHistory`.
- **Decimal** and **Arithmetic** are support modules. Decimal turns a whole
  number into decimal text, as a JavaScript template literal does, and reads
  runs of digits back. Arithmetic holds facts about floor division.

The doc comment of `generateQuantumRandomNumbers`
(src/services/quantumService.ts:18-24) promises `count` numbers between an
inclusive min and an inclusive max. The code does not keep either promise,
and the model follows the code:

- The doc comment promises an inclusive max. Line 50 maps the top raw value
  `2^size − 1` to `max + 1` (`RescaleOvershoot`, `TopRawValueEscapesRange`).
- The doc comment promises `count` numbers. On the quantum path the code
  returns one value per element of `data`, and never compares that with
  `count` (`SuccessYieldsRescaledData`).

## Model

| member | source | states |
|---|---|---|
| `QuantumService.CeilLog2` | src/services/quantumService.ts:33 | `ceil(log2 r)` is an exponent k with `2^k ≥ r` and, when k > 0, `2^(k−1) < r` |
| `QuantumService.CeilLog2Least` | src/services/quantumService.ts:33 | no exponent smaller than `CeilLog2(r)` reaches r, so it is the least one |
| `QuantumService.BitWidth` | src/services/quantumService.ts:32-33 | the bit width is always ≥ 32. It is exactly 32 when `range ≤ 2^32`. Above that it is the smallest k with `2^k ≥ range` |
| `QuantumService.CeilLog2OfPower` | src/services/quantumService.ts:33 | `ceil(log2 2^k)` is exactly k |
| `QuantumService.BitWidthOfPower` | src/services/quantumService.ts:33 | for `range = 2^k` with k ≥ 32 the bit width is k |
| `QuantumService.BitWidthExamples` | src/services/quantumService.ts:33 | range 2 gives 32 bits, because the floor of 32 dominates. Range `2^40` gives 40 bits |
| `QuantumService.RequestUrlDetermines` | src/services/quantumService.ts:35 | the request `QUANTUM_API_URL?length=<count>&type=uint<size>&size=<size>` determines count and size: equal URLs mean equal count and equal size |
| `Decimal.DigitsValueOfNatToString` | src/services/quantumService.ts:35 | the decimal text interpolated for a whole number reads back as that number |
| `Decimal.NatToString` | src/services/quantumService.ts:35 | the interpolated text of a number is non-empty, all digits, and has no leading zero unless the number is 0 |
| `QuantumService.ProbeUrlLacksSize` | src/services/quantumService.ts:70 | the probe URL `?length=1&type=uint8` is the generation URL for one 8-bit value without its `&size=8` |
| `QuantumService.RescaleInRange` | src/services/quantumService.ts:48-51 | with `min ≤ max` and `0 ≤ v < 2^size − 1`, `min + floor(v·range / (2^size − 1))` lies in `[min, max]` |
| `QuantumService.RescaleAtZero` | src/services/quantumService.ts:50 | the raw value 0 maps to min |
| `QuantumService.RescaleMonotone` | src/services/quantumService.ts:50 | the rescale never decreases as the raw value grows |
| `QuantumService.RescaleOvershoot` | src/services/quantumService.ts:50 | the top raw value `2^size − 1` maps to `max + 1`, past the documented inclusive max. This also holds when `min == max` |
| `QuantumService.RescaleIntendedInRange` | src/services/quantumService.ts:50 | the corrected rescale `min + floor(v·range / 2^size)` maps every raw value of `size` bits into `[min, max]`, maps 0 to min, and, when `range ≤ 2^size`, maps the top raw value `2^size − 1` to max itself, so the inclusive max is reached |
| `QuantumService.FallbackValue` | src/services/quantumService.ts:58 | `floor(r·(max − min + 1) + min)` with `0 ≤ r < 1` lies in `[min, max]`, and equals min when `min == max` |
| `QuantumService.FallbackNumbers` | src/services/quantumService.ts:57-59 | the fallback gives one value per draw, that is exactly `count` values, each in `[min, max]`, and all equal to min when `min == max` |
| `QuantumService.GenerateQuantumRandomNumbers` | src/services/quantumService.ts:25-61 | a generation that falls back yields exactly `count` values, each in `[min, max]` |
| `QuantumService.FailureYieldsFallback` | src/services/quantumService.ts:37-45 | each of these yields the fallback, with `count` values in range: a thrown fetch, a non-OK status, a body that does not parse, a falsy `success`, or a `data` that is not an array |
| `QuantumService.SuccessYieldsRescaledData` | src/services/quantumService.ts:48-51 | an OK response with truthy `success` and an array `data` yields exactly as many values as `data` holds, where value i is the rescale of `data[i]`. Nothing compares this length with `count` |
| `QuantumService.GeneratedInRange` | src/services/quantumService.ts:48-59 | every generated value is in `[min, max]` whenever the service returns no raw value of `2^size − 1` or above |
| `QuantumService.TopRawValueEscapesRange` | src/services/quantumService.ts:48-51 | a successful response holding the top raw value makes generation return `[max + 1]` |
| `QuantumService.WorkedExample` | src/services/quantumService.ts:48-51 | min 1, max 10 and the raw values `[0, 429496729, 4294967295, 1000000000, 2147483647]` give `[1, 1, 11, 3, 5]` |
| `QuantumService.CheckQuantumApiAvailability` | src/services/quantumService.ts:68-77 | the probe is true iff the probe URL's response has a parsed body whose `success` is the boolean `true`. It is false on a thrown fetch or parse error, and it does not look at the HTTP status |
| `QuantumService.ProbeAndGenerationDisagree` | src/services/quantumService.ts:68-77 | a failing status with `success: true` passes the probe but makes generation fall back. A truthy non-boolean `success` fails the probe but is accepted by generation |
| `RangeSelector.ParseIntOrZero` | src/components/RangeSelector.tsx:29 | the candidate from typed text is the parsed integer, or 0 when the text does not parse (the logical-or fallback to 0 in the source) |
| `RangeSelector.ParseIntOfDecimal` | src/components/RangeSelector.tsx:29 | typed decimal text `n` or `-n` parses to n or −n |
| `RangeSelector.UnparsableTextIsZero` | src/components/RangeSelector.tsx:29 | text with no digits, such as an emptied input, becomes the candidate 0, which then meets the same guard |
| `RangeSelector.MinEditAppliedIff` | src/components/RangeSelector.tsx:28-48 | a min edit, typed or from the slider, sets minValue to the candidate when the candidate is below maxValue. Otherwise nothing changes. maxValue is never changed |
| `RangeSelector.MaxEditAppliedIff` | src/components/RangeSelector.tsx:35-55 | a max edit, typed or from the slider, sets maxValue to the candidate when the candidate is above minValue. Otherwise nothing changes. minValue is never changed |
| `RangeSelector.ApplyKeepsOrdered` | src/components/RangeSelector.tsx:28-55 | every edit keeps `minValue < maxValue` |
| `RangeSelector.ApplyAllKeepsOrdered` | src/components/RangeSelector.tsx:28-55 | any sequence of edits from an ordered state keeps `minValue < maxValue` |
| `RangeSelector.ReachableFromInitialAreOrdered` | src/components/NumberGenerator.tsx:22-23 | from the initial state (1, 100), every reachable state has `minValue < maxValue` |
| `RangeSelector.SliderSpanAlwaysAccepted` | src/components/RangeSelector.tsx:76-104 | a value inside the min slider's span `[0, maxValue − 1]` or the max slider's span `[minValue + 1, 999999]` is always applied |
| `RangeSelector.TypedInputIgnoresSliderSpan` | src/components/RangeSelector.tsx:28-40 | a typed min below 0, or a typed max above 999999, is applied whenever the relative guard allows it |
| `RangeSelector.RangeState.constructor` | src/components/NumberGenerator.tsx:22-23 | the parent's pair starts as the given bounds; `Generator`'s constructor passes (1, 100) |
| `RangeSelector.RangeState.HandleMinInputChange` | src/components/RangeSelector.tsx:28-33 | the new bounds are `Apply` of a typed min edit, and order is preserved |
| `RangeSelector.RangeState.HandleMaxInputChange` | src/components/RangeSelector.tsx:35-40 | the new bounds are `Apply` of a typed max edit, and order is preserved |
| `RangeSelector.RangeState.HandleMinSliderChange` | src/components/RangeSelector.tsx:43-48 | the new bounds are `Apply` of a min slider edit, and order is preserved |
| `RangeSelector.RangeState.HandleMaxSliderChange` | src/components/RangeSelector.tsx:50-55 | the new bounds are `Apply` of a max slider edit, and order is preserved |
| `NumberGenerator.First` | src/components/NumberGenerator.tsx:61 | `numbers[0]` is defined iff the list is non-empty, and is then its first element |
| `NumberGenerator.PushHistory` | src/components/NumberGenerator.tsx:72 | the new history has length `min(old + 1, 20)`. The new item is at index 0, and the surviving old items follow in their old order, shifted by one |
| `NumberGenerator.PushAllKeepsNewest` | src/components/NumberGenerator.tsx:72 | after any run of single results, the history holds the newest results first, and never more than 20 entries |
| `NumberGenerator.Generator.constructor` | src/components/NumberGenerator.tsx:22-30 | the initial state: range (1, 100), quantity 1, no results, not loading, empty history, availability unknown, the "single" tab |
| `NumberGenerator.Generator.CheckApi` | src/components/NumberGenerator.tsx:34-50 | on mount, `isQuantumAvailable` becomes the answer of the availability probe |
| `NumberGenerator.Generator.BeginGenerate` | src/components/NumberGenerator.tsx:53-55 | generation starts by setting loading and clearing both results |
| `NumberGenerator.Generator.FinishGenerate` | src/components/NumberGenerator.tsx:60-85 | single tab: shows `numbers[0]` (kept apart from the cleared `null`: an empty list shows `undefined`) and prepends a history item with it and the current min and max. Other tabs: show the whole list and leave the history alone. Loading ends either way |
| `NumberGenerator.Generator.HandleGenerate` | src/components/NumberGenerator.tsx:52-86 | one generation with the current range and quantity. In the single tab, `currentNumber` is the first value, `currentNumbers` is null and the history gains one item. In other tabs, `currentNumbers` is the list, `currentNumber` is null and the history is unchanged. The range stays ordered, quantity stays 1 and the history stays within 20 |
| `NumberGenerator.Generator.HandleClearHistory` | src/components/NumberGenerator.tsx:88-90 | the history becomes empty, and no other field changes |
| `NumberGenerator.Generator.HandleTabChange` | src/components/NumberGenerator.tsx:92-96 | the active tab becomes the new value, both results are cleared, and the history is untouched |

## Findings

| source | as written | input that shows it | evidently intended | confidence | as-written member | corrected member |
|---|---|---|---|---|---|---|
| src/services/quantumService.ts:50 | `min + floor(v / (2^size − 1) · range)` maps `v = 2^size − 1` to `min + range = max + 1` | size 32, `v = 4294967295`, any `min ≤ max` (for example 1 and 10 give 11) | max is inclusive (line 21), so every raw value must land in `[min, max]`, for example with `min + floor(v · range / 2^size)` | high (exact arithmetic, and in floating point `v / v` is exactly 1); not executed | `QuantumService.RescaleOvershoot` | `QuantumService.RescaleIntendedInRange` |

`GenerateQuantumRandomNumbers` keeps the source's formula (`Rescale`), so that
the model reproduces what the code does. `RescaleIntended` is the corrected
mapping, and its range property is proved on its own.

## Left out

- Transport and JSON decoding (`fetch`, `response.json()`). These are the abstract `FetchOutcome` that the `fetch` parameter returns. The raw values in `data` are whole numbers of at least 0. JSON values of other kinds are not modelled.
- Floating point. `Math.log2`, `Math.pow`, the division and the product in the rescale, and the loss of precision above 2^53, are all modelled with exact integers and reals. The source's float rounding is not verified.
- `Math.random`. It is the `draws` parameter, one draw per fallback value, each in `[0, 1)`.
- Async sequencing and React re-renders. Each handler is one atomic transition. Concurrent generations that overlap are not modelled.
- `Date.now()` ids and timestamps of history items, and their locale formatting. These depend on the clock and the locale, so `HistoryItem` has neither.
- Console logging and toasts. Neither affects state.
- RangeSelector.ParseInt: models an optional sign and then the longest run of decimal digits. Leading whitespace, `0x` prefixes and other `parseInt` cases are not modelled.
- RangeSelector.RangeState.HandleMinSliderChange: receives `values[0]` directly, since the slider always passes a one-element array.
- QuantumService.GenerateQuantumRandomNumbers: requires `min ≤ max`. With `max = min − 1` the range is 0 and the bit width is still 32; with `max < min − 1` `Math.log2` of a negative range is NaN, and the request URL carries `uintNaN`. The callers never pass such a range. `count` is a whole number: for a negative `count` the source requests `length=<count>` and, on the fallback, `Array.from` clamps the length to 0 and yields `[]`; neither is modelled.
- QuantumService.GenerateQuantumRandomNumbers: takes min, max and count as explicit arguments. The source's default arguments `min = 1`, `max = 100`, `count = 1` (src/services/quantumService.ts:26-28) are not modelled, because every caller passes all three (src/components/NumberGenerator.tsx:58).
- NumberGenerator.Generator.HandleGenerate: the catch branch and its toast are not modelled. Generation in the model is total, and `generateQuantumRandomNumbers` catches its own errors, so that branch has nothing to model.
- The `quantity` and `onQuantityChange` props that NumberGenerator passes to RangeSelector. RangeSelector declares neither and never calls the setter, so `quantity` stays 1. That is part of `Generator.Valid()`, and no method modifies it.
- The presentational components (`NumberDisplay`, `MultipleNumbersDisplay`, `HistoryLog`, `Header`, the `Index` page) and the clipboard helper. They are rendering and browser I/O.
