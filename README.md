# Onboarding classifier — a verified Dafny model

This project models the scoring engine of the fulfilment onboarding
classifier and the helpers around it. The engine sorts a prospective
customer into a complexity tier (A1 … C1) with a lead time.

- **Variable scores.** Each of 24 input variables is scored 0..100:
  - numeric inputs are scaled and clamped;
  - drop-down choices are looked up in a table, with a fallback;
  - multi-select option maps score as the share of options ticked, and the
    PostNL API score is inverted.
- **Group scores.** Variables are grouped into seven groups. A group score is
  a weighted average of its members' scores.
- **Total.** The total is the group-weighted sum of the group scores. It is
  not renormalised, and it is clamped only for display.
- **Tier.** An inclusive `<=` cascade over the thresholds picks the tier.
- **Top contributors.** The three largest `|score · weight · groupWeight|`
  contributions are reported, using a stable sort.

There are two versions of the engine, and they are modelled separately:

- **The configurable engine** rendered by the page
  (`OnboardingClassifier`). Its variable weights, group weights and
  thresholds are parameters.
- **The exported `computeScore`** (`ComputeScore`). It differs from the
  configurable engine:
  - members of a group weigh `1/n` each;
  - the fallback is a uniform 50;
  - the platform table has no `API` entry;
  - the thresholds and group weights are fixed.
- **Shared definitions.** Definitions common to both engines are written once:
  - `Scaling`: clamp, the scalers and the multi-select fraction;
  - `WeightedSums`: weighted sums and contributions;
  - `Ranking`: stable descending sort and top three.

Around the engine:

- **`ClassifierReducer`.** The page's reducer, a pure state machine with six
  actions.
- **`InputsForm`.** The form's derived option lists, computed as an ordered
  de-duplicating merge (`UniqueLists`). Also the checkbox toggle and the
  single-field updates.
- **`ResultPanel`.** The result panel's clamps and its `#RRGGBB` colour
  parser, which follows section 5.2 of CSS Color Module Level 4.
- **`Presets`.** The browser-local preset store, modelled as a class whose
  `list` field holds the stored records:
  - it prepends on save, filters on delete, and replaces the first match on
    update;
  - also here are the completeness filter for remote rows, and the UUID shape
    test from section 3 of RFC 4122.
- **`PresetNaming`.** Case-insensitive name clash detection and the search for
  a free `name -i` variant.
- **`CsvExport`.** The CSV export. It uses first-seen header order and quotes
  every cell, doubling inner quotes as section 2 of RFC 4180 prescribes.

Scores are exact `real` numbers. Weights are total functions from the
variable or group to `real`. Loops in the source are methods with loop
invariants, each proved equal to a specifying function. The local preset
store is a class with `modifies` clauses.

## Model

| member | source | states |
|---|---|---|
| Scaling.ClampSpec | src/OnboardingClassifier.tsx:218-220 | `clamp` returns a value in `[min, max]`, returns `x` when it is already in range, and returns the violated bound otherwise (the same definition is at computeScore.ts:3). |
| Scaling.ClampIdempotent | src/OnboardingClassifier.tsx:218-220 | Clamping twice is clamping once. |
| Scaling.ClampMonotone | src/OnboardingClassifier.tsx:218-220 | Clamping is non-decreasing in its argument. |
| Scaling.NumericScalersSpec | src/OnboardingClassifier.tsx:239-243 | Each of the five numeric scalers lands in 0..100 and is non-decreasing (the same scalers are at computeScore.ts:5-9). |
| Scaling.ScaleAfdelingenEnds | src/OnboardingClassifier.tsx:243 | Department scaling gives 0 for at most one department and 100 for seven or more. Between them it is linear: `(n-1)·100/6`. |
| Scaling.ScaleMultiSpec | src/OnboardingClassifier.tsx:271-276 | An empty option map scores 0. Otherwise the score is ticked/total·100, and it lies in 0..100. |
| Scaling.ScaleMultiTickMonotone | src/OnboardingClassifier.tsx:271-276 | Ticking an option, present or new, never lowers the multi-select score. |
| Scaling.TickCounts | src/OnboardingClassifier.tsx:271-276 | Ticking an option changes the ticked count and the key count exactly as follows: +0/+0 if it was already ticked, +1/+0 if it was unticked, +1/+1 if it was absent. |
| OnboardingClassifier.CategoricalScore | src/OnboardingClassifier.tsx:314-353 | A categorical field scores its table entry when its value is listed, and that field's own fallback otherwise. |
| OnboardingClassifier.PlatformExamples | src/OnboardingClassifier.tsx:248-255 | Here `API` is listed as a platform (70), while an unlisted platform scores the fallback of 50. |
| OnboardingClassifier.TablesInRange | src/OnboardingClassifier.tsx:246-268 | Every table entry and every fallback lies in 0..100. |
| OnboardingClassifier.VariableScoreRange | src/OnboardingClassifier.tsx:301-357 | Every variable score lies in 0..100. |
| OnboardingClassifier.MultiScore | src/OnboardingClassifier.tsx:345-350 | The VAS and inbound fields score `scaleMulti` of their map; PostNL APIs score `clamp(100 - scaleMulti)`. |
| OnboardingClassifier.PostnlTickLowers | src/OnboardingClassifier.tsx:349-350 | Ticking a PostNL API never raises that field's score. |
| OnboardingClassifier.VasTickRaises | src/OnboardingClassifier.tsx:345-346 | Ticking a VAS activity never lowers that field's score. |
| OnboardingClassifier.InboundTickRaises | src/OnboardingClassifier.tsx:347-348 | Ticking an inbound particularity never lowers that field's score. |
| OnboardingClassifier.GroupVarsPartition | src/OnboardingClassifier.tsx:279-296 | Each variable is in exactly the member list of its own group, and no list repeats a variable. |
| OnboardingClassifier.GroupVarsCount | src/OnboardingClassifier.tsx:279-296 | The seven member lists hold 24 variables in all. |
| OnboardingClassifier.ComputeGroupScore | src/OnboardingClassifier.tsx:360-381 | Returns one contribution per member in member order, and the weighted mean `sum/totalW`, or 0 when the weights sum to 0. |
| WeightedSums.SumMembers | src/OnboardingClassifier.tsx:372-378 | The `forEach` loop yields the weight total, the weighted sum and the pushed contributions, each equal to its specifying function. |
| OnboardingClassifier.GroupScoreRange | src/OnboardingClassifier.tsx:379 | With non-negative variable weights, every group score lies in 0..100, including the zero-weight guard. |
| WeightedSums.WeightedMeanRange | src/OnboardingClassifier.tsx:379 | A weighted mean of scores in 0..100 under non-negative weights lies in 0..100. |
| WeightedSums.ContributionsSpec | src/OnboardingClassifier.tsx:377 | Each contribution names its member in order, has its score in 0..100, and is score × weight. |
| WeightedSums.SumWeightedMonotone | src/OnboardingClassifier.tsx:372-378 | With non-negative weights, raising member scores never lowers the weighted sum. |
| OnboardingClassifier.ClassifySpec | src/OnboardingClassifier.tsx:383-391 | The tier is the first threshold A1…B2 that the clamped score does not exceed, or C1 if it exceeds them all. Lead and colour come from that tier. |
| OnboardingClassifier.ClassifyAtA1 | src/OnboardingClassifier.tsx:385 | A score equal to a non-negative A1 threshold is A1, because the bounds are inclusive. |
| OnboardingClassifier.ClassifyIgnoresC1 | src/OnboardingClassifier.tsx:383-391 | The C1 threshold plays no part in the cascade. |
| OnboardingClassifier.ClassifyMonotone | src/OnboardingClassifier.tsx:383-391 | For ordered thresholds, a higher score never gets a lower tier. Above B2 the tier is C1. |
| OnboardingClassifier.ComputeEntries | src/OnboardingClassifier.tsx:734-737 | The loop pushes one entry per group, in group order, each holding that group's score and contributions. |
| OnboardingClassifier.ComputeResult | src/OnboardingClassifier.tsx:722-798 | The result record holds: the clamped total and equal progress; the tier of the unclamped total; the top three contributors as ranked; and one group row per group with progress = clamp(score). |
| OnboardingClassifier.TotalBounds | src/OnboardingClassifier.tsx:738-741 | For scores in 0..100 and non-negative group weights, the reduce lies between 0 and 100 × the sum of the weights used. |
| OnboardingClassifier.TotalRange | src/OnboardingClassifier.tsx:738-741 | The total lies in 0..100·Σgw, so it is in 0..100 when the group weights sum to at most 1. |
| OnboardingClassifier.TotalScaled | src/OnboardingClassifier.tsx:738-741 | Scaling every group weight by c scales the reduce by c. |
| OnboardingClassifier.TotalNotRenormalised | src/OnboardingClassifier.tsx:718-741 | The total is not renormalised: scaling all group weights by c scales the total by c. `groupWarning` is only advisory. |
| OnboardingClassifier.TotalMonotone | src/OnboardingClassifier.tsx:738-741 | With non-negative group weights, raising group scores never lowers the total. |
| OnboardingClassifier.SkuCountRaisesScores | src/OnboardingClassifier.tsx:301-304 | A larger SKU count never lowers any variable score. |
| OnboardingClassifier.TotalMonotoneInSkuCount | src/OnboardingClassifier.tsx:734-741 | With non-negative weights, a larger SKU count never lowers the total. |
| OnboardingClassifier.FlattenLength | src/OnboardingClassifier.tsx:742-748 | The flattened contribution list has one entry per member of every group. |
| OnboardingClassifier.TopContributorsSpec | src/OnboardingClassifier.tsx:758-771 | There are 24 contributions, so exactly three are ranked. They are ordered by non-increasing magnitude, and none is smaller than a contribution left out. |
| Ranking.SortDescSpec | src/OnboardingClassifier.tsx:768 | The sort orders by non-increasing magnitude, permutes its input, and is stable: equal-magnitude items keep their relative order. |
| Ranking.Top3Spec | src/OnboardingClassifier.tsx:768-769 | `slice(0, 3)` of the sorted list has min(3, n) items, in order, drawn from the input. |
| Ranking.Top3Omitted | src/OnboardingClassifier.tsx:768-769 | No item left out of the top three has a larger magnitude than the third. |
| Ranking.Top3Stable | src/OnboardingClassifier.tsx:768-769 | For every magnitude, the entries of that magnitude kept in the top three are the first entries of that magnitude in the input, in input order. |
| CsvExport.HeadersSpec | src/OnboardingClassifier.tsx:434 | The headers have no duplicates and are exactly the keys some row has. Adding rows only appends columns, so first-seen order is kept. |
| CsvExport.Lines | src/OnboardingClassifier.tsx:436-439 | There is one header line, the raw keys joined by commas, then one line per row in row order. |
| CsvExport.EscapeRoundTrip | src/OnboardingClassifier.tsx:435 | An escaped cell starts with a quote, and an RFC 4180 reader of a quoted field gives back exactly the original text. |
| CsvExport.RowLineRoundTrip | src/OnboardingClassifier.tsx:435-438 | A data line reads back, field by field, as the row's value under each header, whatever commas, quotes or line breaks the values hold. |
| CsvExport.ToCSVRowsReadBack | src/OnboardingClassifier.tsx:433-440 | Each row's line in the export reads back as that row's values, one per column, with "" for columns the row lacks. |
| CsvExport.ReadQuoted | src/OnboardingClassifier.tsx:435 | The reference reader of a quoted field always consumes input, which makes the line reader terminate. |
| PresetNaming.NatToStringInjective | src/OnboardingClassifier.tsx:494 | Different numbers print as different decimal strings. |
| PresetNaming.CandidatesDiffer | src/OnboardingClassifier.tsx:494 | The candidates `base -i` and `base -j` for different i and j differ even after lower-casing. |
| PresetNaming.TakenCandidatesBound | src/OnboardingClassifier.tsx:484-494 | If every candidate 1..n is taken, then n ≤ the number of presets (each preset blocks at most one candidate). |
| PresetNaming.UniqueizeName | src/OnboardingClassifier.tsx:484-496 | Returns the base when no other preset has it (ignoring case). Otherwise returns the first free `base -i`, with i ≤ presets + 1. The result never clashes. |
| PresetNaming.ToLowerAppend | src/OnboardingClassifier.tsx:487 | Lower-casing works character by character. |
| ComputeScore.GetOptionScoreSpec | src/features/classifier/services/computeScore.ts:95-98 | Returns the table entry when the value is listed and 50 otherwise; the result is always in 0..100. |
| ComputeScore.PlatformApiUnlisted | src/features/classifier/services/computeScore.ts:14 | `API` is not in this platform table, so it scores 50 here but 70 in the configurable engine. |
| ComputeScore.ScaleMultiOptSpec | src/features/classifier/services/computeScore.ts:34-39 | A missing or empty option map scores 0, and every score is in 0..100. |
| ComputeScore.ScoreVariableRange | src/features/classifier/services/computeScore.ts:100-140 | Every variable score lies in 0..100. |
| ComputeScore.AgreesWithConfigurable | src/features/classifier/services/computeScore.ts:100-140 | Numeric and multi-select variables score as in the configurable engine. A categorical value listed in this engine's table does too. |
| ComputeScore.ComputeGroupScore | src/features/classifier/services/computeScore.ts:142-153 | Returns one contribution per member, each with weight 1/n, and their running total. |
| ComputeScore.SumEqualWeights | src/features/classifier/services/computeScore.ts:146-151 | The `map` with its running `total` yields the contributions and the weighted sum. |
| ComputeScore.GroupScoreIsMean | src/features/classifier/services/computeScore.ts:142-153 | The group score is the arithmetic mean of the member scores, and equals the configurable weighted mean with equal weights. |
| ComputeScore.GroupScoreRange | src/features/classifier/services/computeScore.ts:142-153 | Every group score lies in 0..100. |
| ComputeScore.GroupWeightsSumToOne | src/features/classifier/services/computeScore.ts:72-80 | The fixed group weights sum to exactly 1 and equal the configurable defaults, so those defaults raise no weight warning. |
| ComputeScore.TotalScoreRange | src/features/classifier/services/computeScore.ts:170-173 | The total Σ score·weight lies in 0..100. |
| ComputeScore.ClassifyIsDefault | src/features/classifier/services/computeScore.ts:155-163 | The fixed cascade is the configurable cascade at the default thresholds. |
| ComputeScore.ClassifyBoundaries | src/features/classifier/services/computeScore.ts:155-163 | The bounds are inclusive: 20 → A1, 20.0001 → A2, 80 → B2, anything above 80 → C1, anything below 0 → A1. |
| ComputeScore.ComputeScore | src/features/classifier/services/computeScore.ts:165-215 | The result holds the total, which lies in 0..100 and equals its progress, and the tier of the total. The label is "code — lead". The top contributors are the three entries of the ranked top three, in order, so they are the largest contributions (`TopContributorsSpec`). There is one group row per group, in order, with its title and its score as progress. |
| ComputeScore.TopContributorsSpec | src/features/classifier/services/computeScore.ts:185-196 | Exactly three contributors, ordered by non-increasing `abs(contribution·groupWeight)`, none smaller than a contribution left out. |
| ClassifierTypes.ApplyPatchGet | src/features/classifier/hooks/useClassifierReducer.tsx:78-85 | Spreading a patch sets exactly the patched fields and keeps every other field. |
| ClassifierTypes.ApplyEmptyPatch | src/features/classifier/hooks/useClassifierReducer.tsx:78-85 | An empty patch changes nothing. |
| ClassifierReducer.InitialInputSpec | src/features/classifier/hooks/useClassifierReducer.tsx:34-61 | The initial input has every numeric field 0, every choice "", and every option map empty. |
| ClassifierReducer.InitialStateSpec | src/features/classifier/hooks/useClassifierReducer.tsx:66-74 | The initial state has no result and no preset, and is neither dirty nor busy. Marking it dirty and clearing it returns the initial state. |
| ClassifierReducer.ReduceSpec | src/features/classifier/hooks/useClassifierReducer.tsx:76-114 | Each action sets only the slot it writes, to the value it carries, and every other slot is unchanged. A patch sets exactly its fields. An unknown action returns the state unchanged. |
| ClassifierReducer.ReduceIdempotent | src/features/classifier/hooks/useClassifierReducer.tsx:76-114 | Dispatching any action twice is the same as dispatching it once. |
| ClassifierReducer.PatchesMerge | src/features/classifier/hooks/useClassifierReducer.tsx:78-85 | Two successive patches are the same as one merged patch, in which the later patch wins. |
| ClassifierReducer.PatchCompose | src/features/classifier/hooks/useClassifierReducer.tsx:81-84 | Spreading p and then q over an input is the same as spreading `p + q`. |
| ClassifierReducer.IndependentActionsCommute | src/features/classifier/hooks/useClassifierReducer.tsx:76-114 | Actions that write different slots commute. |
| Presets.FilterSpec | src/lib/presets.ts:35-37 | The filter keeps exactly the records satisfying the test, and its length is the number of such records. |
| Presets.FilterAppend | src/lib/presets.ts:35-37 | Filtering distributes over concatenation, so order is preserved. |
| Presets.CompleteRowsSpec | src/lib/presets.ts:34-37 | The load filter keeps exactly the rows whose payload has truthy `inputs`, `gw`, `vw` and `th`, in order. |
| Presets.TrimSpec | src/lib/presets.ts:42 | The trimmed name is a slice of the name with only white space cut off, and it neither starts nor ends with white space. |
| Presets.SafeNameSpec | src/lib/presets.ts:42 | The generated name is used exactly when the name is blank. Otherwise the name is stored trimmed. |
| Presets.WithoutKeySpec | src/lib/presets.ts:66-68 | Deleting removes exactly the records with the key and keeps the rest in order. The count is the number of records removed. |
| Presets.FindIndex | src/lib/presets.ts:92 | Returns the index of the first record with the key, or -1 when there is none. |
| Presets.LocalPresetStore.Load | src/lib/presets.ts:21-24 | The local branch returns the stored list as it is. |
| Presets.LocalPresetStore.Save | src/lib/presets.ts:41-51 | The new list is the new record (no id, safe name, time stamp) followed by the old list. |
| Presets.LocalPresetStore.Delete | src/lib/presets.ts:63-69 | The new list is the old list without records keyed `key`, and `count` is old length − new length. |
| Presets.LocalPresetStore.Update | src/lib/presets.ts:85-104 | With no match, nothing is written and `{ok: false, count: 0}` is returned. Otherwise only the first match gets the new name, payload and time stamp, and its `id ?? name` is returned. |
| Presets.IsUUIDSpec | src/lib/presets.ts:70-73 | A key is a UUID exactly when it has 36 characters, dashes at positions 8, 13, 18 and 23, and hex digits of either case elsewhere. |
| UniqueLists.DedupSpec | src/features/classifier/components/InputsForm.tsx:133-145 | The merged list has no duplicates and holds exactly the labels of its input. |
| UniqueLists.DedupExtends | src/features/classifier/components/InputsForm.tsx:133-145 | Appending labels only appends to the merged list. |
| UniqueLists.PushUnseen | src/features/classifier/components/InputsForm.tsx:134-139 | One `seen`-set pass pushes each label not seen before, and equals the first-occurrence de-duplication. |
| InputsForm.MergeOptions | src/features/classifier/components/InputsForm.tsx:133-145 | The two passes over the defaults and then the input's keys, sharing one `seen` set, give the de-duplication of both lists together. |
| InputsForm.DerivedOptionsSpec | src/features/classifier/components/InputsForm.tsx:126-148 | Given any enumeration of the keys of the input's option map, the derived list starts with the defaults in listed order, holds exactly the defaults and the keys of that map, and has no duplicates. |
| InputsForm.DeriveMultiOptions | src/features/classifier/components/InputsForm.tsx:126-148 | Derives one list for each of the three multi-select fields and none for any other field. Each list is the de-duplicated defaults followed by the keys, and holds exactly the defaults and the keys of the input's option map for that field. |
| InputsForm.ToggleSpec | src/features/classifier/components/InputsForm.tsx:165-172 | The toggled option becomes the negation of its truthiness (absent → true). Other options are unchanged, and toggling twice restores the option's truthiness. |
| InputsForm.ToggleTicks | src/features/classifier/components/InputsForm.tsx:165-172 | Toggling an unticked option ticks it. |
| InputsForm.UpdateInputSpec | src/features/classifier/components/InputsForm.tsx:153-155 | A form update sets exactly its own field and leaves every other field and slot unchanged. |
| InputsForm.HandleNumberChangeSpec | src/features/classifier/components/InputsForm.tsx:157-159 | A number change stores the parsed number, or 0 when the text does not parse. |
| ResultPanel.ClampsSpec | src/features/classifier/components/ResultPanel.tsx:44-55 | The bar width stays in 0..100 and alpha stays in 0..1. In-range values pass through unchanged. |
| ResultPanel.HexToRgbaSpec | src/features/classifier/components/ResultPanel.tsx:56-63 | Six hex digits, with or without `#`, yield the values of the three digit pairs (each < 256) and the clamped alpha. Anything else is returned unchanged. |
| ResultPanel.HexRoundTrip | src/features/classifier/components/ResultPanel.tsx:56-63 | Parsing a formatted `#rrggbb` colour gives back its components. |
| ResultPanel.TierColorsParse | src/features/classifier/components/ResultPanel.tsx:69-70 | Every tier colour is a hex colour, so the badge is always tinted. |

## Left out

- Formatting is not modelled:
  - number formatting (`toFixed`) in the score labels and the contributor `detail` strings;
  - the contributor `detail` text in both engines.

  The model keeps the numbers these strings are built from.
- IEEE-754 arithmetic is not modelled: scores are exact reals, so rounding, `NaN`, infinities and `-0` are absent. `Number(text)` is a parameter of type `Option<real>`, where `None` stands for `NaN`.
- `PresetNaming.ToLower`: lower-cases ASCII `A`–`Z` only, not the full Unicode case mapping of `toLowerCase`.
- Other names and keys:
  - table lookups use own keys only, so prototype keys such as `"constructor"` are not modelled;
  - the enumeration order of an option map's keys, which `Object.keys` yields, is a parameter (`keyOrder`).
- I/O and plumbing:
  - the Supabase branches of the preset store;
  - `localStorage` and JSON (de)serialisation;
  - `console` output.

  The local store is a class holding the stored list, and time stamps and generated names are parameters.
- React and UI:
  - React state, effects, memoisation and rendering;
  - the async UI handlers that save, update, delete, apply and export;
  - `stable`/`deepEqual`, the toaster and the PDF export.
- `Presets.LocalPresetStore.Load`: the doc comment of `loadPresets` says it filters incomplete payloads, but the local branch returns the stored list unfiltered. The model follows the code; the filter (`CompleteRows`) is modelled on its own, for the remote branch.
- `CsvExport.Lines`: cell values are the text `String(v ?? "")`, which the model takes as given. The header line is joined without quoting, as in the code.
- `ClassifierReducer.ReduceSpec`: patches whose values are of the wrong kind, or that hold `undefined`, are excluded (`PatchFits`). The type `Partial<ClassifierInput>` does admit `{ skuCount: undefined }`, and spreading such a patch would write `undefined` into the input. The only dispatch of a patch, in `InputsForm.tsx:154`, passes a value of the field's own type `ClassifierInput[K]`, so it never sends one.
- `InputsForm.DeriveMultiOptions`: the order in which `Object.keys` enumerates each option map is passed in as `keyOrder`. It is only required to list exactly that map's keys. The default list used before the first effect runs is not modelled.
- `defaultInputs`, the scenario storage and the preset snapshot helpers of the page are not modelled. They are data and UI plumbing.
