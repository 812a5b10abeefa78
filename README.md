# Équilibre couple — a Dafny model of the contribution split

Équilibre couple is a small web application. It tells two partners how much cash each should put into a shared account each month.
- The split is proportional to their incomes.
- Each partner's meal vouchers ("tickets restaurant") count as part of their contribution.
- An optional signed bias shifts the split towards one partner.

This project models the parts of the application that carry logic:

- **The calculation engine** (`src/lib/calc.ts`). Module `Calc`, file `calc.dfy`.
  - It cleans up non-finite inputs, computes the vouchers actually spent, and caps them by the eligible expenses in advanced mode.
  - It derives the cash still needed, the proportional and biased shares, and the equivalent contributions.
  - It redistributes a negative deposit onto the other partner, then rounds to cents and reconciles the rounded deposits with the rounded cash need.
  - The result also carries warnings and explanation steps.
  - `Derive` computes the unrounded intermediate figures.
  - `Calculate` builds the rounded result from them, step by step as `calculate` does.
- **Reading a number from the query string** (`src/lib/searchParams.ts`). Module `SearchParams`.
- **The input record codec** (`src/lib/inputs.ts`). Module `InputsCodec`. It covers:
  - the default inputs;
  - decoding the inputs from a query string over stored defaults;
  - the parameters of a shareable link;
  - the field-by-field `===` comparison.
- **The history panel** (`src/components/History.tsx`). Module `History`.
  - The class `HistoryPanel` holds the panel's state: entries, note, expanded set, search term and period.
  - Its methods add an entry, delete one, clear all, and toggle an entry's details.
  - The pure functions beside it give the stored snapshot, the truncated note, the capped prepend, and the search/period filter.
- **The input state hook** (`src/hooks/useInputsState.ts`). Module `InputsState`.
  - The class `InputsStore` holds the edited inputs and the last loaded inputs.
  - It provides the `isDirty` indicator and the set, reset and load operations.

JavaScript's runtime behaviour is modelled in two modules:
- `JsRuntime`: numbers as `JsNumber` (finite, NaN or an infinity), `===` on numbers, `String.prototype.trim`, and an abstract `Number()`/`String()` conversion pair.
- `Types`: the input record shared by all of the above.

Arithmetic is exact. `Math.round(x * 100) / 100` is modelled as the floor of `x * 100 + 0.5`, divided by 100.

Where the application's screens and its calculation disagree, the model follows the calculation:
- The parameters form offers a second fairness policy, `equal_leftover` (src/components/ParametersForm.tsx:105-113). The explanation card describes it as "Modèle 2 — Reste à vivre égal", equal cash left over for both partners (src/components/CalculationInfoCard.tsx:102-105). `calc.ts` reads `mode` nowhere and computes no leftovers. Every mode therefore computes the proportional split here, and `mode` is only decoded, encoded and compared.
- Rounding the two reported shares independently can make them sum to 1.01. `ReportedSharesMaySumAboveOne` shows this for a computed share of 0.125 (for example incomes 100 and 700). This concerns displayed percentages only.

## Model

| member | source | states |
|---|---|---|
| JsRuntime.StrictEqualsIsEqualityWithoutNaN | src/lib/inputs.ts:85 | `===` on numbers holds exactly when the values are equal and not NaN |
| JsRuntime.TrimStart | src/lib/searchParams.ts:8 | the result is a suffix of the text, starts with a non-space, and everything dropped is white space |
| JsRuntime.TrimEnd | src/lib/searchParams.ts:8 | the result is a prefix of the text, ends with a non-space, and everything dropped is white space |
| JsRuntime.Trim | src/lib/searchParams.ts:8 | `trim()` gives a contiguous slice of its input that neither starts nor ends with white space, and everything dropped before and after it is white space |
| JsRuntime.TrimOfTrimmed | src/lib/searchParams.ts:8 | trimming a text that neither starts nor ends with white space leaves it unchanged |
| JsRuntime.TrimIdempotent | src/lib/searchParams.ts:8 | trimming twice is trimming once |
| JsRuntime.TrimEmptyIffAllWhitespace | src/lib/searchParams.ts:8-9 | a text trims to "" exactly when every character is white space |
| JsRuntime.NumberStringRoundTrip | src/lib/inputs.ts:56-64 | for a number that reads back through its own text, `String(n)` is already trimmed and non-blank, and `Number(String(n))` is finite exactly when `n` is, and is `n` then |
| JsRuntime.SomeConversionReadsBack | src/lib/inputs.ts:56-64 | for every finite number there is a conversion pair under which it reads back, so the read-back hypothesis of the link lemmas can be met |
| Types.DisplayName | src/lib/calc.ts:23-24 | the display name is the trimmed name when that is non-blank, otherwise the placeholder |
| Types.DisplayNameIsTrimmedAndNonBlank | src/components/History.tsx:65-66 | with a trimmed non-blank placeholder, a display name is never blank and never padded |
| Types.DisplayNameWithPlaceholder | src/lib/calc.ts:23-24 | a display name built on "Partenaire A" or "Partenaire B" is never blank and never padded |
| SearchParams.ReadNumericParam | src/lib/searchParams.ts:1-12 | an absent key gives the fallback; otherwise the result is the fallback or the finite number parsed from the trimmed text; a finite fallback gives a finite result |
| SearchParams.BlankParamGivesFallback | src/lib/searchParams.ts:7-9 | a present but blank parameter gives the fallback |
| SearchParams.ParsedParamGivesNumber | src/lib/searchParams.ts:10-11 | non-blank text gives its parsed number when that is finite, and the fallback otherwise |
| SearchParams.SurroundingWhitespaceIsIrrelevant | src/lib/searchParams.ts:8 | padding around a parameter does not change the number read |
| InputsCodec.ParseMode | src/lib/inputs.ts:25-31 | exactly the two mode names select a mode; anything else keeps the default |
| InputsCodec.ParseName | src/lib/inputs.ts:34-35 | a name parameter wins even when empty; otherwise the default name, or "" when that is absent |
| InputsCodec.ParseAdvanced | src/lib/inputs.ts:42 | an absent or empty parameter keeps the default; any other text turns the flag on exactly when it is "1" |
| InputsCodec.ParseInputsFromQuery | src/lib/inputs.ts:19-47 | decoded names are always present, and NaN-free defaults give NaN-free inputs |
| InputsCodec.ParseEmptyQuery | src/lib/inputs.ts:4-47 | an empty query decodes to the defaults, with an absent default name turned into "" |
| InputsCodec.NumericFieldsFromQuery | src/lib/inputs.ts:36-44 | each of the eight numbers is its parameter's finite parsed value, or the default's value |
| InputsCodec.ShareableParams | src/lib/inputs.ts:49-66 | a link carries exactly the twelve keys, with the flag as "1"/"0" and the mode by name |
| InputsCodec.AreInputsEqual | src/lib/inputs.ts:69-86 | two records compare equal exactly when they are identical and hold no NaN |
| InputsCodec.DefaultInputsAreStable | src/lib/inputs.ts:4-17 | every default number is finite, so the defaults compare equal to themselves, and an empty query decodes to the defaults unchanged |
| InputsCodec.AreInputsEqualSymmetric | src/lib/inputs.ts:69-86 | the comparison is symmetric |
| InputsCodec.AreInputsEqualReflexive | src/lib/inputs.ts:69-86 | a record equals itself exactly when it holds no NaN |
| InputsCodec.NumberThroughLink | src/lib/inputs.ts:56-64 | a number that reads back through its text, written into a link and decoded, is itself when finite and the fallback otherwise |
| InputsCodec.LinkRestoresNames | src/lib/inputs.ts:34-55 | decoding a link restores both names as the text that was written |
| InputsCodec.LinkCarriesNumbers | src/lib/inputs.ts:56-64 | each of the eight numbers is written into the link under its own key as `String(n)` |
| InputsCodec.LinkRestoresPartnerNumbers | src/lib/inputs.ts:56-60 | when they read back through their text, the incomes and vouchers of a link come back when finite, and fall back otherwise |
| InputsCodec.LinkRestoresHouseholdNumbers | src/lib/inputs.ts:59-64 | when they read back through their text, the voucher percentage, budget, expenses and bias come back when finite, and fall back otherwise |
| InputsCodec.LinkRestoresNumbers | src/lib/inputs.ts:36-64 | when each reads back through its text, all eight numbers of a link come back when finite, and fall back otherwise |
| InputsCodec.ShareableLinkRoundTrip | src/lib/inputs.ts:19-66 | decoding a link restores names, flag and mode, and every finite number that reads back through its text |
| InputsCodec.ShareableLinkRoundTripExact | src/lib/inputs.ts:19-66 | for named inputs whose numbers are finite and read back through their text, decoding the link gives back exactly the inputs |
| Calc.Clamp | src/lib/calc.ts:63-64 | clamping stays in the bounds, keeps values inside them, and maps values outside to the nearer bound |
| Calc.R2 | src/lib/calc.ts:5-8 | `r2` gives a whole number of cents within half a cent of its argument |
| Calc.R2OfCents | src/lib/calc.ts:5-8 | `r2` leaves a whole number of cents unchanged |
| Calc.R2Monotone | src/lib/calc.ts:5-8 | `r2` is monotone |
| Calc.R2NonNegative | src/lib/calc.ts:87-88 | `r2` of a non-negative amount is non-negative |
| Calc.CentsDifference | src/lib/calc.ts:92 | the difference of two cent amounts is a cent amount |
| Calc.ToFinite | src/lib/calc.ts:11-12 | a finite input is kept; NaN and the infinities become the fallback |
| Calc.SpentFraction | src/lib/calc.ts:26 | the spent fraction lies in [0, 1] and is the percentage divided by 100 inside [0, 100] |
| Calc.EffectiveVoucher | src/lib/calc.ts:27-28 | spent vouchers lie between 0 and the non-negative gross amount: all of it at 100 %, none at 0 % |
| Calc.CapVouchers | src/lib/calc.ts:33-47 | vouchers are used in full outside advanced mode; each partner uses between 0 and their own effective amount; in advanced mode the total used is the smaller of the effective total and the eligible expenses |
| Calc.CapVouchersKeepsProportions | src/lib/calc.ts:38-42 | capping scales both partners' vouchers by the same ratio |
| Calc.ScaledByRatio | src/lib/calc.ts:39-41 | scaling by `cap / total` keeps each amount within bounds and the scaled sum equals the cap |
| Calc.RawShare | src/lib/calc.ts:57-60 | the raw share lies in [0, 1] and is 0.5 when both weights are zero |
| Calc.RawShareIsProportion | src/lib/calc.ts:60 | with positive total weight, the raw share is A's weight over the total |
| Calc.BiasShift | src/lib/calc.ts:63 | the bias shift lies in [-0.5, 0.5] and is the points divided by 100 inside [-50, 50] |
| Calc.BiasedShare | src/lib/calc.ts:64 | the biased share lies in [0, 1] |
| Calc.BiasedShareMonotone | src/lib/calc.ts:62-64 | a larger bias never lowers A's share |
| Calc.Contribution | src/lib/calc.ts:67-68 | a contribution lies between 0 and a non-negative pot, and is half of it at share 0.5 |
| Calc.ContributionMonotone | src/lib/calc.ts:67 | a larger share never gives a smaller contribution |
| Calc.Redistribute | src/lib/calc.ts:73-83 | redistribution keeps the sum and never leaves B negative; non-negative deposits are kept; a negative deposit of either partner moves onto the other |
| Calc.DriftFix | src/lib/calc.ts:90-97 | the drift correction keeps deposits non-negative and changes nothing when they do not exceed the rounded cash need |
| Calc.SafetyBounds | src/lib/calc.ts:99-109 | on non-negative deposits the safety pass only re-rounds them |
| Calc.Reconcile | src/lib/calc.ts:85-109 | reconciled deposits are non-negative; A's is the rounded clamped deposit, and they sum to the rounded cash need |
| Calc.ReconcileSum | src/lib/calc.ts:85-109 | reconciled deposits are whole cents and sum exactly to the non-negative rounded cash need |
| Calc.Coerce | src/lib/calc.ts:14-24 | each finite number is kept and NaN or an infinity becomes 0 (100 for the voucher percentage); each name is the trimmed name when non-blank, otherwise the partner's placeholder, and is never blank or padded |
| Calc.Derive | src/lib/calc.ts:26-83 | the unrounded workings: voucher bounds and sums, the pot and the cash need, shares in range summing to 1, raw deposits summing to the cash need, and redistributed deposits that are A's clamped raw deposit and its complement |
| Calc.Calculate | src/lib/calc.ts:10-165 | deposits are non-negative and sum to the rounded cash need (never below 0); with a non-negative budget the cash need is non-negative; used vouchers never exceed effective ones; there are eight steps; warnings and rounding follow the workings |
| Calc.BiasNeverLowersDepositA | src/lib/calc.ts:62-109 | raising the bias never lowers A's final deposit and never raises B's |
| Calc.BiasNeverLowersRedistributedDepositA | src/lib/calc.ts:62-83 | raising the bias never lowers A's deposit before rounding, and the cash need does not move |
| Calc.Warnings | src/lib/calc.ts:111-127 | each warning appears exactly when its condition holds: zero total weight, unused vouchers (with the unused amount), or a partner's deposit clamped at 0; no other warning appears, there are at most four, and the zero-weight one comes first |
| Calc.Steps | src/lib/calc.ts:129-144 | there are eight steps; the voucher, pot and cash lines take their advanced or basic form with the mode and show the total vouchers, the pot and the rounded cash need; the shares before bias sum to 1; the bias line favours B for a positive bias, A for a negative one, nobody at 0; the last line shows both deposits and their sum |
| Calc.ClampedPartnerPaysNothing | src/lib/calc.ts:122-127 | when a partner's deposit is reported as clamped, that partner deposits 0 and the other deposits the whole cash need |
| Calc.Normalized | src/lib/calc.ts:11-22 | replacing non-finite inputs by their fallbacks leaves no NaN |
| Calc.NonFiniteInputsFallBack | src/lib/calc.ts:11-22 | the result for inputs with NaN or infinities is the result for their fallbacks |
| Calc.ReportedSharesNearlyComplementary | src/lib/calc.ts:155-157 | the two reported shares sum to more than 0.99 and at most 1.01 |
| Calc.ReportedSharesMaySumAboveOne | src/lib/calc.ts:155-157 | when the computed share is 0.125, the two reported shares sum to 1.01 |
| Calc.OneEighthShare | src/lib/calc.ts:57-64 | weights 100 and 700 without bias give the share 0.125 |
| Calc.CashNeededCoversUncoveredExpenses | src/lib/calc.ts:49-55 | the cash need is the budget, plus in advanced mode the eligible expenses the spent vouchers do not cover, rounded to cents |
| History.Filter | src/components/History.tsx:154-160 | `filter` keeps, in order, exactly the elements satisfying the predicate, with their multiplicities |
| History.FilterKeepingAll | src/components/History.tsx:154-160 | filtering with a predicate every element satisfies changes nothing |
| History.FilterStricterIsSubsequence | src/components/History.tsx:154-160 | a stricter predicate keeps a subsequence of what a weaker one keeps |
| History.BuildResultSnapshot | src/components/History.tsx:57-67 | A's and B's deposits, the cash need and the vouchers used are copied from the result; the snapshot names are the display names, never blank and never padded |
| History.DisplayNamesAreTrimmed | src/components/History.tsx:65-66 | both display names of a record are non-blank and already trimmed |
| History.SnapshotOfCalculation | src/components/History.tsx:57-67 | the snapshot of a calculation holds non-negative deposits summing to the non-negative cash need, and the engine's display names |
| History.StoredNote | src/components/History.tsx:81 | the stored note is the trimmed note cut to at most 120 characters, kept whole when short enough |
| History.Prepend | src/components/History.tsx:87 | the new entry comes first, followed by the previous entries in order, and the list is cut to 60 |
| History.WithoutId | src/components/History.tsx:96 | deletion removes every entry with the id and keeps the others in order |
| History.WithoutAbsentId | src/components/History.tsx:96 | deleting an absent id changes nothing |
| History.Toggle | src/components/History.tsx:120-127 | toggling flips the id's membership and leaves other ids alone |
| History.ToggleTwice | src/components/History.tsx:120-127 | toggling twice restores the expanded set |
| History.FilteredItems | src/components/History.tsx:143-161 | the listed entries are, in order, exactly those matching the period and the trimmed, lower-cased search term |
| History.EverythingListedByDefault | src/components/History.tsx:147-156 | with the whole period and a blank search term, every entry is listed |
| History.ShorterPeriodListsFewer | src/components/History.tsx:147-152 | 3 months lists a subsequence of 6 months, 6 of 12, and 12 of all |
| History.HistoryPanel.constructor | src/components/History.tsx:73-77 | the panel starts from the stored entries, with empty note, nothing expanded, no search term and the whole period |
| History.HistoryPanel.EditNote | src/components/History.tsx:74 | editing the note changes only the note |
| History.HistoryPanel.EditSearchTerm | src/components/History.tsx:76 | editing the search term changes only the search term |
| History.HistoryPanel.SelectPeriod | src/components/History.tsx:77 | choosing a period changes only the period |
| History.HistoryPanel.Add | src/components/History.tsx:80-92 | adding prepends an entry with the stored note, the inputs and the snapshot, caps the list, and clears the note |
| History.HistoryPanel.Delete | src/components/History.tsx:94-105 | deleting removes the id's entries and collapses its details |
| History.HistoryPanel.ClearAll | src/components/History.tsx:107-118 | only two confirmations empty the list and the expanded set; otherwise nothing changes |
| History.HistoryPanel.ToggleDetails | src/components/History.tsx:120-127 | toggling details flips the id in the expanded set and changes nothing else |
| History.AddThenDelete | src/components/History.tsx:80-105 | adding an entry under a fresh id to a list below the cap and then deleting it restores the list |
| InputsState.InputsStore.constructor | src/hooks/useInputsState.ts:13-18 | the state starts from the stored inputs overridden by the query, which are also the last loaded inputs, so it starts unmodified |
| InputsState.InputsStore.SetInputs | src/hooks/useInputsState.ts:13 | setting replaces only the edited inputs; the state is modified exactly when they differ from the last loaded inputs or hold NaN |
| InputsState.InputsStore.UpdateInputs | src/hooks/useInputsState.ts:43 | the updater form applies the function to the current inputs; the modified flag follows as for a plain set |
| InputsState.InputsStore.ResetInputs | src/hooks/useInputsState.ts:29-33 | reset puts the defaults in both slots and leaves the state unmodified |
| InputsState.InputsStore.LoadInputs | src/hooks/useInputsState.ts:35-39 | loading puts the record in both slots; the state is modified afterwards exactly when the record holds NaN |
| InputsState.InputsStore.IsDirty | src/hooks/useInputsState.ts:24-27 | the modified flag is "the two records differ, or the edited one holds NaN" |
| InputsState.RenameThenLoad | src/hooks/useInputsState.test.tsx:31-47 | from the defaults the state is unmodified, renaming A modifies it, and loading the renamed record clears the flag |
| InputsState.QueryOverridesStoredState | src/hooks/useInputsState.test.tsx:22-29 | a finite number in the query overrides the stored value of its field |

## Left out

- IEEE-754 doubles are not modelled. Numbers are exact reals, so `r2` has no binary representation error, and products and sums do not round.
- The text of warnings and steps is not modelled: the French wording, `toFixed(1)` and the template literals. Each warning and step is a constructor that carries its figures.
  - Calc.Steps: the step figures are kept unrounded. `r2` is applied where the text would show them.
- Every fairness mode computes the proportional split, because `calc.ts` has no branch on `mode`. The equal-leftover policy the form and the explanation card present has no computation behind it.
- The `clamp` of `src/lib/format.ts` is not part of this model. It is modelled as `min(hi, max(lo, x))`.
- Storage I/O is not modelled: `loadState`, `saveState`, `loadHistory` and `saveHistory`. Stored values are constructor parameters, and saving is omitted.
  - Storage merges the stored record over the defaults; this is not modelled.
  - Fields that storage returns as `null` are not modelled.
- `InputsCodec.ParseInputsFromQuery` models the query string as a map from key to value. URL parsing, repeated keys, percent-encoding, and the link's origin and path are not modelled.
- `crypto.randomUUID`, `new Date()`, `window.confirm` and the browser services are parameters. That covers the identifier, the date, and the answers of the two confirmation dialogs.
  - The locale month label, `toLowerCase`, and the age of a date in months are functions of an `Environment`.
- History.HistoryPanel.Add does not apply the JSON copy to the inputs it stores. That copy turns NaN and the infinities into `null`. The model keeps the record as given.
- `onRequestClearAll`, focusing and scrolling the note field, and all rendering are left out.
- `src/hooks/useSharing.ts` and `src/hooks/useDocumentLang.ts` are not part of this model.
- JsRuntime.NumberStringRoundTrip and the link lemmas of `InputsCodec` assume that `Number(String(n))` gives back each number of the record (`ReadsBack`). JavaScript guarantees this for every double; the model's numbers are reals, and `String()` is abstract, so this is a hypothesis per value.
- Trim and `slice` count characters here, not UTF-16 code units. White space is the set of characters `IsWhitespace` lists.
- The hook's "persists inputs on change" test concerns storage I/O and is left out with it. The reset test is covered by `InputsState.InputsStore.ResetInputs`.
