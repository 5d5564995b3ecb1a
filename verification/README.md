# Keplr wallet main page: portfolio totals, chart weights, telemetry gate and search box

This project models the decision logic of the Keplr extension's main page
(`MainPage` in `packages/extension/src/pages/main/index.tsx`) as pure Dafny
functions over immutable data, and proves what that logic promises:

- **Portfolio totals** (`Portfolio`): the four `useMemo` loops that sum
  optional fiat prices over balance records. "Available" uses all known
  balances. "Staked" uses delegations and then unbondings, in one
  accumulator. Each has an "embed-only" variant that skips records of
  chains the user added. A record without a price is skipped. A total over
  no priced record is absent, never zero. A record priced zero still makes
  the total present.
- **Readiness** (`PageState`): the page is not ready while the first
  chain's RPC status query has neither a response nor an error.
- **Chart weights** (`ChartWeights`): the two weights of the donut chart.
  Not ready gives (0, 0). Ready in privacy mode gives a one-hot marker of
  the selected tab. Otherwise each weight is its total, and an absent
  total counts as 0.
- **Telemetry change gate** (`TelemetryGate`): the effect that sends
  `user_properties`. It keeps the last "ambiguous average" bucket of each
  embed-only total, both starting at the sentinel -1. It sends one event
  when either bucket changed, and then stores the new buckets in every
  case.
- **Search box** (`SearchBox`, `SearchSession`): the input's change
  handler, JavaScript `trim()`, the effect that clears the text when the
  tab or readiness changes, and the one-shot "search used" log driven by
  the `isEnteredSearch` flag.

Prices are exact non-negative integers (`nat`). The bucketing function
`amountToAmbiguousAverage` is a function parameter whose result type
excludes -1. Its definition is not part of this model.

An absent total maps to bucket 0 without calling
`amountToAmbiguousAverage` (index.tsx:201-206); `TelemetryGate.Bucket`
does the same.

## Model

| member | source | states |
|---|---|---|
| `Portfolio.AddPrice` | packages/extension/src/pages/main/index.tsx:94-100 | one loop iteration: the result is absent only if the accumulator and the price are both absent; otherwise it is their sum, an absent side counting as 0 |
| `Portfolio.Accumulate` | packages/extension/src/pages/main/index.tsx:93-101 | the price loop: the result is absent iff the start is absent and no record has a price; a present start never decreases |
| `Portfolio.AccumulateEmbedOnly` | packages/extension/src/pages/main/index.tsx:106-117 | the loop with `continue` for non-embedded chains: a present start never decreases; no priced record from an absent start stays absent |
| `Portfolio.AvailableTotalPrice` | packages/extension/src/pages/main/index.tsx:91-103 | the available total equals the reference total: absent when no record is priced, else the sum of the priced records' prices |
| `Portfolio.AvailableTotalPriceEmbedOnly` | packages/extension/src/pages/main/index.tsx:104-119 | the embed-only available total equals the reference total of the embedded subsequence |
| `Portfolio.StakedTotalPrice` | packages/extension/src/pages/main/index.tsx:132-153 | folding delegations and then unbondings into one accumulator gives the reference total of `delegations ++ unbondings` |
| `Portfolio.StakedTotalPriceEmbedOnly` | packages/extension/src/pages/main/index.tsx:154-183 | the embed-only staked total is the reference total of the embedded records of `delegations ++ unbondings` |
| `Portfolio.AccumulateMatchesReference` | packages/extension/src/pages/main/index.tsx:91-103 | the left-to-right loop from any accumulator equals that accumulator combined with the reference total |
| `Portfolio.AccumulateEmbedOnlyFilters` | packages/extension/src/pages/main/index.tsx:104-119 | skipping non-embedded records in the loop is the plain loop over the embedded subsequence |
| `Portfolio.TotalAbsentIffNoPriced` | packages/extension/src/pages/main/index.tsx:91-103 | the total is absent iff no record has a price, and a present total is the sum of the priced records |
| `Portfolio.ZeroPricedCountsAsPresent` | packages/extension/src/pages/main/index.tsx:94-100 | the total is a present zero iff some record is priced and every priced record is priced zero |
| `Portfolio.AllEmbeddedKeepsTotal` | packages/extension/src/pages/main/index.tsx:104-119 | when every chain is embedded, the embed-only total equals the full total |
| `Portfolio.EmbedOnlyBoundedByTotal` | packages/extension/src/pages/main/index.tsx:91-119 | a present embed-only total implies a present full total that is at least as large |
| `Portfolio.PricedTotalAppend` | packages/extension/src/pages/main/index.tsx:132-153 | the total of a concatenation combines the totals of the two parts |
| `Portfolio.StakedTotalCombinesParts` | packages/extension/src/pages/main/index.tsx:132-153 | the staked total combines the delegations' and unbondings' totals, and is absent iff neither has a priced record |
| `Portfolio.StakedEmbedOnlyFilters` | packages/extension/src/pages/main/index.tsx:154-183 | the embed-only staked total is the total of the embedded delegations followed by the embedded unbondings |
| `PageState.ReadyIffSettled` | packages/extension/src/pages/main/index.tsx:62-69 | the page is ready iff the status query has a response or an error; a failed query counts as ready |
| `ChartWeights.AvailableChartWeight` | packages/extension/src/pages/main/index.tsx:120-131 | 0 when not ready; when ready in privacy mode, 1 iff the "available" tab is selected, else 0; otherwise the available total, absent as 0 |
| `ChartWeights.StakedChartWeight` | packages/extension/src/pages/main/index.tsx:184-195 | 0 when not ready; when ready in privacy mode, 1 iff the "staked" tab is selected, else 0; otherwise the staked total, absent as 0 |
| `ChartWeights.ChartFollowsPriority` | packages/extension/src/pages/main/index.tsx:120-195 | the two weight expressions implement the priority rule: readiness, then privacy mode, then the totals |
| `ChartWeights.NotReadyChartIsEmpty` | packages/extension/src/pages/main/index.tsx:120-195 | while not ready both weights are 0, whatever the privacy mode, tab and totals |
| `ChartWeights.PrivacyModeChartIsOneHot` | packages/extension/src/pages/main/index.tsx:120-195 | ready in privacy mode, the weights sum to 1 and the first is 1 iff the tab is "available" |
| `ChartWeights.PlainChartShowsTotals` | packages/extension/src/pages/main/index.tsx:120-195 | ready with privacy mode off, the weights are the totals with absent as 0, so two absent totals give (0, 0) |
| `TelemetryGate.Evaluate` | packages/extension/src/pages/main/index.tsx:197-227 | not ready: nothing sent and the buckets are unchanged; ready: the new buckets are stored unconditionally, an event is sent iff they differ from the stored ones, and it carries the new buckets and the key's id and type |
| `TelemetryGate.FirstReadyEvaluationEmits` | packages/extension/src/pages/main/index.tsx:197-210 | from the -1 sentinels, the first ready evaluation always sends, even with both totals absent |
| `TelemetryGate.ReevaluationIsSilent` | packages/extension/src/pages/main/index.tsx:207-224 | re-evaluating with the same inputs sends nothing and changes nothing |
| `TelemetryGate.MissingKeyStillEmits` | packages/extension/src/pages/main/index.tsx:211-221 | with no selected key the event is sent exactly when it would be sent with any key, the stored buckets are the same, and the id and key type are absent |
| `TelemetryGate.RunEmitsOncePerChange` | packages/extension/src/pages/main/index.tsx:197-227 | over any sequence of evaluations, the events are exactly the ready evaluations whose bucket pair differs from the previous ready pair (the first ready one always emits), each carrying that pair, so their number is the number of changes; the stored pair ends as the last ready pair |
| `TelemetryGate.NotReadyRunIsSilent` | packages/extension/src/pages/main/index.tsx:199-225 | evaluations while not ready send nothing and leave the stored buckets alone |
| `SearchBox.LeadingWhitespace` | packages/extension/src/pages/main/index.tsx:504 | the count is at most the length, every counted leading character is whitespace, and the next character, if any, is not |
| `SearchBox.TrailingWhitespace` | packages/extension/src/pages/main/index.tsx:504 | the count is at most the length, every counted trailing character is whitespace, and the character before them, if any, is not |
| `SearchBox.Trim` | packages/extension/src/pages/main/index.tsx:504 | `trim()` is the contiguous slice of the input after its leading whitespace with only whitespace outside it; it is empty iff every character is JavaScript whitespace, and otherwise starts and ends with non-whitespace |
| `SearchBox.OnSearchChange` | packages/extension/src/pages/main/index.tsx:499-526 | the text is always the input; the flag becomes true iff the input has a non-whitespace character, and otherwise it is kept; an animation from the current offset to 218 starts iff the input has a term and the container exists with offset below 218 |
| `SearchBox.ClearSearchEffect` | packages/extension/src/pages/main/index.tsx:235-247 | on a ready page showing the "available" tab the text is cleared, otherwise nothing changes; the flag is always kept |
| `SearchBox.WhitespaceInputIsInert` | packages/extension/src/pages/main/index.tsx:504-526 | whitespace-only input sets the text and changes neither the flag nor the scroll |
| `SearchBox.TermAtTopScrollsToTarget` | packages/extension/src/pages/main/index.tsx:509-525 | any input with a non-whitespace character, leading whitespace included, typed at offset 0 animates to 218 and sets the flag; at offset 218 no animation starts |
| `SearchSession.Mount` | packages/extension/src/pages/main/index.tsx:233-247 | the page mounts on the "available" tab with empty text and the flag unset |
| `SearchSession.Step` | packages/extension/src/pages/main/index.tsx:233-255 | the flag never resets; "search used" is logged iff the flag was just set, and only by a keystroke with a term; keystrokes do nothing while the input is hidden; animations target 218 and come only from keystrokes |
| `SearchSession.SearchUsedLoggedOnce` | packages/extension/src/pages/main/index.tsx:248-255 | over any sequence of events the flag never resets, and "search used" is logged exactly once if the flag got set, else never |
| `SearchSession.SwitchAwayAndBackClears` | packages/extension/src/pages/main/index.tsx:235-247 | on a ready page, going to "staked" keeps the search, and coming back to "available" clears the text and keeps the flag |
| `SearchSession.BecomingReadyClears` | packages/extension/src/pages/main/index.tsx:235-247 | the page becoming ready on the "available" tab clears the text and keeps the flag |
| `SearchSession.SameTabKeepsSearch` | packages/extension/src/pages/main/index.tsx:235-247 | selecting the tab already shown changes nothing, because the effect's dependencies did not change |

## Left out

- Rendering: JSX, modals, skeletons, styled components, icons, localized strings and the chart's `highlight`. They are view only.
- React and MobX reactivity: `observer`, `useMemo`, effect dependency lists and the `useRef` callback indirection. Recomputation is modelled by calling the pure function again. `ReevaluationIsSilent` shows that an extra evaluation of the telemetry effect is harmless.
- Selection of the first chain's status query (`chainStore.chainInfos[0]`): the query is an input to `PageState.IsNotReady`.
- Side effects: `sendMessage`, `analyticsStore.logEvent`, `browser.tabs.create`, input focus and `setIsNotReady`. They are foreign I/O. An emission is a returned value or flag.
- The debounced search-term log (index.tsx:256-270): it depends on a 1000 ms timer.
- The spring animations: the search scroll is modelled as the start and end offsets of the animation it starts. The frames that write `scrollTop` and the privacy-mode hover animation (index.tsx:272-279, 348-393) are not modelled.
- `Number.parseFloat(toDec().toString())` and `PricePretty.add`: these use floating point and currency handling from a library that is not part of this model. Prices are exact `nat`, so `AvailableChartWeight` and `StakedChartWeight` return the exact total, not its float rounding.
- `amountToAmbiguousAverage`: its definition is not part of this model. It is a parameter, and the only assumption is that it never returns -1.
- Scroll offsets are exact `real`s. A missing scroll container is `None`.

