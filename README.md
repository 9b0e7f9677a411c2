# Market phase scoring engine — a Dafny model

This project models the per-cycle market-phase pipeline of a crypto
dashboard backend. The backend has two near-identical handler variants:
`index-data.js` (called `Plain` here) and `pages/api/index-data.js` (called
`Retrying` here, because only it retries failed fetches). Each refresh cycle
does the following:

- It resolves the asset universe. The market-cap ranked coin list is
  intersected with the base assets of USDT-quoted perpetual futures, and the
  stablecoin denylist is dropped.
- For each asset it takes the weekly anchor, which is the high and low of the
  most recent UTC-Sunday daily candle.
- It scores the asset with independent additive rules, clamps the score to
  [1, 10], and classifies it into one of five ordered phases.
- It compares the new phase with the stored one, and prepends an alert to a
  20-entry, most-recent-first log when the phase changed.
- It updates the stored score and phase, and emits one ranking row per asset.

Modules and files:

- `scoring.dfy` (`Scoring`): `computeScore`. JavaScript NaN is the `NaN`
  case of `Num`. Every comparison with NaN is false, so the `!isNaN` guards of
  the second variant change nothing, and one function serves both variants.
- `phases.dfy` (`Phases`): `phaseText`, the severity rank and the labels.
- `weekly.dfy` (`Weekly`): UTC weekday arithmetic and `getLastSundayMaxMin`.
  The backward scan is a method, proved against a specification function.
- `universe.dfy` (`AssetUniverse`): both variants' filter/map chains, shown
  equal to one reference filter.
- `fetcher.dfy` (`Fetcher`): `fetchWithRetry`, written over an abstract
  sequence of attempt answers.
- `pipeline.dfy` (`Pipeline`): the per-asset step and the whole cycle as
  functions of the stored state, with the variant as a parameter.
- `store.dfy` (`Store`): the class `StateStore`. It holds the `prevScores`
  and `prevPhases` maps and the alert log. Its methods update them in place,
  asset by asset, and are proved equal to the `Pipeline` functions.

The variants differ in two places, and `Variant` selects between them:

- An empty or non-list daily-candle payload. `Plain` throws there, so the
  asset becomes a `NoTrade` row. `Retrying` scores on with a NaN anchor.
- The row of a failed asset. `Plain` shows "–" for the price and the score,
  and shows the stored score only if one exists. `Retrying` shows the price,
  a score of 0, and the stored score or 0.

Notes on the code's behaviour:

- The raw score never exceeds 9.5. The `Math.min(10, ·)` clamp therefore
  never binds, and "all bullish" gives 9.5 (`Scoring.AllBullish`).
- A missing universe list (a payload with no list where one is expected)
  makes both variants answer an error, not an empty ranking
  (`Store.StateStore.Handle`).
- The backoff is 500 + 500·i ms after failed attempt i
  (`Fetcher.FetchWithRetry`).
- In the second variant a failed asset's row carries a price and a score of
  0, not placeholders (`Pipeline.FailedRow`).

`pages/api/index-data.js` is not valid JavaScript as it stands. The model
follows its evident intent:

- Lines 1–2 and 132 are markdown fences.
- Lines 45, 55 and 69 declare functions with `def`.
- Line 103 binds `minD` twice (`{max:minD, min: minD}`) and never binds
  `maxD`. The model binds the maximum to `maxD` and the minimum to `minD`,
  as in `index-data.js:114` and `index-data.js:136-137`.

## Model

| member | source | states |
|---|---|---|
| `Scoring.WeeklyTier` | pages/api/index-data.js:57-59 | The weekly rules are cumulative. Above the weekly low the tier is +3, plus 2 if also above the high. Below the low it is -2, plus 2 if also above the high. So +3 and -2 never both apply. The tier is in [-2, 5], and exactly +5 iff the price is above both levels. At the weekly low, or with a NaN low, neither +3 nor -2 applies. With a NaN high, +2 never applies. |
| `Scoring.RawScore` | index-data.js:48-61 | The accumulator before the clamp lies in [-4.5, 9.5]. It equals an independent integer half-point count divided by 2. |
| `Scoring.Tier15` | index-data.js:54-55 | The 15m tier is +2 iff RSI > 50 and price > EMA, and -2 iff RSI < 50 and price < EMA. Otherwise it is 0, so the two rules never both apply. |
| `Scoring.Tier5` | index-data.js:57-58 | The 5m tier is +1 iff RSI > 70 and price > EMA, and -1 iff RSI < 30 and price < EMA. Otherwise it is 0; with RSI between 30 and 70 it is always 0. |
| `Scoring.TierFast` | index-data.js:60-61 | The fast tier is +0.5 iff the fast RSI is below 15, and -0.5 iff it is above 85. Otherwise it is 0. |
| `Scoring.ComputeScore` | index-data.js:47-64 | The score is in [1, 10] and at most 9.5, so the upper clamp never binds. It is a multiple of 0.5. It equals the raw sum when that is at least 1, and 1 otherwise. |
| `Scoring.AllBullish` | index-data.js:50-63 | With every bullish rule true, the raw sum and the score are both 9.5. |
| `Scoring.AllBearish` | index-data.js:50-63 | With every bearish rule true and the price not above the weekly high, the raw sum is -4.5 and the score is clamped to 1. |
| `Scoring.ScoreMonotoneInPrice` | index-data.js:50-58 | With the indicators fixed, a higher price never gives a lower raw sum or a lower score. |
| `Scoring.WorkedExample` | pages/api/index-data.js:55-67 | Price 100, weekly low 90, weekly high 95, RSI15 60, EMA15 98, RSI5 40 and fast RSI 50 score 8, whatever EMA5 is. |
| `Phases.PhaseOf` | index-data.js:66-72 | The phase's rank equals the number of boundaries the score has reached: above 3.0, at least 4.9, at least 6.0, at least 8.1. |
| `Phases.PhaseMonotone` | pages/api/index-data.js:69-75 | If s1 ≤ s2, the phase of s1 ranks no higher than the phase of s2. |
| `Phases.Boundaries` | index-data.js:67-71 | 3.0 is Oversold. 4.9 is Accumulation, 6.0 is Bullish Incline and 8.1 is Overbought, each the next bracket up. Every score strictly between 3.0 and 4.9 is Bearish Incline. |
| `Phases.PhaseOnHalfGrid` | index-data.js:66-71 | On the half-point grid the brackets are: at most 3 Oversold, 3.5–4.5 Bearish Incline, 5–5.5 Accumulation, 6–8 Bullish Incline, from 8.5 Overbought. |
| `Phases.LabelInjective` | index-data.js:67-71 | Two labels are equal iff their phases are equal, so the source's string comparison of phases compares phases. |
| `Phases.RankInjective` | pages/api/index-data.js:70-74 | Two phases have the same rank iff they are the same phase, so the order is total. |
| `Weekly.UtcWeekday` | index-data.js:31-32 | The weekday of an epoch-millisecond time is in 0..6, with 0 meaning Sunday. |
| `Weekly.WeekdayAdvances` | index-data.js:31-32 | Adding one day's milliseconds advances the weekday by one, modulo 7. |
| `Weekly.CalendarFacts` | index-data.js:31-32 | Time 0 is a Thursday. 1970-01-04 and 2024-01-07 are Sundays. The weekday repeats every 7 days. |
| `Weekly.LastSundayIndex` | index-data.js:30-38 | If it finds an index, that candle is a Sunday and no later candle is. If it finds none, no candle is a Sunday. |
| `Weekly.WeeklyAnchor` | index-data.js:29-45 | The anchor is missing iff the candle list is empty. |
| `Weekly.WeeklyAnchorOf` | pages/api/index-data.js:45-46 | The anchor (the NaN pair) is missing iff the payload is not a list or is empty. |
| `Weekly.LastSundayMaxMin` | index-data.js:29-45 | The backward scan with early return computes the weekly anchor of its input. |
| `Weekly.AnchorIsLatestSunday` | index-data.js:30-37 | The anchor is the high and low of the highest-index Sunday candle. |
| `Weekly.AnchorWithoutSunday` | index-data.js:39-44 | With no Sunday in a non-empty list, the anchor is the last candle's high and low. |
| `Weekly.AnchorOfSingleSunday` | pages/api/index-data.js:47-52 | A window with exactly one Sunday candle anchors on that candle. |
| `Weekly.AnchorIgnoresLaterWeekdays` | pages/api/index-data.js:47-50 | Appending non-Sunday candles after a Sunday does not move the anchor. |
| `AssetUniverse.Upper` | index-data.js:97 | Each lower-case ASCII letter becomes its capital and every other character stays, so the length is kept and no lower-case letter is left. An upper-case string is unchanged. |
| `AssetUniverse.FutureSet` | index-data.js:87-91 | A base asset is in the futures set iff some instrument with a PERPETUAL contract and a symbol ending in USDT has it. |
| `AssetUniverse.ToAsset` | index-data.js:96-100 | An asset's symbol is the coin's upper-cased symbol, its price is the coin's price, and its trading pair is the symbol followed by "USDT". |
| `AssetUniverse.ToAssets` | pages/api/index-data.js:94 | Mapping keeps the count, and entry k is the asset of coin k. |
| `AssetUniverse.Resolve` | index-data.js:94-101 | There are no more entries than coins. Every entry's symbol is non-empty, upper-case, not a stablecoin and in the futures set, and its pair is symbol + "USDT". |
| `AssetUniverse.PlainMatchesReference` | index-data.js:94-101 | The first variant's filter, map, filter chain equals the reference filter. |
| `AssetUniverse.KeepListedCoins` | index-data.js:95 | Exactly the coins with a non-empty symbol whose upper-cased form is not a stablecoin are kept, and nothing else. |
| `AssetUniverse.KeepTradable` | index-data.js:101 | Exactly the assets whose symbol is in the futures set are kept, and nothing else. |
| `AssetUniverse.ResolvePlain` | index-data.js:94-101 | The first variant's filter, map, filter chain gives the reference resolution. |
| `AssetUniverse.KeepNamed` | pages/api/index-data.js:93 | Exactly the coins with a non-empty symbol are kept, and nothing else. |
| `AssetUniverse.KeepTradableUnstable` | pages/api/index-data.js:95 | Exactly the assets whose symbol is in the futures set and not a stablecoin are kept, and nothing else. |
| `AssetUniverse.ResolveRetrying` | pages/api/index-data.js:92-95 | The second variant's filter, map, filter chain gives the reference resolution. |
| `AssetUniverse.RetryingMatchesReference` | pages/api/index-data.js:92-95 | The second variant's chain, which checks stablecoins after mapping, equals the reference filter. |
| `AssetUniverse.VariantsAgree` | pages/api/index-data.js:86-95 | Both variants yield the same ordered asset list from the same payloads. |
| `AssetUniverse.ResolveAppend` | index-data.js:94-101 | Resolution distributes over concatenation of the ranked list, so ranking order is preserved. |
| `AssetUniverse.ResolveComplete` | index-data.js:95-101 | Every eligible coin appears in the output as its asset. |
| `AssetUniverse.ResolveSound` | index-data.js:95-101 | Every output entry is the asset of some eligible coin. |
| `AssetUniverse.StablecoinExcludedAfterUppercase` | index-data.js:95 | A coin with symbol "usdc" is dropped, because the stablecoin check applies to the upper-cased symbol. |
| `AssetUniverse.UntradableExcluded` | index-data.js:101 | A coin whose symbol is not in the futures set is left out entirely, not marked NoTrade. |
| `Fetcher.Judge` | pages/api/index-data.js:34-37 | An attempt settles iff it got status 451, or a 2xx status with a decodable body. Status 451 settles as the empty list. A 2xx with a decodable body settles as that body. Any other non-2xx status fails with that status. A settled attempt never raises. |
| `Fetcher.BackoffSchedule` | pages/api/index-data.js:40 | n failed attempts give n delays, and delay i is 500 + 500·i ms. |
| `Fetcher.FetchWithRetry` | pages/api/index-data.js:31-43 | It makes at most retries + 1 attempts, and every attempt but the last failed. It stops only when an attempt settles or when attempt `retries` has been made, so a failure is retried while budget remains. A settling attempt's result is returned without further attempts: a 451 gives `[]`, a success gives its body. It raises iff every attempt failed, and then re-raises the last attempt's error. The delay after failed attempt i is 500 + 500·i ms. |
| `Fetcher.Backoff` | pages/api/index-data.js:40 | The pauses strictly increase: the pause after failed attempt i is longer than after any earlier attempt. |
| `Fetcher.TotalBackoff` | pages/api/index-data.js:40 | n retried failures wait 250·n·(n+1) ms in total. |
| `Fetcher.DefaultBudgetWaits` | pages/api/index-data.js:31-40 | With the default budget of 2 retries, the total wait is 1500 ms. |
| `Pipeline.LogPush` | index-data.js:146-154 | The new alert is at index 0 and the older entries follow in order. Below capacity the log grows by one. At capacity the oldest entry is evicted. A log of at most 20 stays at most 20. |
| `Pipeline.AssetScore` | pages/api/index-data.js:101-113 | A score exists iff the fetches succeeded and, in the first variant, the daily payload gave an anchor (index-data.js:40-43 throws otherwise). The score is `ComputeScore` of the price and the sample's indicators, with a missing anchor as NaN, and lies in [1, 10]. |
| `Pipeline.IndicatorsOf` | pages/api/index-data.js:103-113 | The weekly maximum binds to maxD and the minimum to minD (the intended reading of line 103). A missing anchor makes both NaN. The other indicators pass through unchanged. |
| `Pipeline.StoredOrZero` | pages/api/index-data.js:100 | It gives the stored score if one exists, else 0. In a valid store it is 0 iff nothing is stored, because stored scores are at least 1 (as `prevScores[sym] || 0` at index-data.js:158 also relies on). |
| `Pipeline.FailedRow` | index-data.js:172-181 | A failed asset's row carries its symbol and NoTrade. In the first variant price and score are "–" and the previous score is the stored one if it exists, else "–". In the second variant (pages/api/index-data.js:99-100,123) the row carries the price, score 0 and the stored score or 0. |
| `Pipeline.Step` | index-data.js:134-170 | On failure: the failed row, no alert, and no change to the state. On success: the new score and its phase are stored, and the row shows the previously stored score or 0. An alert fires iff a stored phase exists and differs from the new one; it carries the symbol, old phase, new phase, price and score, and is pushed onto the log. The store invariant is kept. |
| `Pipeline.Cycle` | index-data.js:109-184 | Exactly one row per asset, in asset order. The store invariant, including the log bound of 20, is kept. |
| `Pipeline.CycleRowAt` | pages/api/index-data.js:98-125 | Row k is asset k's step against the state that the earlier assets of the cycle left. |
| `Pipeline.CycleLeavesOthers` | index-data.js:157-170 | The stored score and phase of a symbol that no asset of the cycle carries are unchanged. |
| `Pipeline.CycleLogIsRecentWindow` | pages/api/index-data.js:115-119 | After a cycle the log is the alerts fired in the cycle, newest first, followed by the earlier log, cut to 20 entries. |
| `Pipeline.FirstObservationIsSilent` | pages/api/index-data.js:115-116 | A symbol with no stored phase never raises an alert. |
| `Pipeline.Universe` | index-data.js:83-101 | The universe is resolved iff both upstream lists are present. Either variant then gives the reference resolution. |
| `Store.StateStore.constructor` | index-data.js:76-78 | A cold start has empty score and phase maps and an empty log. |
| `Store.StateStore.ProcessAsset` | index-data.js:110-181 | The in-place read-modify-write of the maps, the unshift and pop of the log, and the emitted row equal `Pipeline.Step`. The store invariant is kept. |
| `Store.StateStore.RunCycle` | pages/api/index-data.js:97-125 | The loop over assets leaves the state and returns the rows that `Pipeline.Cycle` gives. |
| `Store.StateStore.Handle` | index-data.js:80-194 | A missing upstream list answers an error and leaves the state untouched. Otherwise the answer is the cycle's rows plus the resulting log. |

## Left out

- `calcEMA` and `calcRSI` are left out. Their floating-point results, including NaN on short inputs, enter scoring as opaque `Num` inputs.
- Network calls, JSON decoding and HTTP responses are left out. Each asset's candle fetches and indicator computations are reduced to a `Feed`: a `Sample`, or nothing when something raised. How the four candle fetches combine into a `Feed` is not modelled. Neither is the first variant's unchecked `fetch(...).then(r => r.json())`.
- `setTimeout` pacing between assets and retries is left out. The retry policy returns its delays instead of sleeping.
- The `toLocaleTimeString` timestamp of alerts is left out, so `Alert` has no time.
- `toFixed` formatting and string-to-number parsing are left out. Prices, scores, highs and lows are already-parsed reals.
- Infinite and null prices are left out, because prices are reals. Two consequences of a null price are therefore not modelled:
  - In the first variant, `a.price.toFixed` throws after the maps and the log were written (index-data.js:158-163), so the asset gets a NoTrade row despite the partial update.
  - In the second variant, `a.price.toFixed` at pages/api/index-data.js:123 throws outside the per-asset `try`, after lines 116-121 wrote the log and the maps. The whole call then answers 500 with the state already changed.
- `Store.StateStore.Handle` models handler calls one at a time. Express mounts the handler (pages/index.js:11), and the code does not serialize calls, so two refreshes can interleave at their `await`s and update the shared maps and log in between. With overlapping calls, a second-variant row's previous score, read at pages/api/index-data.js:100 before the awaits, can differ from what `Pipeline.Step` gives.
- `Store.Response.Ranking` omits the second variant's constant `formula` field (pages/api/index-data.js:127). It carries no data from the cycle.
- `toUpperCase` is modelled on ASCII letters only.
- The thresholds 4.9 and 8.1 are exact decimals in the model. Scores lie on the half-point grid, so the nearby binary doubles classify every score the same way.
- The module-level `handler.prevScores ||= {}` state is modelled as an explicit `StateStore` object passed to each cycle.
- The React dashboard (index.js), the server wiring (pages/index.js) and the app wrapper (pages/_app.js) are left out. They are presentation and transport.
