# Future Fund core, modelled in Dafny

This project models the data logic that Future Fund runs inside its UI components and its prediction service. Future Fund is a crowdfunding marketplace whose startups carry a predicted success score. The project models:

- **Heuristic scorer** (module `Heuristic`, `marketplace.dfy`). Each on-chain campaign becomes a startup record. The record holds a funding ratio, the days remaining, an urgency boost, a clamped and rounded score and confidence, and a six-factor breakdown. The module also computes the 12-month investment insights for the selected startup.
- **Prediction panel** (module `PredictionPanel`, `prediction_panel.dfy`):
  - the fallbacks for the shown score, confidence and factor weights;
  - the three-scenario profit projection over months 0..12;
  - the synthetic candle series. This is a loop threading the previous close, modelled as a method proved against the recursive function `CandleRun`.
- **Marketplace list filter** (module `StartupList`, `startup_list.dfy`). It combines a case-insensitive title search, a sector choice where `''` and `"All"` are wildcards, and a minimum success score.
- **Startup card** (module `StartupCard`, `startup_card.dfy`). It picks the logo from the first keyword group found in the title, and caps the funding progress bar at 100.
- **Invest wizard** (module `Invest`, `invest_modal.dfy`). This is a class with the wizard's state fields:
  - step 1 enters an amount, step 2 previews it, step 3 confirms;
  - the timer body that completes an investment is the method `CompleteInvest`;
  - investing mutates the startup's `raised` in place.
- **Prediction service tables** (module `Backend`, `backend.dfy`). A class owns the startup and prediction lists, modelled as `seq` fields. It provides a lookup by id, the 404 guards, the record-building and upsert step of the background prediction task, and the webhook loop that patches `txHash` on the first matching record.

Shared helpers:

- `Wrappers` provides `Option` and `Result`.
- `RealMath` provides the JavaScript operations used:
  - `Math.round` as `floor(x + 0.5)`;
  - `+x.toFixed(2)` as rounding to hundredths, with halves rounded away from 0 (`toFixed` formats a negative number as a minus sign before its magnitude);
  - `Math.min`, `Math.max` and `Math.abs`.
- `Text` provides ASCII `toLowerCase` and `includes`.

Numbers are Dafny `real`s. The inputs that the source reads from outside are parameters:

- `Date.now()` → `now`;
- `Math.random()` → a sequence of draws in [0,1);
- the wallet's connection state → `isConnected`;
- SHA-256 digests → `digest`;
- `uuid4()` → `intentId`;
- `time.time()` → `now`;
- the quantum predictor's result → `QuantumResult`.

The funding ratio `Math.min(1, raised / goal)` is only capped at 1, not clamped below, so it lies in [0,1] only when the amount raised is not negative (`Heuristic.FundingRatio`).

## Model

| member | source | states |
|---|---|---|
| Heuristic.FundingRatio | client/src/pages/Marketplace.jsx:26 | a goal ≤ 0 gives 0 without dividing; otherwise raised/goal, capped at 1 once raised reaches the goal; in [0,1] whenever raised ≥ 0 |
| Heuristic.DaysRemaining | client/src/pages/Marketplace.jsx:27 | never negative; 0 exactly when less than one whole day remains; otherwise the number of whole days left (floor of the remaining milliseconds over a day) |
| Heuristic.UrgencyBoost | client/src/pages/Marketplace.jsx:28 | the boost is either 0 or 0.05; when each applies is stated by `UrgentIffDeadlineNear` |
| Heuristic.UrgentIffDeadlineNear | client/src/pages/Marketplace.jsx:27-28 | the boost is 0.05 exactly when less than 14 days of milliseconds remain, and 0 otherwise |
| Heuristic.Score | client/src/pages/Marketplace.jsx:29 | the score is in [5,95]; for ratio in [0,1] and a boost in [0,0.05] it is in [25,76] and equals the rounding of the unclamped formula, so the clamp never binds |
| Heuristic.Confidence | client/src/pages/Marketplace.jsx:30 | the confidence is in [40,95]; for ratio in [0,1] it is in [60,90] and the clamp never binds |
| Heuristic.ScoreMonotone | client/src/pages/Marketplace.jsx:29-30 | a larger funding ratio never lowers the score or the confidence |
| Heuristic.BreakdownBounds | client/src/pages/Marketplace.jsx:43-50 | for ratio in [0,1]: team in [0.20,0.40], traction in [0.15,0.50], financials in [0.10,0.20]; market, innovation and execution are 0.15, 0.20 and 0.10 |
| Heuristic.FactorBreakdown | client/src/pages/Marketplace.jsx:43-50 | no contract of its own; its bounds and fixed weights are stated by `BreakdownBounds` |
| Heuristic.ToStartup | client/src/pages/Marketplace.jsx:23-56 | id is `pId`, falling back to the index; owner copied; sector "General"; goal, raised, title, tagline and metadata hash copied; time `now`, version "Heuristic-1.0", ipfsHash the image or "" |
| Heuristic.StartupPredictionBounds | client/src/pages/Marketplace.jsx:24-50 | for a non-negative amount raised, the record's score is in [25,76], its confidence in [60,90], and its weights within their ranges |
| Heuristic.NoGoalPrediction | client/src/pages/Marketplace.jsx:26-30 | a goal ≤ 0 gives confidence 60, and score 26 inside the 14-day window, 25 outside it |
| Heuristic.MapCampaigns | client/src/pages/Marketplace.jsx:236-269 | one record per campaign, in order, each being `ToStartup` of that campaign at its index; the refresh at 236-269 is the same mapping as the load at 23-56, so this one function serves both |
| Heuristic.HeuristicRecordShownAsIs | client/src/components/PredictionPanel.jsx:38-47 | a heuristic record is shown with its own score and confidence, and each of the six factors (team, traction, market, innovation, financials, execution) with its own weight; no default applies |
| Heuristic.InvestmentInsights | client/src/pages/Marketplace.jsx:157-160 | the expected value equals the average figure |
| Heuristic.YearlyReturn | client/src/pages/Marketplace.jsx:157-159 | no contract of its own; `investAmount * roi * prob` is tied to the projection by `YearlyReturnIsHorizonProfit` |
| Heuristic.YearlyReturnIsHorizonProfit | client/src/pages/Marketplace.jsx:153-157 | the insights' `amount * roi * prob` equals the projection's unrounded profit at month 12 |
| Heuristic.InsightsAreMonthTwelve | client/src/pages/Marketplace.jsx:152-160 | low, avg and high are the low, average and high projection series at month 12 for the same score fallback |
| Heuristic.InsightsOrdered | client/src/pages/Marketplace.jsx:157-159 | for a non-negative amount and score, 0 ≤ low ≤ avg ≤ high |
| PredictionPanel.ShownScore | client/src/components/PredictionPanel.jsx:38 | score, else prediction, else 0 |
| PredictionPanel.ShownConfidence | client/src/components/PredictionPanel.jsx:39 | confidence, else 0 |
| PredictionPanel.PredictionFactors | client/src/components/PredictionPanel.jsx:40-48 | six factors in fixed order, each with the record's weight when present and otherwise its default 0.25, 0.20, 0.12, 0.18, 0.15, 0.10 |
| PredictionPanel.EmptyPredictionShown | client/src/components/PredictionPanel.jsx:38-47 | a startup without a record shows score 0, confidence 0 and all default weights |
| PredictionPanel.ProfitAtHorizon | client/src/components/PredictionPanel.jsx:97 | at month 12 the unrounded profit is `investment * roi * prob` |
| PredictionPanel.Profit | client/src/components/PredictionPanel.jsx:97 | the unrounded profit is 0 at month 0; its value at month 12 is stated by `ProfitAtHorizon` and its growth by `ProfitMonotone` |
| PredictionPanel.ProjectedProfit | client/src/components/PredictionPanel.jsx:97 | the shown point is within half a hundredth of the unrounded profit and is 0 at month 0; its growth is stated by `ProjectedProfitMonotone` |
| PredictionPanel.Series | client/src/components/PredictionPanel.jsx:92-97 | one point per month 0..12, and month 0 is 0 |
| PredictionPanel.Project | client/src/components/PredictionPanel.jsx:94-97 | three series of 13 points, each 0 at month 0 |
| PredictionPanel.ProfitMonotone | client/src/components/PredictionPanel.jsx:97 | for non-negative inputs, the unrounded profit is non-negative and grows with the month and with the return |
| PredictionPanel.ProjectedProfitMonotone | client/src/components/PredictionPanel.jsx:97 | the same holds after rounding to hundredths |
| PredictionPanel.SeriesNonDecreasing | client/src/components/PredictionPanel.jsx:97 | for investment, return and score ≥ 0, each series is non-negative and non-decreasing in the month |
| PredictionPanel.ProjectionOrdered | client/src/components/PredictionPanel.jsx:92-97 | for investment and score ≥ 0, 0 ≤ low[m] ≤ average[m] ≤ high[m] at every month, and each series is non-decreasing |
| PredictionPanel.Targets | client/src/components/PredictionPanel.jsx:130-133 | 13 targets with the month-0 target 0; all non-negative for non-negative inputs |
| PredictionPanel.Volatility | client/src/components/PredictionPanel.jsx:134 | in [0.1,0.3] for a confidence in [0,100]; 0.1 at 100 and 0.3 at 0 |
| PredictionPanel.VolatilityDecreasing | client/src/components/PredictionPanel.jsx:134 | a higher confidence never gives a higher volatility |
| PredictionPanel.Seed | client/src/components/PredictionPanel.jsx:137 | the first open is the first target or, when that is 0, 2% of the investment |
| PredictionPanel.SeedIsFloor | client/src/components/PredictionPanel.jsx:133-137 | the first open is always the floor `investment * 0.02`, because the month-0 target is 0 |
| PredictionPanel.Noise | client/src/components/PredictionPanel.jsx:141 | no contract of its own; its bound of half the volatility times max(target, open) is stated by `WickBound` |
| PredictionPanel.NextCandle | client/src/components/PredictionPanel.jsx:139-145 | a bar opens at the previous close; its close and low are ≥ 0; its high is ≥ both ends of the body; for a non-negative open its low is ≤ both ends |
| PredictionPanel.WickBound | client/src/components/PredictionPanel.jsx:141-144 | for a draw in [0,1), each wick extends beyond the body by at most half the volatility times max(target, open) |
| PredictionPanel.CandleRun | client/src/components/PredictionPanel.jsx:138-147 | one candle per target; its continuity and OHLC order are stated by `CandleRunShape` |
| PredictionPanel.CandleRunShape | client/src/components/PredictionPanel.jsx:138-147 | the threaded bars are continuous from the seed and OHLC-ordered; for a non-negative seed every low is under its body |
| PredictionPanel.CandleSeries | client/src/components/PredictionPanel.jsx:130-147 | 13 bars |
| PredictionPanel.SynthesizeCandles | client/src/components/PredictionPanel.jsx:136-147 | the loop builds exactly `CandleSeries`: 13 bars, the first opening at `investment * 0.02`, each later one at the previous close, every close and low ≥ 0 and every high ≥ the body, and for investment ≥ 0 every low ≤ the body |
| StartupList.PredictionScore | client/src/components/StartupList.jsx:14 | no prediction gives score 0; otherwise the prediction's score, which may be missing |
| StartupList.MatchesSearch | client/src/components/StartupList.jsx:12 | no contract of its own; stated by `SearchIsSubstring` and `SearchIgnoresCase` |
| StartupList.MatchesSector | client/src/components/StartupList.jsx:13 | no contract of its own; stated by `SectorWildcards` |
| StartupList.MatchesSuccess | client/src/components/StartupList.jsx:14-15 | no contract of its own; stated by `KeptScoresReachMinimum` |
| StartupList.Keep | client/src/components/StartupList.jsx:17 | no contract of its own; the conjunction of the three tests, stated through `FilterMembership` |
| StartupList.Filter | client/src/components/StartupList.jsx:11-18 | no longer than the input, and every kept startup is in the input and passes all three tests |
| StartupList.FilterIsSubsequence | client/src/components/StartupList.jsx:11 | the result is an order-preserving subsequence of the input |
| StartupList.FilterMembership | client/src/components/StartupList.jsx:11-17 | a startup is in the result exactly when it is in the input and it passes the search, sector and success tests |
| StartupList.KeptScoresReachMinimum | client/src/components/StartupList.jsx:14-15 | every kept startup has a score ≥ the minimum; one kept without a prediction means the minimum is ≤ 0 |
| StartupList.FilterIdempotent | client/src/components/StartupList.jsx:11-18 | filtering twice gives the same result as filtering once |
| StartupList.AllKept | client/src/components/StartupList.jsx:11-18 | when every startup passes, the result is the input |
| StartupList.OpenQueryKeepsAll | client/src/components/StartupList.jsx:5-18 | an empty search, no sector and a minimum ≤ 0 keep every startup whose score is present and ≥ 0, so the output equals the input |
| StartupList.EmptySearchMatches | client/src/components/StartupList.jsx:12 | the empty search term matches every title |
| StartupList.SearchFindsOccurrence | client/src/components/StartupList.jsx:12 | a matching search has a position where the lower-cased term occurs in the lower-cased title |
| StartupList.OccurrenceMatches | client/src/components/StartupList.jsx:12 | an occurrence of the lower-cased term at any position of the lower-cased title makes the search match |
| StartupList.SearchIsSubstring | client/src/components/StartupList.jsx:12 | the search holds exactly when the lower-cased term occurs at some position of the lower-cased title |
| StartupList.SearchIgnoresCase | client/src/components/StartupList.jsx:12 | lower-casing the title or the term first does not change the outcome |
| StartupList.SectorWildcards | client/src/components/StartupList.jsx:13 | '' and "All" match every sector; any other selection matches exactly the equal sector |
| StartupCard.MatchesAnyIff | client/src/components/StartupCard.jsx:14-17 | a keyword alternation holds exactly when one of its words occurs in the text |
| StartupCard.MatchesAny | client/src/components/StartupCard.jsx:14-17 | no contract of its own; stated by `MatchesAnyIff` |
| StartupCard.LogoText | client/src/components/StartupCard.jsx:13 | a missing title becomes ""; otherwise the lower-cased title |
| StartupCard.PickLogo | client/src/components/StartupCard.jsx:12-19 | each logo is chosen exactly when its group matches and no earlier group does, in the order eco/energy, health/chain, learning, finance, generic |
| StartupCard.NoTitleIsGeneric | client/src/components/StartupCard.jsx:13-18 | a missing or empty title gives the generic logo |
| StartupCard.PickLogoIgnoresCase | client/src/components/StartupCard.jsx:13 | lower-casing the title first does not change the logo |
| StartupCard.EcoBeatsChain | client/src/components/StartupCard.jsx:14-15 | "green chain" matches the health group too, yet shows the sun |
| StartupCard.PercentRaised | client/src/components/StartupCard.jsx:10 | raised/goal·100 for a non-zero goal; for a zero goal, +Infinity, -Infinity or NaN as raised is positive, negative or zero |
| StartupCard.BarWidth | client/src/components/StartupCard.jsx:49 | never above 100; equal to the percentage when that is ≤ 100; 100 above it and for +Infinity; NaN and -Infinity pass through |
| StartupCard.BarWidthPositiveGoal | client/src/components/StartupCard.jsx:10-49 | for goal > 0 the width is min(raised/goal·100, 100), and in [0,100] for raised ≥ 0 |
| Invest.HexDigit | client/src/components/InvestModal.jsx:53 | a value below 16 becomes a lower-case hex digit that reads back as the same value |
| Invest.Nibble | client/src/components/InvestModal.jsx:53 | `Math.floor(draw * 16)` lies in 0..15 for a draw in [0,1) |
| Invest.MockTxHash | client/src/components/InvestModal.jsx:52-53 | 66 characters: "0x" then 64 lower-case hex digits, digit i reading back as the nibble of draw i |
| Invest.InvestModal.constructor | client/src/components/InvestModal.jsx:6-10 | empty amount, not processing, empty hash and error, step 1 |
| Invest.InvestModal.EstimatedShares | client/src/components/InvestModal.jsx:15 | the amount, or 0 while the amount is empty |
| Invest.InvestModal.ChangeAmount | client/src/components/InvestModal.jsx:17-20 | stores the amount and clears the error; step, processing flag and hash are unchanged |
| Invest.InvestModal.Connect | client/src/components/InvestModal.jsx:22-29 | a failed `connect()` sets the error "Failed to connect wallet. Please try again."; a successful one leaves the error; amount, step, processing and hash unchanged |
| Invest.InvestModal.Cancel | client/src/components/InvestModal.jsx:237 | Cancel at step 1 calls `onClose('close')` |
| Invest.InvestModal.Preview | client/src/components/InvestModal.jsx:31-37 | an empty or ≤ 0 amount sets "Please enter a valid amount" and stays at step 1; otherwise moves to step 2 |
| Invest.InvestModal.StartInvest | client/src/components/InvestModal.jsx:39-47 | without a wallet: sets "Please connect your wallet first" and leaves step, processing flag and the startup unchanged; with one: starts processing and clears the error |
| Invest.InvestModal.CompleteInvest | client/src/components/InvestModal.jsx:50-61 | stores the mock hash, moves to step 3, stops processing, and raises the startup's `raised` by exactly the amount |
| Invest.InvestModal.Back | client/src/components/InvestModal.jsx:169 | returns from step 2 to step 1, nothing else changes |
| Invest.InvestModal.Close | client/src/components/InvestModal.jsx:213-216 | calls onSuccess exactly when one is given, otherwise onClose |
| Invest.InvestFlow | client/src/components/InvestModal.jsx:17-61 | entering a positive amount, previewing, investing with a wallet and completing reaches step 3 with the mock hash, and grows `raised` by exactly that amount |
| Backend.FirstIndex | backend/app.py:261 | the index of the first element satisfying the test, or none when no element does |
| Backend.First | backend/app.py:141-146 | the first element satisfying the test, or None exactly when none does |
| Backend.FeatureOr0 | backend/app.py:245-249 | the feature's value, or 0 when it is missing |
| Backend.Take | backend/app.py:242 | Python's `[:n]`: the first `n` characters, or the whole string when it is shorter |
| Backend.BuildRecord | backend/app.py:236-258 | the new record has the startup id, the result's prediction, confidence and version, signature "0x"+digest, ipfsHash "Qm"+the first 44 digest characters, no txHash, the five features with 0 for a missing one, the quantum data, and time `now` |
| Backend.UpsertReplaces | backend/app.py:261-263 | with an existing record, the first match is replaced in place, the length is unchanged and every other entry is unchanged |
| Backend.UpsertAppends | backend/app.py:264-265 | with no record for the startup, the new record is appended at the end |
| Backend.UpsertThenLookup | backend/app.py:261-265 | after the upsert, the lookup for that startup returns the new record |
| Backend.UpsertKeepsUnique | backend/app.py:261-265 | if each startup has at most one record before, it still has at most one after |
| Backend.Upsert | backend/app.py:261-265 | the record is in the result; the length is unchanged exactly when some record has its startup id, and grows by one exactly when none has; where it goes is stated by `UpsertReplaces` and `UpsertAppends` |
| Backend.PyEqualsInt | backend/app.py:223 | no contract of its own; its cases are stated by `PyEqualsIntCases` |
| Backend.PyEqualsIntCases | backend/app.py:223 | Python's `==` between a record's integer id and the body's JSON id: an equal int or float matches, `true` matches 1 and `false` matches 0, and null, a string, an array or an object matches nothing |
| Backend.SetTxHashFirstOnly | backend/app.py:222-225 | the length is unchanged and only `txHash` of the first record whose id Python finds equal to the body's id changes; when no record is equal the table is unchanged |
| Backend.SetTxHashKeepsUnique | backend/app.py:222-225 | the webhook preserves the at-most-one-record-per-startup property |
| Backend.SetTxHash | backend/app.py:222-225 | the length and every record's startup id are unchanged; which record changes is stated by `SetTxHashFirstOnly` |
| Backend.PredictionService.ListStartups | backend/app.py:135-137 | `GET /api/startups` returns the startup table unchanged |
| Backend.PredictionService.GetStartup | backend/app.py:140-151 | 404 "Startup not found" exactly when no startup has the id; otherwise the first startup with that id and the first prediction for it, or none |
| Backend.PredictionService.Predict | backend/app.py:153-191 | rejects an unknown id with 404 before anything else; otherwise schedules the prediction task for that id and features and answers with a pending response (0 scores, "pending" hashes, time `now`) |
| Backend.PredictionService.InvestIntent | backend/app.py:193-212 | rejects an unknown id with 404; otherwise echoes the intent with its id, the time and signature "0x"+digest |
| Backend.PredictionService.PredictionWebhook | backend/app.py:214-227 | the scan-and-break loop leaves exactly `SetTxHash` of the old table; the startups are unchanged |
| Backend.PredictionService.ProcessPrediction | backend/app.py:230-265 | the table becomes the upsert of the built record; the startups are unchanged |
| Backend.PredictThenProcess | backend/app.py:153-265 | a predict request followed by its task keeps startups unique in the prediction table; for a known id the lookup then returns the new record; for an unknown id the table is unchanged |
| RealMath.Round2 | client/src/components/PredictionPanel.jsx:97 | `+x.toFixed(2)` is within half a hundredth of `x`, a whole number of hundredths, and keeps the sign of `x` |
| RealMath.Round2Odd | client/src/components/PredictionPanel.jsx:97 | rounding is symmetric about 0: a negated value rounds to the negated result |
| RealMath.Round2Halves | client/src/components/PredictionPanel.jsx:97 | halves round away from 0: 0.125 gives 0.13 and -0.125 gives -0.13 |
| RealMath.Round2Monotone | client/src/components/PredictionPanel.jsx:97 | a larger value never rounds lower |
| RealMath.Round | client/src/pages/Marketplace.jsx:29-30 | `Math.round`: the integer within half of the value, halves going up |
| RealMath.Clamp | client/src/pages/Marketplace.jsx:29-30 | `Math.max(lo, Math.min(hi, x))` lies in [lo, hi] when lo ≤ hi, and is `x` when `x` already does |
| RealMath.Max | client/src/components/PredictionPanel.jsx:142-144 | `Math.max`: at least both arguments and equal to one of them |
| RealMath.Min | client/src/components/PredictionPanel.jsx:144 | `Math.min`: at most both arguments and equal to one of them |
| RealMath.Abs | client/src/components/PredictionPanel.jsx:143-144 | `Math.abs`: not negative and equal to the value or its negation |
| Text.ToLower | client/src/components/StartupList.jsx:12 | same length; each character is its ASCII lower-case form; idempotence is stated by `ToLowerIdempotent` |
| Text.LowerChar | client/src/components/StartupList.jsx:12 | an ASCII capital moves up by 32 to its small letter; any other character is kept; no result is a capital |
| Text.ToLowerIdempotent | client/src/components/StartupList.jsx:12 | lower-casing twice is lower-casing once |
| Text.Contains | client/src/components/StartupList.jsx:12 | no contract of its own; `includes` holds exactly when the text occurs at some index, stated by `ContainsAt` |
| Text.ContainsAt | client/src/components/StartupList.jsx:12 | `includes` holds exactly when the term occurs at some index of the text |
| Text.ContainsEmpty | client/src/components/StartupList.jsx:12 | every string includes the empty string |

## Left out

- Rendering is not modelled: the doughnut and line charts, and the candle canvas's scaling and drawing. It is pixel output, not data.
- The panel's backend fetch and polling are not modelled. They are network I/O on a timer.
- The wallet and contract glue is not modelled (thirdweb and ethers calls, `formatEther`, `window.ethereum`). Campaigns arrive with `target` and `amountCollected` already parsed to numbers, so `parseFloat` of the contract's strings and its `NaN` results are not modelled.
- The quantum predictor is an input (`QuantumResult`). The Qiskit circuits, kernels and post-processing are not part of this model.
- FastAPI plumbing is not modelled: routing, CORS, pydantic validation, loading `mock_data.json` and running background tasks. `Predict` returns the task it schedules, and `PredictThenProcess` runs it.
- SHA-256, `uuid4`, `time.time()` and `Date.now()` are parameters, and nothing constrains the values passed in. One mapping of the campaigns takes a single `now`: every campaign in `Heuristic.MapCampaigns`, and both `Date.now()` reads of a campaign (Marketplace.jsx:27 and :51), see the same instant, whereas the code reads the clock afresh each time.
- `Math.random` is a sequence of draws in [0,1). Nothing is claimed about their distribution.
- Floating point: all numbers are reals, with no IEEE rounding, `-0` or overflow. The one exception is the progress percentage, where the JavaScript division by a zero goal yields an infinity or NaN (`StartupCard.PercentRaised`).
- RealMath.Round2: `toFixed(2)` rounds the binary double nearest the value, so a decimal that is an exact half, such as 1.005, can round towards 0 when its double lies just below it. The model rounds exact halves away from 0.
- Text.ToLower: lower-cases ASCII letters only, whereas `toLowerCase` also folds other Unicode letters.
- Invest.InvestModal: the amount box holds either nothing or a number. A string that `parseFloat` reads as `NaN` is not modelled.
- Invest.InvestModal.StartInvest: no exception can be thrown inside the `try`, so the catch branch at InvestModal.jsx:63-66 is unreachable and is not modelled.
- Invest.InvestModal.Connect: the wallet's `connect()` is outside the model; only its outcome (success or a throw, an input) and the error a throw sets are modelled. Whether the wallet then reports itself connected is the `isConnected` input of `StartInvest`.
- Backend.PredictionService.PredictionWebhook: the body's `txHash` is a string or missing. A `txHash` of another JSON type is not modelled. The floats of the body's `startupId` are reals, not doubles. The unused `prediction` field is not read.
- Backend: the root greeting returns a constant and is not modelled.
