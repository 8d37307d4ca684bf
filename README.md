# Stock recommendation scanner — a Dafny model

The scanner is a serverless endpoint. It looks at twenty large Korean
listings and recommends those whose price behaves in a particular way
around the *point of control* (POC). The POC is the 100-won price bin that
traded the most volume over the last thirty days. There are two variants of
the endpoint. `api/scan.js` reads Yahoo Finance. `api/scan-kis.js` reads the
Korea Investment Securities (KIS) open API and needs an app key, an app
secret and an access token. The analytic core of the two files is the same:

* `calculatePOC` groups the daily bars by the 100-won floor of the close and
  sums the volume in each bin. It takes the first bin of maximal volume, in
  ascending price order, as the POC. It returns the bins sorted by
  descending price.
* `analyzeSignal` applies three gates: the price band, the traded value and
  the volume ratio. Then it applies a BUY rule (support and bounce at the
  POC) and a SELL rule (resistance and fall above it). When both fire, the
  SELL verdict wins.
* The handler resolves the query conditions. The KIS variant checks the
  credentials and obtains a token first. The handler then runs every
  instrument through the two steps above, skips instruments without data or
  whose processing threw, and sorts the recommendations by descending
  signal strength.

The model is split into these modules:

* `Market` holds the shared vocabulary: bars, quotes, profiles, conditions,
  the analysis record, `Math.round`, and floating-point division by zero as
  the `Quotient` datatype.
* `VolumeProfile` models `calculatePOC`. It is an imperative method with
  two loops, checked against a declarative reference `ProfileOf`.
* `SignalEvaluator` models `analyzeSignal`. It is an imperative method that
  overwrites the signal and strength, checked against the declarative
  verdict `Evaluate`.
* `DailyBars` holds the bar filter of the Yahoo fetch and the `slice(0, days)`
  of the KIS fetch.
* `Universe` holds the two fixed instrument lists.
* `Scan` holds the handlers: condition defaults, the KIS credential and
  token checks, the per-instrument loop, and an in-place sort by strength.

Provider responses enter the model as data. The loop receives, for each
instrument, a `Fetch`: the quote (or null) and the bars the fetch returned,
or `Threw` when the body of the loop raised. The KIS token request enters
as a boolean saying whether a token was issued. The two environment
variables enter as optional strings.

Numeric facts the code determines:

* BUY strength is `60 + min(5·priceChange, 30)`. It is at most 90, and
  above 60 whenever `bounceStrength` is not negative; with a negative
  `bounceStrength` it can fall below 60.
* SELL strength is `50 + min(5·|priceChange|, 30)`, and the SELL rule needs
  a fall of more than 1%, so SELL strength lies in (55, 80].
* The average volume is the total volume divided by the number of price
  bins, not by the number of days.
* With a POC of 0 (every bar of zero volume, or the 0–99 bin holding the
  most volume), `|price − poc| / poc` is
  infinite or NaN, so neither rule fires. The model treats that case
  explicitly rather than excluding it.

## Model

| member | source | states |
|---|---|---|
| Market.Round | api/scan.js:208 | `Math.round` lands within half a unit of its argument, with halves going up |
| VolumeProfile.BucketFloor | api/scan.js:121 | the bin of a close is a multiple of 100, at or below the close and within 100 of it |
| VolumeProfile.VolumeMap | api/scan.js:118-126 | the volume dictionary has exactly one key per bin some close falls in |
| VolumeProfile.SumByBin | api/scan.js:118-126 | the accumulation loop, including its reset of a missing or zero entry, yields exactly the bins of the closes, each holding the total volume of its bars |
| VolumeProfile.RunningMaxPoc | api/scan.js:129-137 | the strict running maximum over the keys in ascending order picks a bin of maximal volume below which every bin has strictly less; it is 0 when no bin has positive volume |
| VolumeProfile.PocExists | api/scan.js:129-137 | every volume dictionary has a POC in that sense |
| VolumeProfile.PocUnique | api/scan.js:129-137 | the POC rule determines at most one bin |
| VolumeProfile.BucketsDesc | api/scan.js:141-144 | the entries listed and sorted by price: strictly descending, one per key, carrying that key's volume |
| VolumeProfile.ProfileOfIsVolumeProfile | api/scan.js:114-146 | the reference profile is sorted; has exactly the bins of the closes with their volumes; conserves total volume; and its POC follows the POC rule |
| VolumeProfile.CalculatePoc | api/scan.js:114-146 | null exactly for no bars; otherwise a descending bin list with per-bin and total volumes preserved and the POC rule met, equal to the reference profile (the KIS copy, api/scan-kis.js lines 154-184, is the same code) |
| VolumeProfile.NoFloorsWithoutBars | api/scan.js:115 | the bin set is empty exactly when there are no bars, so a non-null profile has at least one bin |
| VolumeProfile.VolumeConserved | api/scan.js:118-144 | a descending list with one entry per bin, each holding its bin's volume, sums to the total volume of the bars |
| VolumeProfile.BarVolumeInItsBin | api/scan.js:121-125 | every bar's volume is counted in its own bin |
| VolumeProfile.PositiveVolumesGiveRealPoc | api/scan.js:129-137 | when all volumes are positive, the POC is one of the listed bins and no bin traded more |
| VolumeProfile.ZeroVolumesLeavePocAtZero | api/scan.js:129-130 | when every volume is zero, no bin beats the initial maximum and the POC stays 0 |
| VolumeProfile.ThreeBarExample | api/scan.js:114-146 | closes 10050, 10080 and 10120 with volumes 100, 200 and 50 give POC 10000 and bins [10100: 50, 10000: 300] |
| SignalEvaluator.AbsQuotient | api/scan.js:166-173 | the absolute value of a floating-point quotient: finite exactly when the divisor is non-zero and then the true absolute quotient; infinite for a non-zero numerator over zero |
| SignalEvaluator.TopBuckets | api/scan.js:213 | the first min(10, n) bins of the profile, in order |
| SignalEvaluator.AnalyzeSignal | api/scan.js:149-215 | the step-by-step evaluator (gates, BUY rule, SELL rule overwriting it, reason pushes, result record) computes exactly the declarative verdict (the KIS copy, api/scan-kis.js lines 187-250, is the same code) |
| SignalEvaluator.VerdictExactlyWhen | api/scan.js:156-199 | there is a verdict if and only if all three gates pass and at least one rule fires |
| SignalEvaluator.MissingInputNoVerdict | api/scan.js:150 | a missing quote or profile gives no verdict |
| SignalEvaluator.OutOfBandNoVerdict | api/scan.js:156-158 | a price outside [minPrice, maxPrice] gives no verdict |
| SignalEvaluator.LowTradeValueNoVerdict | api/scan.js:160-162 | traded value under minTradeValue million gives no verdict |
| SignalEvaluator.LowVolumeRatioNoVerdict | api/scan.js:164-170 | a volume ratio under the multiplier gives no verdict |
| SignalEvaluator.ZeroPocNoVerdict | api/scan.js:173-197 | with POC 0 neither rule can fire, so there is no verdict |
| SignalEvaluator.SellOverridesBuy | api/scan.js:180-197 | the verdict is SELL exactly when the SELL rule fires, and BUY exactly when only the BUY rule does |
| SignalEvaluator.BothRulesFire | api/scan.js:180-197 | when both rules fire, signal and strength are SELL's and all four reasons are present in push order |
| SignalEvaluator.ReasonsOfVerdict | api/scan.js:183-194 | two reasons per firing rule: BUY's first, SELL's last |
| SignalEvaluator.BuyStrengthBounds | api/scan.js:185 | BUY strength is at most 90, and above 60 when bounceStrength is not negative |
| SignalEvaluator.SellStrengthBounds | api/scan.js:195 | SELL strength lies in (55, 80] |
| SignalEvaluator.ResultShape | api/scan.js:201-214 | the record carries the quote's fields, the average volume rounded, the traded value rounded in millions, and the ten highest-price bins |
| SignalEvaluator.BuyExample | api/scan.js:180-186 | price 10100, up 2%, at POC 10000 with volume three times the average, is a BUY of strength 70 |
| DailyBars.CompleteDaysExact | api/scan.js:90-91 | the days kept are exactly those with all five fields truthy, each once, in ascending order |
| DailyBars.CompleteBars | api/scan.js:89-101 | the filter loop yields one bar per complete day, in day order, with prices rounded; every kept bar has positive volume |
| DailyBars.LookbackWindow | api/scan-kis.js:293 | the handler asks for 30 days, so at most the first 30 bars of the provider list reach calculatePOC |
| DailyBars.TakeDays | api/scan-kis.js:136 | `slice(0, days)` keeps the first min(days, n) bars in provider order |
| Universe.UniversesAgree | api/scan.js:8-29 | both handlers scan the same twenty instruments in the same order; the Yahoo code is the KIS code with ".KS" appended |
| Universe.CodesDistinct | api/scan-kis.js:19-40 | no instrument code repeats |
| Scan.ResolveConditions | api/scan.js:235-242 | every field is the supplied query parameter when there is one, and otherwise its default: pocTolerance 2, bounceStrength 1, volumeMultiplier 1.5, minPrice 5000, maxPrice 100000, minTradeValue 1000 |
| Scan.SortByStrength | api/scan.js:271 | the recommendations end up in non-increasing strength order and are a permutation of those pushed |
| Scan.ScanOne | api/scan.js:248-267 | one instrument contributes its verdict when its quote and bars are present, and nothing when data is missing or the body threw |
| Scan.ScanUniverse | api/scan.js:245-271 | the loop and sort return, in non-increasing strength order, exactly the verdicts of the instruments that had data |
| Scan.ScanYahoo | api/scan.js:233-279 | the Yahoo handler always answers with a scan of twenty instruments from "Yahoo Finance", sorted by strength, holding exactly the qualifying verdicts |
| Scan.ScanKis | api/scan-kis.js:267-317 | a missing or empty app key or secret is an error before any scanning; a refused token is an error; otherwise the same scan of twenty instruments from "Korea Investment Securities" |
| Scan.QualifiedAtMostOnePerInstrument | api/scan.js:247-264 | there are at most as many recommendations as instruments |
| Scan.QualifiedComeFromInstruments | api/scan.js:257-264 | every recommendation is the verdict of a scanned instrument, evaluated on that instrument's own quote and bars |
| Scan.ThrowDropsOnlyItsOwn | api/scan.js:265-267 | an instrument whose body throws loses only its own recommendation; the others are unchanged |
| Scan.PositiveBarsGiveListedPoc | api/scan.js:89-101 | bars that passed the Yahoo filter (all volumes positive) give every recommendation a POC that is one of its listed bins, of maximal volume |
| Scan.NoDataContributesNothing | api/scan.js:257 | an instrument with no quote or no bars is skipped |

## Left out

- HTTP requests to Yahoo Finance and KIS, and the decoding of their JSON, are not modelled. The model takes their results as inputs: a `Fetch`, the chart arrays as a `Series`, and a token-issued flag.
- The derivation of the quote is not modelled: current price, percent change and traded value from the Yahoo `meta` block, and `parseInt`/`parseFloat` of the KIS fields. The model takes the quote as given. NaN coming out of `parseInt` is not modelled.
- `parseFloat` of the query parameters is not modelled. A supplied parameter enters as a real number, so a non-numeric one (NaN) is not modelled.
- The token cache, its 23-hour expiry and the clock are not modelled. The token outcome is an input.
- The pauses between instruments and the parallel `Promise.all` are not modelled: they do not affect the result.
- CORS headers, the OPTIONS answer, console logging, the response timestamp and the bar dates are not modelled. The Yahoo `koreanCode` field (the Yahoo symbol without ".KS") is not modelled either; `Universe.UniversesAgree` proves that the Yahoo symbols are the KIS codes with ".KS" appended.
- The text of the reason strings is not modelled. Reasons are the four-valued `Reason` datatype, in push order, without the formatted numbers.
- The HTTP 500 answers for an exception outside the loop are not modelled, apart from the token failure, which `Scan.ScanKis` covers.
- Floating-point rounding is not modelled. Arithmetic is exact on reals; only the divisions by zero are modelled, through `Quotient`.
- VolumeProfile.RunningMaxPoc enumerates the dictionary keys in ascending order. For JavaScript this holds for bin floors from 0 up to 2^32 − 2, which covers any real price. Negative floors, or floors of 2^32 − 1 and above, would be enumerated in insertion order.
- Scan.SortByStrength: the contract does not state how equal strengths are ordered. `Array.prototype.sort` is stable; the modelled insertion sort is stable too, but that is not proved.
- SignalEvaluator.Evaluate requires a non-empty bin list whenever a profile is present. `calculatePOC` never returns an empty list (`VolumeProfile.CalculatePoc`); an empty one would make the average NaN.
