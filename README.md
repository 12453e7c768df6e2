# Half-time goal filter: feature aggregation and scoring

The service ranks one day's football fixtures by how likely a goal is
before half-time. For each fixture it derives three features per team:

- the half-time goal percentage over the team's recent fixtures;
- an average first-half shots proxy: half the first shot statistic of
  each recent fixture, averaged;
- a first-half xG value for the fixture itself, from its statistics
  blocks, with half a shot count as the fallback.

A threshold filter then turns the two teams' features into a composite
score, a pass flag and a reason text. The batch is sorted by score,
highest first.

The logic exists twice, as a Flask handler (`api/filtro.py`) and as a
Next.js route (`app/api/filtro/route.js`), and the two differ in small
ways. This project models both twins and the arithmetic they share:

- `Options`, `Text`, `Seqs`, `Rounding`: an option type; ASCII lower-casing
  and substring search for label matching; first-hit search, counting and
  means over sequences; decimal rounding via `Floor`.
- `Payload`: the inputs as datatypes. A missing key, a null and an empty
  object are told apart only where `or` and `??` treat them differently.
  Ids are `Absent | Null | Int(n)`, and a statistic's value is a number or
  `None`.
- `FilterPolicy`: the derived values, the score, the pass flag and the
  verdict.
- `Ranking`: the order in which a stable descending sort on scores lists
  the batch.
- `PyFiltro`: the Python twin.
  - Its loops are methods proved against specification functions.
  - A match object is a class whose filter method writes only `_filter`.
  - An xG scan that raises (`int(None)` on a missing team id) is `None`,
    which makes the handler answer with an error.
- `JsRoute`: the JavaScript twin. Its filter builds a new match value.
- `Twins`: concrete inputs on which the two twins disagree.

Where the two twins, or their comments, diverge, the model follows the code:

- Half-time data. The score object is `score`, else `goals`, else the
  fixture itself. The Python twin also accepts `ht` in place of
  `halftime`.
- Side selection. A missing or unparsable home id selects the away count.
- Shots. The JavaScript twin looks only at the first shot-labelled entry
  and contributes nothing when its value is not a number; it does not go
  on to a later numeric one.
- xG, Python. The last numeric xG entry of a block wins.
- xG, JavaScript.
  - The first xG-labelled entry wins, numeric or not (a missing value
    reads as 0).
  - Its presence skips the shot fallback for that block.
  - The shot fallback halves `Number(value || 0)`, so a non-numeric shot
    entry still fills a zero side with 0.
- Rounding. The Python twin rounds the stored features (4, 2 and 4
  decimals) before filtering. The JavaScript twin rounds only the shots
  average.

## Model

| member | source | states |
|---|---|---|
| Text.LowerAt | api/filtro.py:88 | lower-casing maps each character on its own, position by position |
| Text.ContainsIff | api/filtro.py:89 | the recursive substring test holds exactly when the keyword occurs at some position |
| Text.LowerIdempotent | api/filtro.py:88 | lower-casing a lower-cased label changes nothing, so a label and its lower-cased form match the same keywords |
| Seqs.FindFacts | app/api/filtro/route.js:28 | `find`: the index returned satisfies the test and no earlier one does; none exactly when no element does |
| Seqs.FindIsFirstHit | api/filtro.py:80-84 | a first loop hit with `break` is what the search returns |
| Seqs.CountExtremes | api/filtro.py:65-67 | the count is 0 exactly when no element qualifies and the length exactly when all do |
| Seqs.FractionFacts | api/filtro.py:68 | a count out of a positive total is a fraction in [0, 1], 0 exactly when the count is 0 and 1 exactly when it is the total |
| Seqs.SumNonnegative | api/filtro.py:92 | a sum of nonnegative present values is nonnegative |
| Seqs.MeanNonnegative | api/filtro.py:95 | the mean of nonnegative values, or 0 when there is none, is nonnegative |
| Rounding.RoundMonotone | api/filtro.py:111 | rounding to a number of decimals never reverses an order |
| Rounding.RoundWithinHalfUnit | api/filtro.py:111 | a rounded value lies within half a unit in the last place of the input |
| Rounding.RoundExact | api/filtro.py:111 | a value already at that many decimals is unchanged by rounding |
| FilterPolicy.Max | api/filtro.py:107 | `max_pct` is one of the two percentages and at least each of them |
| FilterPolicy.AverageXg | api/filtro.py:109 | the guarded division is the plain mean of the two xG values, 0 when both are 0 |
| FilterPolicy.Derive | api/filtro.py:100-109 | `derived` echoes the six inputs; `max_pct`, `total_shots` and `avg_xg` are their max, sum and mean |
| FilterPolicy.Evaluate | api/filtro.py:97-130 | the verdict's derived values and score; it passes iff a side's percentage is ≥ 0.25 or the combined shots are ≥ 2.5 with combined xG ≥ 0.4; the reason is chosen by the flag alone |
| FilterPolicy.ScoreMonotone | api/filtro.py:111 | the score never decreases as any feature of either side grows |
| FilterPolicy.PassMonotone | api/filtro.py:112 | growing features never turn a pass into a failure |
| FilterPolicy.ScoreNonnegative | api/filtro.py:111 | with no negative feature the score is nonnegative |
| FilterPolicy.ZeroFeatures | api/filtro.py:100-112 | all features missing: score 0 and no pass |
| FilterPolicy.ScoreExample | api/filtro.py:107-112 | home (0.3, 1.5, 0.1) against away (0.1, 1.0, 0.05) scores 33.25 and passes |
| FilterPolicy.PassIndependentOfScore | api/filtro.py:111-112 | two matches with the same score 25 where only one passes: the flag is not a function of the score |
| Ranking.Insert | api/filtro.py:216 | inserting a position adds exactly that position to the order |
| Ranking.InsertRanked | api/filtro.py:216 | inserting after every earlier-or-equal key keeps the order sorted by descending key with ties in input order |
| Ranking.RankedIff | api/filtro.py:216 | being ranked means sorted by descending key and stable on ties, both directions |
| Ranking.RankOrder | api/filtro.py:216 | the sort is a permutation of the positions, lists keys non-increasing, and keeps equal keys in input order |
| Ranking.RankOrderIsPermutation | api/filtro.py:216 | every input position occurs exactly once in the sorted order |
| PyFiltro.ComputeHtGoalPct | api/filtro.py:44-68 | the loop returns the fraction of fixtures in which the team scored before half-time, 0.0 for an empty list |
| PyFiltro.HtGoalFractionRange | api/filtro.py:45-68 | the percentage lies in [0, 1]; it is 0 for an empty history, 0 iff the team never scored before half-time, 1 iff it always did |
| PyFiltro.SideSelection | api/filtro.py:57-64 | the home count is read only when the fixture's home id is the team id; otherwise, a missing id included, the away count |
| PyFiltro.NoHalfTimeNotScored | api/filtro.py:50-65 | a fixture without `halftime`/`ht` data counts as not scored |
| PyFiltro.HtGoalFractionExample | api/filtro.py:47-68 | four fixtures with one half-time goal give 0.25 |
| PyFiltro.FixtureHalfShots | api/filtro.py:77-94 | the two nested loops with `break` yield half the first numeric shot entry of the team's first block |
| PyFiltro.EstimateAvgShotsHt | api/filtro.py:70-95 | the loop returns the mean of the fixtures' contributions, 0.0 when none contributes |
| PyFiltro.AvgShotsNonnegative | api/filtro.py:71-95 | the average is ≥ 0 when no shot value is negative, and 0 for an empty history |
| PyFiltro.ShotContributionFirstNumeric | api/filtro.py:80-94 | the contribution is half the first numeric shot entry of the first block owned by the team; non-numeric shot entries are skipped |
| PyFiltro.ShotContributionNoOwner | api/filtro.py:79-85 | a fixture without a block of the team contributes nothing |
| PyFiltro.ScanXgEntries | api/filtro.py:173-180 | the xG loop over one block's entries computes the xG pass |
| PyFiltro.ScanShotEntries | api/filtro.py:182-190 | the shot loop over one block's entries computes the shot fallback |
| PyFiltro.ResolveXg | api/filtro.py:166-190 | the xG loop over the blocks computes the xG scan, `None` when it raises |
| PyFiltro.XgPassKeeps | api/filtro.py:173-180 | with convertible ids the pass does not raise, and a side of another team, or a block with no numeric xG, keeps its value |
| PyFiltro.XgPassLastWins | api/filtro.py:173-180 | with convertible ids the side of the block's team takes the value of the last numeric xG entry |
| PyFiltro.XgPassCrash | api/filtro.py:176-180 | the xG pass raises iff some entry is a numeric xG and an id is not an integer |
| PyFiltro.ShotPassKeeps | api/filtro.py:186-190 | the fallback changes neither a side of another team nor a side already nonzero |
| PyFiltro.ShotPassStaysZero | api/filtro.py:186-190 | a zero side stays 0 when no shot entry is nonzero |
| PyFiltro.ShotPassFirstNonzero | api/filtro.py:186-190 | a zero side of the block's team takes half the first nonzero numeric shot entry; later ones do not change it |
| PyFiltro.ShotPassCrash | api/filtro.py:186-190 | the fallback raises iff some entry is a numeric shot and an id is not an integer |
| PyFiltro.XgScanNoCrash | api/filtro.py:166-171 | with integer ids everywhere the scan does not raise; with no blocks both sides stay 0.0 |
| PyFiltro.XgPassCrashSticky | api/filtro.py:173-180 | once the xG pass has raised on a prefix it raises on the whole block |
| PyFiltro.ShotPassCrashSticky | api/filtro.py:183-190 | once the fallback has raised on a prefix it raises on the whole block |
| PyFiltro.XgScanCrashSticky | api/filtro.py:167-190 | once the scan has raised on a prefix of the blocks it raises on all of them |
| PyFiltro.XgScanSidesIndependent | api/filtro.py:166-190 | with integer ids on both sides and on every block with statistics, the scan does not raise, the home xG does not depend on the away id and the away xG does not depend on the home id |
| PyFiltro.XgScanNonnegative | api/filtro.py:166-190 | with no negative statistic value in the blocks, a scan that does not raise gives both sides a nonnegative xG |
| PyFiltro.Match.constructor | api/filtro.py:192-211 | a new match holds the two feature records and no `_filter` |
| PyFiltro.Match.ComputeMatchPercentagesAndFilter | api/filtro.py:97-130 | writes the verdict under `_filter` and leaves the feature records unchanged |
| PyFiltro.ScoreFixture | api/filtro.py:152-213 | one loop iteration: a fresh match with the rounded features of both teams and its verdict, or the raise of the xG scan |
| PyFiltro.SideFeaturesNonnegative | api/filtro.py:196-209 | with nonnegative history statistics and xG, every stored feature of a side, after rounding, is nonnegative |
| PyFiltro.RequestScoreNonnegative | api/filtro.py:192-213 | with no negative statistic in the histories or the fixture's blocks, a fixture that does not raise gets a nonnegative score |
| PyFiltro.KeysAreScores | api/filtro.py:213-216 | the sort keys gathered in the loop are the fixtures' scores |
| PyFiltro.RankedMatches | api/filtro.py:216 | sorting the scored matches by the ranking lists them by non-increasing score |
| PyFiltro.ScoreAll | api/filtro.py:148-213 | the batch loop fails iff some fixture's xG scan raises; otherwise one scored match per fixture in input order, with their scores as sort keys |
| PyFiltro.ApiFiltro | api/filtro.py:148-217 | the response is an error iff some fixture's xG scan raises; otherwise one scored match per fixture, in stable descending score order |
| JsRoute.ComputeHtGoalPct | app/api/filtro/route.js:27 | the loop returns the fraction of fixtures in which the team scored before half-time, 0 for an empty list |
| JsRoute.HtGoalFractionRange | app/api/filtro/route.js:27 | the percentage lies in [0, 1]; it is 0 for an empty history, 0 iff the team never scored, 1 iff it always did |
| JsRoute.SideSelection | app/api/filtro/route.js:27 | the home count is read exactly when the two ids are the same number; an undefined team id reads the away count |
| JsRoute.EstimateAvgShotsHt | app/api/filtro/route.js:28 | the loop returns the mean of the fixtures' contributions, 0 when none contributes |
| JsRoute.AvgShotsNonnegative | app/api/filtro/route.js:28 | the average is ≥ 0 when no shot value is negative, and 0 for an empty history |
| JsRoute.FirstShotEntryDecides | app/api/filtro/route.js:28 | only the first shot-labelled entry of the team's first block counts: half its value, or nothing when it is not a number |
| JsRoute.FirstOwner | app/api/filtro/route.js:28 | `find` on the blocks returns the first block of the team |
| JsRoute.FirstShot | app/api/filtro/route.js:70 | `find` on the entries returns the first shot-labelled one |
| JsRoute.FirstXg | app/api/filtro/route.js:65 | `find` on the entries returns the first xG-labelled one |
| JsRoute.ScanBlock | app/api/filtro/route.js:63-75 | one block of the xG loop computes that block's step of the xG scan |
| JsRoute.ResolveXg | app/api/filtro/route.js:60-77 | the xG loop computes the xG scan of the blocks |
| JsRoute.BlockXgEntryWins | app/api/filtro/route.js:65-68 | a block with an xG-labelled entry sets each side of its team to the first one's value (0 when missing) and leaves the others |
| JsRoute.BlockShotKeeps | app/api/filtro/route.js:69-74 | without an xG entry a side of another team, or a nonzero side, is unchanged |
| JsRoute.BlockWithoutLabels | app/api/filtro/route.js:64-75 | a block with neither label changes nothing |
| JsRoute.BlockShotFills | app/api/filtro/route.js:70-74 | without an xG entry a zero side of the block's team takes half the first shot-labelled value |
| JsRoute.XgScanSidesIndependent | app/api/filtro/route.js:62-76 | each side's xG depends only on its own team id |
| JsRoute.UndefinedIdKeepsZero | app/api/filtro/route.js:67-73 | an undefined home id never matches, so the home xG stays 0 |
| JsRoute.BlockXgNonnegative | app/api/filtro/route.js:63-75 | a block whose values are all nonnegative keeps both sides nonnegative |
| JsRoute.XgScanNonnegative | app/api/filtro/route.js:60-77 | with no negative statistic value in the blocks, both sides' xG is nonnegative |
| JsRoute.ComputeMatchPercentagesAndFilter | app/api/filtro/route.js:30 | a new match with the same feature records and the verdict, reason 'Atende critérios' on pass and 'Não atende' otherwise |
| JsRoute.ScoreFixture | app/api/filtro/route.js:43-88 | one loop iteration: the scored match of the fixture |
| JsRoute.ScoredMatchNonnegative | app/api/filtro/route.js:79-88 | with no negative statistic in the histories or the fixture's blocks, the pushed match carries a `_filter` with a nonnegative score |
| JsRoute.ScoreAll | app/api/filtro/route.js:41-89 | the fixture loop pushes the scored matches in input order |
| JsRoute.ScoredAllAt | app/api/filtro/route.js:43-88 | the k-th pushed match is the scored match of the k-th fixture |
| JsRoute.KeysAreScores | app/api/filtro/route.js:91 | the sort keys read from the pushed matches are the fixtures' scores |
| JsRoute.RankedMatches | app/api/filtro/route.js:91 | the sorted list has one match per fixture, taken in ranking order, with non-increasing scores |
| JsRoute.Get | app/api/filtro/route.js:40-92 | one scored match per fixture, in stable descending score order |
| Twins.Labels | api/filtro.py:88-89 | "shots" matches the shot keyword only, "xg" the xG keyword only |
| Twins.HtAliasOnlyInPython | api/filtro.py:53 | a goal found only under `ht` counts in Python, not in JavaScript |
| Twins.EmptyScoreObject | api/filtro.py:50 | an empty `score` object falls through to `goals` in Python but not in JavaScript |
| Twins.NonNumericFirstShot | api/filtro.py:87-94 | a non-numeric shot entry before a numeric 6: Python contributes 3, JavaScript nothing |
| Twins.LastVersusFirstXg | api/filtro.py:173-180 | xG entries 0.3 then 0.5: Python keeps 0.5, JavaScript 0.3 |
| Twins.RoundingBeforeFilter | api/filtro.py:199 | a raw percentage of 0.24996 rounds to 0.25 and passes in Python, while the unrounded value fails in JavaScript |

## Left out

- HTTP fetching of fixtures, histories and statistics (`fetcher` and the `get_*` helpers in both twins): network I/O; their results are the inputs of `PyFiltro.ApiFiltro` and `JsRoute.Get`.
- Request parsing, the API-key checks and the 400/502 responses: framework glue. Of the 500 response, only the one raised by the Python xG scan is modelled, as `None`.
- `Promise.all` in the JavaScript route: concurrency; the two histories are plain inputs.
- The match object's `id`, `date`, `league`, `name` and `raw` keys: copied through and never read by the filter.
- Floating point: values are reals. Python's `round` rounds half to even on binary doubles and `toFixed` rounds its own way; both are modelled as half-up decimal rounding, and its monotonicity, its half-unit error bound (`Rounding.RoundWithinHalfUnit`) and its exact cases are proved.
- String ids and values, booleans counted as numbers, `NaN` statistic values and `Number()` of text: every id is an integer, null or missing, and every value a number or not.
- Input shapes. Fixture lists, a fixture's statistics list and a past fixture's embedded `statistics` pass a list check in both twins, so a non-list value there is the empty sequence. A `score` or `goals` value that is truthy but not an object gives no half-time data: it is an `Object` with both half-time keys `Missing`. A falsy non-null one (`0`, `""`) is `EmptyObject`.
- A non-list `statistics` inside a statistics block, and a non-object `halftime`/`ht` value in the Python twin: both twins raise on the former (`.find` or iteration with `.get` on the items), Python on the latter (`.get` on a number); these exceptions are not modelled.
- PyFiltro.HtGoals: a fixture without `teams` and one whose home id is missing are the same input, so a team id of 0 (which the handler never passes) is not told apart from those.
- Text.Lower: lower-cases ASCII letters only, while `.lower()` and the `i` flag fold all of Unicode.
- JsRoute.Get: `out.sort` sorts in place; the model builds the sorted sequence as a value.
- The probability policy (normalisation ranges, priors, `1 − e^(−x)`): no file of this core contains it.
- `api/testar.py` (a static test page) and `api/check_key.py` (an environment and HTTP diagnostic): not part of the core.
