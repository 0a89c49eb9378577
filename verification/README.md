# Match analysis: safety score, probability pair and recent-form messages

This project models, in Dafny, the per-match analysis of a small Streamlit
page that ranks football fixtures (`calculate_score_and_prob` in
`class.py`). For every row of the match table the analysis:

1. fills every missing number with 0 (`fillna(0)`);
2. derives the odds gap `diff_cote`, each side's form (3·wins + draws − losses),
   the goal-balance difference `goal_diff` and each side's recent-form index
   ((3·last-five wins + last-five draws) / 15);
3. combines them into the safety score
   `(1 − gap/10)·40 + ((home form − away form)/20)·25 + ((goal_diff + 10)/20)·15 + ((home recent − away recent)·100)·20`,
   clipped to [0, 100];
4. turns the score into `prob_home = exp(s) / (exp(s) + exp(100 − s))` and
   `prob_away = 1 − prob_home`, and names the home team as winner only when
   `prob_home > prob_away` strictly;
5. writes, for each side, a message about its last-five form: "not played
   recently" when the three counts add up to 0, otherwise one of four bands
   by share of wins (at least 0.8, at least 0.6, at least 0.4, below 0.4).

Modules, leaves first:

- `Wrappers` (`wrappers.dfy`): `Option`, for table cells that may be empty.
- `MatchRecords` (`match_records.dfy`): rows as entered (`MatchEntry`, every
  number optional) and filled (`Match`); `FillNa`; `Swap` (the same fixture
  from the other side); the entry form's widget ranges.
- `FeatureDerivation` (`features.dfy`): `Features`, `Derive`, `Mirror`.
- `SafetyScore` (`safety_score.dfy`): `RawScore`, `Clip`, `Score`.
- `Probability` (`probability.dfy`): `ProbHome`, `ProbAway`, `PickWinner`.
- `FormAnalysis` (`form_analysis.dfy`): `AnalyseForme`, whose result is a
  `FormReport`: the team plus either "not played recently" or a band with the
  win and game counts that the message quotes.
- `Tables` (`tables.dfy`): a per-row transformation applied to every row of
  a table, in order.
- `Analysis` (`analysis.dfy`): one analysed row (`AnalyseRow`,
  `AnalyseMatch`) and the whole table (`Analyse`, applied row by row in order).

Numbers are exact: odds and the derived reals are Dafny `real`s, and counts
are unbounded `int`s. `np.exp` is a parameter `exp: real -> real`. The model
uses only two facts about it, captured by `Probability.IsExp`: it is positive
and it is strictly increasing.

Facts about the analysis that the proofs bring out:

- The score has one formula (weights 40/25/15/20, with the recent-form gap
  scaled by 100). The last-five columns are always present, and missing
  values become 0.
- Only missing cells become 0 (`fillna(0)`). Text in a numeric cell is left
  as is; the entry form's number widgets never produce any.
- An even fixture (equal odds, identical statistics) scores 47.5, below the
  midpoint, so the away team is predicted (`Analysis.EvenFixtureGoesToAway`).
- The worked example with odds 1.50/2.50, records 10-2-3 and 4-3-8, goals
  20:10 and 12:18, and empty last-five cells scores 83, with home form 29
  (`Analysis.WorkedExample`).
- The recent-form index lies in [0, 1] when the last-five counts describe at
  most five games (`FeatureDerivation.RecentFormUnitRange`). The entry form
  bounds each last-five count separately, so the index can reach 4/3
  (`FeatureDerivation.RecentFormCanExceedOne`).
- Within the entry form's ranges the recent-form term outweighs all others: a
  lead of two recent wins pins the score at 100
  (`SafetyScore.RecentLeadSaturatesScore`).

## Model

| member | source | states |
|---|---|---|
| `MatchRecords.FillNa` | class.py:76 | team names are kept, every present number is kept, every missing number becomes 0 |
| `MatchRecords.FillNaKeepsCompleteRows` | class.py:76 | filling a row with no missing cell gives back that row unchanged |
| `FeatureDerivation.Derive` | class.py:78-84 | the odds gap is non-negative and is one of the two differences of the odds |
| `FeatureDerivation.DeriveSwap` | class.py:78-84 | exchanging the sides keeps the odds gap, exchanges the forms and recent-form indices, and negates the goal difference |
| `FeatureDerivation.FormMonotone` | class.py:79-80 | more wins or draws, or fewer losses, never lower a side's form |
| `FeatureDerivation.RecentFormMonotone` | class.py:83-84 | more recent wins or draws never lower the recent-form index |
| `FeatureDerivation.RecentFormUnitRange` | class.py:83-84 | for non-negative last-five counts over at most five games the index is in [0, 1], and equals 1 exactly at five wins |
| `FeatureDerivation.RecentFormCanExceedOne` | class.py:83 | a side within the widget ranges (5 recent wins, 5 recent draws and 5 recent losses) has an index of 4/3 |
| `SafetyScore.Clip` | class.py:91 | the result lies in [lo, hi], equals the input inside the range, and equals the nearer bound outside it |
| `SafetyScore.ClipMonotone` | class.py:91 | clipping preserves the order of two values |
| `SafetyScore.RawScore` | class.py:86-90 | when the two sides' forms, goal balances and recent forms are level, the sum is 47.5 − 4·gap; its monotonicity is stated by `ScoreMonotone` and its home/away relation by `RawScoreMirror` |
| `SafetyScore.Score` | class.py:86-91 | the safety score lies in [0, 100] for every input; it equals the weighted sum when that sum is in range, 0 when the sum is negative, and 100 when it exceeds 100 |
| `SafetyScore.ScoreMonotone` | class.py:86-91 | the score is non-decreasing in home form, goal difference and recent home form, and non-increasing in odds gap, away form and recent away form |
| `SafetyScore.ScoreMonotoneInRecords` | class.py:79-91 | with the same odds, a better home record or a worse away record never lowers the score |
| `SafetyScore.RawScoreMirror` | class.py:86-90 | the unclipped scores of a fixture and of its swapped reading add up to 95 − 8·gap |
| `SafetyScore.FavouriteSurvivesSwap` | class.py:78-91 | if a fixture scores above 50, its swapped reading scores below 45 |
| `SafetyScore.EvenFixtureScore` | class.py:78-91 | equal odds and identical statistics give a score of exactly 47.5 |
| `SafetyScore.WidgetRangeFeatureBounds` | class.py:30-55 | within the widget ranges the odds gap is at most 8.99, the form difference within ±250, and the goal difference within ±400 |
| `SafetyScore.RecentLeadSaturatesScore` | class.py:86-91 | within the widget ranges, a recent-form lead of 6/15 or more makes the weighted sum exceed 100, so the score is 100 |
| `SafetyScore.RecentDeficitZeroesScore` | class.py:86-91 | within the widget ranges, a recent-form deficit of 5/15 or more makes the weighted sum negative, so the score is 0 |
| `Probability.ProbHome` | class.py:93 | the home probability lies strictly between 0 and 1 |
| `Probability.ProbAway` | class.py:94 | the away probability lies strictly between 0 and 1 and the two add up to exactly 1 |
| `Probability.PickWinner` | class.py:95 | the home side is chosen exactly when its probability is strictly larger; `HomeWinsIffAboveFifty` turns this into "score above 50" and `TieGoesToAway` gives equal probabilities to the away side |
| `Probability.EvenAtFifty` | class.py:93-94 | at a score of 50 both probabilities are exactly one half |
| `Probability.ProbReflect` | class.py:93-94 | the home probability at 100 − s is the away probability at s |
| `Probability.ProbHomeIncreasing` | class.py:93 | a strictly higher score gives a strictly higher home probability |
| `Probability.HomeWinsIffAboveFifty` | class.py:93-95 | the home side is predicted if and only if the score is above 50 |
| `Probability.TieGoesToAway` | class.py:93-95 | equal probabilities occur only at a score of exactly 50, and then the away side is predicted |
| `FormAnalysis.AnalyseForme` | class.py:98-110 | the report names the team; it says "not played recently" if and only if the three counts add up to 0; otherwise it quotes the wins and the game count |
| `FormAnalysis.BandByWholeNumbers` | class.py:102-110 | for a positive game count t, the band is very good iff 5·wins ≥ 4t, good iff 3t ≤ 5·wins < 4t, average iff 2t ≤ 5·wins < 3t, and in difficulty iff 5·wins < 2t |
| `FormAnalysis.BandMonotoneInWins` | class.py:102-110 | for the same positive game count, more wins never give a worse band |
| `Analysis.Predict` | class.py:93-95 | the home probability is the logistic of the given score, the probabilities are in (0, 1) and add up to 1; the home team is named when the score is above 50, the away team otherwise |
| `Analysis.AnalyseRow` | class.py:78-113 | an analysed row keeps the filled row and its derived features; its score is the clipped weighted sum of those features (in [0, 100]) and its home probability the logistic of that score, with the two probabilities adding to 1; it names the home team exactly when the score is above 50; its two reports are the form analyses of each side's last-five counts |
| `Analysis.AnalyseMatch` | class.py:75-114 | the analysed row holds the entered row with missing numbers set to 0, the features derived from it, the clipped score of those features and the logistic of that score; its winner follows the score's side of 50 |
| `Analysis.Analyse` | class.py:75-114 | the analysed table has one row per input row, in input order, each the analysis of the row at the same position |
| `Analysis.AnalyseAppend` | class.py:75-114 | analysing a table with rows appended leaves the analyses of the earlier rows unchanged |
| `Analysis.WinnerSurvivesSwap` | class.py:78-95 | a home team predicted to win is still predicted when the fixture is read from the other side |
| `Analysis.EvenFixtureGoesToAway` | class.py:78-95 | a fixture with equal odds and identical statistics scores 47.5 and is given to the away team |
| `Analysis.WorkedExample` | class.py:76-95 | odds 1.50/2.50, records 10-2-3 and 4-3-8, goals 20:10 and 12:18, and empty last-five cells give features (1, 29, 7, 16, 0, 0), a score of 83 and the home team as winner |

## Left out

- The page setup, the entry form, the session-state table and row appending
  (class.py:1-70). These are UI and state plumbing. The widget ranges appear
  only as the predicate `WithinWidgetRanges`, used by a few lemmas.
- Rendering of the results (class.py:119-143): the table sorted by score, the
  per-row markdown and the bar chart.
- The exponential in class.py:93. It is a parameter, and the model assumes
  only that it is positive and strictly increasing. The actual numeric values
  of `prob_home`, and floating-point overflow and rounding, are not modelled.
- Probability.ProbHome: does not model floating-point rounding. In doubles
  `prob_home` rounds to exactly 1.0 for scores above about 68.5, so the strict
  upper bound holds for the exact formula but not for the double-precision
  result.
- Probability.ProbAway: for the same reason `prob_away` is exactly 0.0 in
  doubles for scores above about 68.5; its strict lower bound holds for the
  exact formula only.
- SafetyScore.Score: the odds gap, the features and the weighted sum are
  evaluated in exact reals, not doubles, so a score that is exactly 50 or
  exactly 100 in the model may differ from the double-precision result by one
  ulp, which can flip the winner at the midpoint.
- FormAnalysis.AnalyseForme: the win share is compared exactly as a rational,
  not as a double. The messages are reduced to their content (team, band, wins,
  game count); the exact French wording and the emoji are left out.
- Team names are plain strings. `fillna(0)` would also turn a missing name
  into 0, but the entry form always supplies a string.
- Non-integer counts: the entry form's count widgets produce integers, so
  counts are modelled as `int`.
