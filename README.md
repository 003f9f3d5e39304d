# Salary-advance risk scoring: a Dafny model

This project models the deterministic scoring core of the XPX "Score → Explain → Act" demo back end. A salary-advance request goes in, and the engine works out four things:

- a rule score;
- optionally, a blend of that score with a stand-in "ML" probability;
- a risk band with its recommended action;
- the drivers that explain the score.

There are two versions of the engine, and both are modelled:

- **`ScoreEngine`** (`score_engine.dfy`) models the current engine, `backend/app/main.py`.
  - The rule score is the sum of exactly one penalty per dimension (amount, tenure, repayment history, pay frequency), clamped to 0..100.
  - The pay frequency is free text. It is classified with `strip().lower()` and substring tests.
  - The drivers returned are the first three in evaluation order.
- **`ScoreEngineBackup`** (`score_engine_backup.dfy`) models the older engine kept as `backend/app/main.bak.py`.
  - The score starts from a baseline of 10, and each rule adds a penalty only if it fires.
  - Drivers carry an impact. The three with the highest impact are returned, using Python's stable `sorted`.
  - The ML stand-in is a formula over real numbers.
- **`Shared`** (`shared.dfy`) holds what both versions have in common:
  - the saturating clamp;
  - the 0.6/0.4 blend of the rule score with the ML percentage;
  - the 35/65 band table (`band_and_action`, identical in both files).
- **`Text`** (`text.dfy`) models the Python string operations the current engine applies to the pay frequency: `in`, `lower()` and `strip()`.
- **`ImpactSort`** (`impact_sort.dfy`) models `sorted(drivers, key=impact, reverse=True)`. It is written as a functional insertion sort, which is the specification, and an imperative method proved equal to it.

The rule blocks of `rules_score` and the accumulations of `ml_score` are written as methods. Each method is proved equal to a specification function, and the properties are proved about those functions.

What the code does, which the model follows:

- The band thresholds are 35 and 65.
- The current engine's score starts at 0, the backup's at 10.
- The current engine keeps the first three drivers in evaluation order, which always drops the pay-frequency driver.
- The backup sorts its drivers by impact, highest first, and keeps three.
- The policy citation is a fixed string in both versions.

## Model

| member | source | states |
|---|---|---|
| Shared.Clamp | xpx-score-explain-act/backend/app/main.py:102-103 | `max(lo, min(hi, x))` lands in lo..hi, is the identity inside the range and saturates at each end instead of wrapping |
| Shared.BlendedScore | xpx-score-explain-act/backend/app/main.py:145-146 | `int(round(0.6*rules + 0.4*ml))`: the result is within 0.4 of the exact blend, so it is its nearest integer and no tie arises. It also lies between the smaller and the larger of the two inputs |
| Shared.BandAndAction | xpx-score-explain-act/backend/app/main.py:128-133 | every integer score falls into exactly one band: Green below 35, Amber from 35 to 64, Red from 65. The action is the one that goes with the band |
| Shared.BandMonotone | xpx-score-explain-act/backend/app/main.bak.py:119-124 | a higher score never falls into a less risky band |
| Shared.ActionDeterminesBand | xpx-score-explain-act/backend/app/main.py:128-133 | two scores get the same action exactly when they get the same band |
| Text.ContainsIffOccurs | xpx-score-explain-act/backend/app/main.py:92 | the substring test `p in s` holds exactly when p occurs in s at some index |
| Text.LowerSpec | xpx-score-explain-act/backend/app/main.py:91 | `lower()` keeps the length and lowers each character in place |
| Text.TrimStartSpec | xpx-score-explain-act/backend/app/main.py:91 | the left half of `strip()`: the result is a suffix of the input, everything removed is whitespace, and the result does not start with whitespace |
| Text.TrimEndSpec | xpx-score-explain-act/backend/app/main.py:91 | the right half of `strip()`: the result is a prefix of the input, everything removed is whitespace, and the result does not end with whitespace |
| Text.ContainsIgnoresStrip | xpx-score-explain-act/backend/app/main.py:91-95 | for a word that neither starts nor ends with whitespace, stripping before lowering never changes whether the word is found |
| Text.LowerKeepsLowercase | xpx-score-explain-act/backend/app/main.py:91 | a string without capital letters is unchanged by `lower()` |
| Text.AbsentFirstLetter | xpx-score-explain-act/backend/app/main.py:92-95 | a word whose first letter does not occur in the string is not found |
| ScoreEngine.AmountRule | xpx-score-explain-act/backend/app/main.py:57-66 | the amount block adds between 10 and 35 points, records one of the three amount texts, and the points are those of the recorded driver |
| ScoreEngine.TenureRule | xpx-score-explain-act/backend/app/main.py:68-77 | the tenure block adds between 5 and 30 points, records one of the three tenure texts, and the points are those of the recorded driver |
| ScoreEngine.RepaymentRule | xpx-score-explain-act/backend/app/main.py:79-88 | the repayment block adds between 5 and 35 points, records one of the three repayment texts, and the points are those of the recorded driver |
| ScoreEngine.PayFrequencyRule | xpx-score-explain-act/backend/app/main.py:90-100 | the pay-frequency block adds between 5 and 15 points, records one of the three pay-frequency texts, and the points are those of the recorded driver |
| ScoreEngine.RulesRiskScore | xpx-score-explain-act/backend/app/main.py:102-103 | the clamped rule score lies in 25..100 and equals the raw sum capped at 100; the lower clamp never acts |
| ScoreEngine.RulesScore | xpx-score-explain-act/backend/app/main.py:49-107 | `rules_score` returns the clamped sum of the four penalties and the first three drivers in evaluation order |
| ScoreEngine.AddAmountPenalty | xpx-score-explain-act/backend/app/main.py:57-66 | the amount block adds exactly the amount rule's points and appends its driver |
| ScoreEngine.AddTenurePenalty | xpx-score-explain-act/backend/app/main.py:68-77 | the tenure block adds exactly the tenure rule's points and appends its driver |
| ScoreEngine.AddRepaymentPenalty | xpx-score-explain-act/backend/app/main.py:79-88 | the repayment block adds exactly the repayment rule's points and appends its driver |
| ScoreEngine.AddPayFrequencyPenalty | xpx-score-explain-act/backend/app/main.py:90-100 | the pay-frequency block adds exactly the pay rule's points and appends its driver |
| ScoreEngine.MlPercent | xpx-score-explain-act/backend/app/main.py:110-125 | the model probability, in hundredths, lies in 15..95, so the clamp to 1..95 never changes it |
| ScoreEngine.MlScore | xpx-score-explain-act/backend/app/main.py:110-125 | `ml_score` accumulates the four increments and clamps. The result is the specified percentage and lies in 15..95 |
| ScoreEngine.Score | xpx-score-explain-act/backend/app/main.py:136-161 | see the list below this table |
| ScoreEngine.OneDriverPerDimension | xpx-score-explain-act/backend/app/main.py:54-100 | each dimension records exactly one driver from its own three texts, in the order amount, tenure, repayment, pay frequency |
| ScoreEngine.TextsDistinct | xpx-score-explain-act/backend/app/main.py:60-100 | the twelve driver texts are pairwise different, so a list of drivers and the list of their texts determine each other |
| ScoreEngine.TopDriversOmitPayFrequency | xpx-score-explain-act/backend/app/main.py:105-106 | exactly three drivers are returned, and never the pay-frequency driver, whatever the pay frequency |
| ScoreEngine.AmountThresholds | xpx-score-explain-act/backend/app/main.py:58-66 | for every amount: the high driver exactly when amount >= 2000, the medium one exactly when 1000 <= amount < 2000, the low one exactly when amount < 1000 |
| ScoreEngine.TenureThresholds | xpx-score-explain-act/backend/app/main.py:69-77 | for every tenure: the low driver exactly when months < 3, the moderate one exactly when 3 <= months < 12, the established one exactly when months >= 12 |
| ScoreEngine.RepaymentThresholds | xpx-score-explain-act/backend/app/main.py:80-88 | for every repayment score: the weak driver exactly when score < 580, the average one exactly when 580 <= score < 650, the strong one exactly when score >= 650 |
| ScoreEngine.RulesScoreMonotone | xpx-score-explain-act/backend/app/main.py:57-103 | a larger amount, shorter tenure or weaker repayment history, with the same pay frequency, never lowers the rule score |
| ScoreEngine.ClampBindsAtTop | xpx-score-explain-act/backend/app/main.py:102-103 | the upper clamp does act: the riskiest request sums to 115 and scores 100 |
| ScoreEngine.TopDriversNotByImpact | xpx-score-explain-act/backend/app/main.py:105-106 | despite the "highest impact first-ish" comment, a weekly low-amount request keeps its 10-point amount driver and drops its 15-point pay driver |
| ScoreEngine.PayFrequencyBranches | xpx-score-explain-act/backend/app/main.py:90-100 | see the list below this table |
| ScoreEngine.PayFrequencyIsWeekly | xpx-score-explain-act/backend/app/main.py:91-94 | a pay frequency whose lowered text has "week" at some index takes the weekly branch |
| ScoreEngine.BiweeklyTakesWeeklyBranch | xpx-score-explain-act/backend/app/main.py:92-97 | "biweekly" contains "week", so it takes the weekly branch (+15), never the biweekly one |
| ScoreEngine.MonthlyTakesMonthlyBranch | xpx-score-explain-act/backend/app/main.py:92-100 | "monthly" takes the monthly branch (+5) |
| ScoreEngine.MlFollowsRiskiestBranches | xpx-score-explain-act/backend/app/main.py:114-123 | the model's increments fire on exactly the riskiest amount, tenure and repayment branches of the rules and on the weekly pay branch |
| ScoreEngine.BlendedScoreBounds | xpx-score-explain-act/backend/app/main.py:143-146 | the blended score lies between the rule score and the model percentage, so it is within 15..100 |
| ScoreEngine.BoundaryScenario | xpx-score-explain-act/backend/app/main.py:49-161 | amount 2000, tenure 12, repayment 650, monthly: the high-amount, established-tenure and strong-repayment drivers, rule score 50, model 35, blend 44, Amber |
| ImpactSort.InsertionPoint | xpx-score-explain-act/backend/app/main.bak.py:101 | the position at which a driver is inserted: every driver before it has at least its impact, and the one after it has less |
| ImpactSort.InsertAt | xpx-score-explain-act/backend/app/main.bak.py:101 | insertion puts the driver exactly at that position |
| ImpactSort.InsertSorted | xpx-score-explain-act/backend/app/main.bak.py:101 | inserting into a list ordered by impact, highest first, keeps it ordered |
| ImpactSort.InsertPermutes | xpx-score-explain-act/backend/app/main.bak.py:101 | insertion adds the driver and nothing else, as a multiset |
| ImpactSort.InsertKeepsClasses | xpx-score-explain-act/backend/app/main.bak.py:101 | insertion appends the driver to the end of its own impact class and leaves every other class alone |
| ImpactSort.SortByImpactSorted | xpx-score-explain-act/backend/app/main.bak.py:101 | the sort orders drivers by impact, highest first |
| ImpactSort.SortByImpactPermutes | xpx-score-explain-act/backend/app/main.bak.py:101 | the sort is a permutation of its input |
| ImpactSort.SortByImpactStable | xpx-score-explain-act/backend/app/main.bak.py:101 | the sort is stable: drivers of equal impact keep their input order |
| ImpactSort.SortByImpactDescending | xpx-score-explain-act/backend/app/main.bak.py:101 | the imperative insertion sort returns exactly the specified stable sort |
| ScoreEngineBackup.FourDimensions | xpx-score-explain-act/backend/app/main.bak.py:63-95 | the fired drivers and the raw score, written out dimension by dimension in the order amount, tenure, pay frequency, repayment |
| ScoreEngineBackup.Take | xpx-score-explain-act/backend/app/main.bak.py:101 | `xs[:n]` is the prefix of length min(n, len(xs)) |
| ScoreEngineBackup.RulesScore | xpx-score-explain-act/backend/app/main.bak.py:63-102 | `rules_score` returns the baseline plus the penalties that fired (always within 10..93) and the three drivers of highest impact, in the order of the stable sort |
| ScoreEngineBackup.AddAmountPenalty | xpx-score-explain-act/backend/app/main.bak.py:68-74 | the amount block adds the penalty's points and appends its driver when it fires, and changes nothing otherwise |
| ScoreEngineBackup.AddTenurePenalty | xpx-score-explain-act/backend/app/main.bak.py:76-82 | the same for the tenure block |
| ScoreEngineBackup.AddPayFrequencyPenalty | xpx-score-explain-act/backend/app/main.bak.py:84-87 | the same for the pay-frequency block |
| ScoreEngineBackup.AddRepaymentPenalty | xpx-score-explain-act/backend/app/main.bak.py:89-95 | the same for the repayment block |
| ScoreEngineBackup.RawRulesScoreBounds | xpx-score-explain-act/backend/app/main.bak.py:63-98 | the score before the clamp lies in 10..93, so the clamp to 0..100 never changes it |
| ScoreEngineBackup.FiredDriversShape | xpx-score-explain-act/backend/app/main.bak.py:42-44 | at most four drivers fire, and every impact lies in 0..100 as the `Driver` model declares |
| ScoreEngineBackup.PayPenaltyExactlyWhenNotMonthly | xpx-score-explain-act/backend/app/main.bak.py:84-87 | the pay-frequency penalty and its driver apply exactly when pay is weekly or biweekly |
| ScoreEngineBackup.RulesScoreMonotone | xpx-score-explain-act/backend/app/main.bak.py:63-98 | a larger amount, shorter tenure, weaker repayment history, or a weekly or biweekly pay cycle instead of monthly, never lowers the rule score |
| ScoreEngineBackup.TopDriversOrdered | xpx-score-explain-act/backend/app/main.bak.py:100-101 | min(3, fired) drivers are returned, ordered by impact, highest first |
| ScoreEngineBackup.TopDriversStable | xpx-score-explain-act/backend/app/main.bak.py:100-101 | for each impact, the returned drivers of that impact are a prefix of the fired ones, so ties keep their firing order |
| ScoreEngineBackup.TopDriversFired | xpx-score-explain-act/backend/app/main.bak.py:100-101 | every returned driver is one that fired |
| ScoreEngineBackup.TopDriversHighest | xpx-score-explain-act/backend/app/main.bak.py:100-101 | no fired driver that is left out has a higher impact than a returned one |
| ScoreEngineBackup.MlProbability | xpx-score-explain-act/backend/app/main.bak.py:105-116 | the model probability lies in 0..0.95 |
| ScoreEngineBackup.MlScore | xpx-score-explain-act/backend/app/main.bak.py:105-116 | `ml_score` accumulates the three shares and clamps. The result is the specified probability and lies in 0..0.95 |
| ScoreEngineBackup.MlClampInactive | xpx-score-explain-act/backend/app/main.bak.py:31-38 | on a request within the declared field bounds, the raw probability lies in 0.1035..0.80, so the clamp never acts |
| ScoreEngineBackup.RoundHalfEven | xpx-score-explain-act/backend/app/main.bak.py:137 | Python's `round` gives an integer within 0.5 of its argument, and an even one on a tie |
| ScoreEngineBackup.MlPercent | xpx-score-explain-act/backend/app/main.bak.py:137 | `int(round(mls * 100))` of a probability in 0..0.95 lies in 0..95 |
| ScoreEngineBackup.BlendBoundedUnderAnyRounding | xpx-score-explain-act/backend/app/main.bak.py:137-138 | for a rule score in 10..93, the blend stays in 0..96 under any rounding of the probability that lands within one of the exact percentage |
| ScoreEngineBackup.Score | xpx-score-explain-act/backend/app/main.bak.py:127-154 | see the list below this table |

Contracts too long for a table cell:

- `ScoreEngine.Score`:
  - The request id, citation and drivers do not depend on the mode.
  - Under RULES_ONLY there is no `ml_score`, and the score is the rule score.
  - Under ML_PLUS_RULES the score is the blend of the rule score with the model percentage, and that percentage is reported.
  - The score always lies in 0..100.
  - The band and the action are those of the score.
- `ScoreEngine.PayFrequencyBranches`: "week" is tested first. The weekly branch fires exactly when the lowered text contains "week". The biweekly branch fires exactly when it contains "bi" but not "week". The monthly branch fires otherwise. Surrounding whitespace never matters.
- `ScoreEngineBackup.Score`:
  - The mode comes from the request body and is echoed.
  - Under rules_only there is no `ml_score`, and the score is the rule score.
  - Under ml_plus_rules the score is the blend with the rounded percentage, and the probability is reported.
  - The score lies in 0..100 even though this version never clamps the blend.
  - The band and the action are those of the score.

## Left out

- The HTTP layer is not modelled: FastAPI, CORS, the `/health` endpoints, the response-model serialisation, and the second `app` that main.bak.py rebinds at lines 155-170.
- Pydantic's request validation is not modelled as an operation. In the current engine, `ScoreEngine` needs none of its bounds. In the backup, the declared bounds appear as `ScoreEngineBackup.ValidRequest`, required only by the lemma that needs them.
- Default values of omitted fields are not modelled. The callers pass every field. These defaults are: mode ML_PLUS_RULES in main.py; mode rules_only and repayment score 600 in main.bak.py.
- The employer field is carried but never read by either engine.
- The drivers of the current engine are values of `ScoreEngine.Reason`, one per driver text, and the response holds those values. `Reason.Text()` gives the exact string that `rules_score` appends, and `ScoreEngine.TextsDistinct` shows that nothing is lost by comparing values instead of strings.
- ScoreEngine.MlScore: reports the probability in integer hundredths instead of a binary float. Every increment of the current engine is a multiple of 0.05, so `round(prob * 100)` cannot be moved by float error and the blend is unaffected. The float value itself (for example 0.35 versus 0.35000000000000003) is not represented.
- ScoreEngineBackup.MlScore: computes over exact real numbers, not binary floats.
- ScoreEngineBackup.MlPercent: rounds the exact real product with round-half-even. A float product that lands just on the other side of a .5 tie could round one unit differently. `ScoreEngineBackup.BlendBoundedUnderAnyRounding` states the bound that holds under any such rounding.
- `lower()` and `strip()` are modelled on ASCII only. Unicode case mapping and Unicode whitespace beyond the ASCII separators are not represented.
- The amount of the current engine is a real number, not a float. Only the comparisons against 2000 and 1000 read it.
- The rule blocks of both `rules_score` functions are written as one helper method per block. Each helper has the same branches, constants and appends as its block.
- Per-rule policy identifiers, choosing the citation from the fired rules, and error results are not implemented by either engine, so they are not modelled.
