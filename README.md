# PASSAGE Health risk engine, modelled in Dafny

This project models the rule-based risk engine of the PASSAGE Health
frailty and hospitalization-risk dashboard (`app.py`). It covers two parts.

The first is `calculate_risk`. It scores seven patient attributes in three
layers:

- clinical: age 75 or over +2, multiple comorbidities +3, quality of life
  below 60 +2;
- functional: gait speed below 0.8 m/s +2, three or more frailty criteria +3;
- social: living alone +1, a fall in the past 12 months +2.

It adds the layers into a raw total. The probability is
`logistic(0.9 * (total - 4))`. The confidence is
`min(0.95, 0.6 + 0.03 * total)`.

The second is the step behind "Generate Risk Profile". It cuts the
probability at 0.2 and 0.5 into Low, Moderate and High.

Files and modules:

- `logistic.dfy`, module `LogisticTransform`: the logistic function
  `1 / (1 + exp(-x))`. The exponential is a parameter `exp`. It is assumed
  to satisfy the two laws that determine the real exponential uniquely:
  `exp(x) >= 1 + x` and `exp(x + y) == exp(x) * exp(y)` (predicate `IsExp`).
  From these laws alone the module derives `exp(0) == 1`, positivity, strict
  monotonicity and `1 < exp(0.9) < 4 < exp(1.8)`. So the logistic is
  strictly increasing, is exactly 1/2 at 0, and lies in (0, 1).
- `risk_levels.dfy`, module `RiskLevels`: the three-way classification of a
  probability.
- `risk_engine.dfy`, module `RiskEngine`: the observation record, the three
  sub-scores and the total as specification functions, the confidence, and
  `calculate_risk` as an imperative method. The method accumulates each layer
  with conditional `+=` updates and is proved equal to the specification
  functions. The module also holds the lemmas that tie the total to the
  level.

The main results:

- The level depends only on the raw total: 0 to 2 points give Low, 3 points
  give Moderate, and 4 or more give High (`LevelByTotal`).
- A total of 4 gives a probability of exactly 0.5.
- Every sub-score is bounded and monotone in the risk factors, and so are the
  total and the level.
- The functional and social sub-scores tell exactly which of their rules
  fired. The parity of the clinical sub-score tells whether the comorbidity
  rule fired.

## Model

| member | source | states |
|---|---|---|
| `LogisticTransform.Logistic` | app.py:63-64 | the logistic of any argument is a probability strictly between 0 and 1 |
| `LogisticTransform.ExpStrictlyIncreasing` | app.py:63-64 | under the exponential laws, exp is strictly increasing |
| `LogisticTransform.ExpBoundsAtCutPoints` | app.py:63-64 | under the exponential laws, 1 < exp(0.9) < 4 < exp(1.8) |
| `LogisticTransform.LogisticAtZero` | app.py:63-64 | logistic(0) is exactly 1/2 |
| `LogisticTransform.LogisticStrictlyIncreasing` | app.py:63-64 | the logistic is strictly increasing |
| `LogisticTransform.LogisticBelowHalf` | app.py:63-64 | logistic(x) < 1/2 if and only if x < 0 |
| `LogisticTransform.LogisticBelowFifth` | app.py:63-64 | logistic(x) < 0.2 if and only if exp(-x) > 4 |
| `RiskLevels.Classify` | app.py:129-137 | each probability falls in exactly one band: Low below 0.2, Moderate in [0.2, 0.5), High from 0.5 on |
| `RiskLevels.ClassifyMonotone` | app.py:129-137 | a higher probability never gives a lower level |
| `RiskEngine.ClinicalScore` | app.py:71-74 | the clinical score is at most 7; it is odd exactly when comorbidity is "Multiple"; it is 0 exactly when no clinical rule fires and 7 exactly when all three fire |
| `RiskEngine.FunctionalScore` | app.py:77-79 | the functional score is at most 5; its residue mod 3 is 2 exactly when gait speed is below 0.8; it is at least 3 exactly when frailty is at least 3 |
| `RiskEngine.SocialScore` | app.py:82-84 | the social score is at most 3; it is odd exactly when living alone and at least 2 exactly when there was a fall |
| `RiskEngine.TotalScore` | app.py:86 | the raw total is at most 15; it is 15 exactly when all seven rules fire and 0 exactly when none fires |
| `RiskEngine.Probability` | app.py:87 | the probability of any total lies strictly between 0 and 1 |
| `RiskEngine.Confidence` | app.py:89 | the confidence of a raw total lies in [0.6, 0.95] and equals 0.95 exactly when the total is at least 12 |
| `RiskEngine.ConfidenceMonotone` | app.py:89 | the confidence never decreases as the total grows |
| `RiskEngine.CalculateRisk` | app.py:66-91 | the accumulated sub-scores equal the clinical, functional and social specification functions, and their sum is the total; probability and confidence are those of that total |
| `RiskEngine.ProbabilityAtOffset` | app.py:87 | a total of 4 gives a probability of exactly 0.5 |
| `RiskEngine.ProbabilityIncreasing` | app.py:87 | the probability is strictly increasing in the total |
| `RiskEngine.ProbabilityBelowHalf` | app.py:87 | the probability is below 0.5 if and only if the total is below 4 |
| `RiskEngine.LevelByTotal` | app.py:129-137 | the level of a total's probability is Low for totals up to 2, Moderate for 3 and High from 4 on |
| `RiskEngine.LevelMonotoneInTotal` | app.py:129-137 | a larger total never gives a lower level |
| `RiskEngine.ScoresMonotone` | app.py:71-86 | a patient who has every risk factor of another, field by field, has each sub-score and the total at least as high |
| `RiskEngine.TotalMonotoneInEachInput` | app.py:72-84 | with all else fixed, raising age or frailty, lowering quality of life or gait speed, or setting the comorbidity to "Multiple" or a flag to true never lowers the total |
| `RiskEngine.OnlyMultipleComorbidityScores` | app.py:73 | "None", "Single" and any text other than "Multiple" give the same clinical score; "Multiple" adds exactly 3 |
| `RiskEngine.LevelMonotoneInObservation` | app.py:66-91 | a patient who has every risk factor of another never receives a lower level |
| `RiskEngine.GenerateRiskProfile` | app.py:123-137 | the profile's sub-scores, probability and confidence are those of the observation; the level is the classification of the probability: Low exactly for totals up to 2, Moderate for 3, High from 4 on |

## Left out

- The exponential itself (`numpy.exp`) is not computed. Every result about
  the probability assumes `IsExp(exp)`: `exp` satisfies `exp(x) >= 1 + x` and
  `exp(x + y) == exp(x) * exp(y)`. These laws hold of the real exponential
  and of no other function.
- Floating point is not modelled. Gait speed, quality of life, probability
  and confidence are exact reals. On the cut points that matter (totals 3, 4,
  11 and 12) the double-precision results fall on the same side of 0.2, 0.5
  and 0.95 as the exact values.
- Rendering of percentages with one decimal is not modelled, because it is
  presentation only.
- The Streamlit page, widgets, metrics, progress bars and CSS classes are not
  modelled, because they are presentation only. The widget ranges (age 40 to
  100, quality of life 0 to 100, gait speed 0.1 to 2.0, frailty 0 to 5) are
  not assumed. `calculate_risk` itself checks nothing, and every contract
  here holds for all inputs.
- The empty Patient ID warning is not modelled. It is a UI check that does
  not reach the engine.
- CSV loading, saving and the appended result row are not modelled, because
  they are file I/O through pandas.
- The Patient Registry and Population Dashboard views are not modelled. They
  are pandas filters, sorts, aggregates and charts.
- The timestamp taken from the clock is not modelled.
