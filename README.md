# ESG pre-assessment engine — a Dafny model

This is a model of the deterministic engine in `app/logic.py`. The engine does three things:

- **`classify_user`** weighs seven yes/no onboarding answers into a green score and a sustainability-linked-loan (sll) score. It then picks the `"green"`, `"sll"` or `"other"` track, in that order of precedence.
- **`calculate_carbon_proxy`** multiplies annual electricity, fuel and water use by fixed emission factors: 0.82 kgCO2/kWh, 2.68 kgCO2/l and 0.000376 kgCO2/l. It rounds each contribution and the total to two decimals, and the unit is `kgCO2e/year`.
- **`generate_scorecard`** uses the category to pick one of three rubrics: green, sll, or the fallback for any other name.
  - Each rubric is a fixed, ordered list of bucketed criteria.
  - Each criterion writes one breakdown entry and adds its points to the score. Some criteria also add a suggestion when they land in their lowest bucket.
  - The fallback rubric adds two default suggestions when none of its criteria added one.
  - The score is capped at 100 and rated A/B/C/D.

Modules, one per concern:

| module | file | contents |
|---|---|---|
| `Wrappers` | wrappers.dfy | `Option` |
| `Text` | text.dfy | `str()` of an optional field, ASCII `.lower()`, `startswith`, substring test, distinct-keyword count, the goal-clarity pattern |
| `Intake` | intake.dfy | the onboarding answers and the three intake records (app/models.py); the `data.get` views of an intake dictionary |
| `Classifier` | classifier.dfy | `classify_user` (an imperative method) and its decision function |
| `Carbon` | carbon.dfy | `calculate_carbon_proxy` (pure) |
| `Criteria` | criteria.dfy | the sixteen criteria, each a function from its field to a `Verdict` (name, points, maximum, optional suggestion) |
| `Scoring` | scoring.dfy | the rubric tables, `generate_scorecard` as a method that accumulates score, breakdown and suggestions, and the lemmas about them |

How the model represents the engine's data:

- **The intake dictionary.** The scoring and carbon code receive the intake as a dict and read every field with `data.get(key, default)`. In the model, an `Intake` is one of the three validated record shapes. When a rubric reads a field that the shape does not have, it sees the default: 0 for a number, `""` for a text.
- **The breakdown.** The breakdown dict is written once per criterion under fixed, distinct keys. It is modelled as the ordered sequence of its entries. `Scoring.KeysDistinct` shows that no key is written twice, so the sequence and the dict agree.
- **Unknown categories.** `classify_user` names three tracks (app/logic.py:6), and the intake form route accepts only those three names (app/routes/forms.py:85). The submit route, however, takes the category from the form without checking it (app/routes/forms.py:104), and `generate_scorecard` sends every name other than `"green"` and `"sll"` to the fallback rubric (app/logic.py:251). The model therefore accepts any category string and proves its properties for all of them.
- **`str(None)`.** Three fields are read with a bare `str(...)`: governance policies, existing docs and interest areas. For those fields a missing value becomes the text `"none"`. This text contains no keyword and is below every length threshold (`Criteria.NoneTextLandsInLowestBucket`).

## Model

| member | source | states |
|---|---|---|
| Classifier.ClassifyUser | app/logic.py:3-33 | The accumulated result is the decision function. It is `"green"` iff the green weight is at least 3. It is `"sll"` iff the green weight is below 3 and the sll weight is at least 2. Otherwise it is `"other"`. |
| Classifier.GreenWeight | app/logic.py:11-19 | The green weight is between 0 and 6. |
| Classifier.SllWeight | app/logic.py:13-26 | The sll weight, including the half point, is between 0 and 4.5. |
| Classifier.Classification | app/logic.py:28-33 | The result is always one of the three track names. |
| Classifier.ThresholdsByAnswers | app/logic.py:11-31 | States both thresholds as conditions on the answers, each as an iff. Green is reached by both measurement answers, or by one of them with manufacturing or significant energy use. Sll is reached by goals, or by an ESG loan together with employee policies. |
| Classifier.TracksAndMeasuresIsGreen | app/logic.py:16-19 | Tracked metrics plus measured emissions give the green track. |
| Classifier.GoalsBelowGreenIsSll | app/logic.py:21-30 | Below the green threshold, sustainability goals give the sll track. |
| Classifier.GreenTakesPrecedence | app/logic.py:28-31 | Green wins even when the sll threshold is also met. |
| Classifier.EnergyAloneIsNotSll | app/logic.py:13-15 | Without goals, and without both an ESG loan and policies, the track is never sll, since energy use adds only half a point. |
| Classifier.BoundaryAnswers | app/logic.py:8-33 | All-false answers give `"other"`. Two further concrete answer sets are shown with their weights and tracks. |
| Carbon.Round2 | app/logic.py:62-66 | Rounding to two decimals gives a multiple of 0.01 at most 0.005 away, and keeps a non-negative value non-negative. |
| Carbon.CalculateCarbonProxy | app/logic.py:35-69 | The unit is fixed and there are three sources in order. Each contribution is its quantity times its factor, rounded on its own. The total is the rounded sum of the unrounded products, and lies within 0.005 of the exact emissions. |
| Carbon.MissingFieldsGiveZero | app/logic.py:45-47 | Missing or zero quantities give a zero total and zero contributions. |
| Carbon.NonGreenIntakeGivesZero | app/logic.py:45-47 | An intake without the green fields gives a zero estimate. |
| Carbon.NonNegativeInputsGiveNonNegativeEstimate | app/logic.py:55-66 | Non-negative quantities give a non-negative total and contributions. |
| Carbon.RoundingGap | app/logic.py:61-67 | The rounded contributions and the rounded total differ by at most 0.02. |
| Carbon.RoundingGapReached | app/logic.py:61-67 | The gap of 0.02 is attained. Three contributions of 0.125 each display as 0.12, but their total of 0.375 displays as 0.38. These values are ties that binary doubles hold exactly, so the reals and the doubles round them the same way. |
| Carbon.WorkedExample | app/logic.py:50-66 | 1000 kWh, 100 l of fuel and 10000 l of water give 820, 268, 3.76 and a total of 1091.76. |
| Text.Lower | app/logic.py:181 | Lowercasing keeps the length, leaves no upper-case ASCII letter, shifts each upper-case letter to its lower-case partner and leaves every other character unchanged. |
| Text.LowerIdempotent | app/logic.py:181 | Lowering an already lowered text changes nothing. |
| Text.ContainsIffOccurs | app/logic.py:220 | The substring scan succeeds exactly when the keyword occurs at some position. |
| Text.CountMatches | app/logic.py:220 | The count is at most the number of keywords. It is 0 exactly when no keyword occurs. |
| Text.CountIsDistinctKeywords | app/logic.py:268 | For a list without repeats, the count is the number of distinct keywords found, not the number of occurrences. |
| Text.EmptyTextMatchesNothing | app/logic.py:218-220 | The empty text contains no keyword of a list without empty keywords, so its count is 0. |
| Criteria.RenewableEnergy | app/logic.py:84-97 | At most 25. Full iff the share is over 50. The solar suggestion comes exactly when the share is at most 0, which is exactly when the points are 0. |
| Criteria.EnergyEfficiency | app/logic.py:99-111 | At most 15. Full iff below 10000 kWh. The audit suggestion comes exactly at 100000 kWh or more, which is exactly 0 points. |
| Criteria.FuelEfficiency | app/logic.py:113-125 | At most 15. Full iff below 1000 l. The fleet suggestion comes exactly at 10000 l or more, which is exactly 0 points. |
| Criteria.WaterManagement | app/logic.py:127-139 | At most 10. Full iff below 50000 l. The rainwater suggestion comes exactly at 500000 l or more, which is exactly 0 points. |
| Criteria.WasteReduction | app/logic.py:141-153 | At most 15. Full iff below 100 kg. The segregation suggestion comes exactly at 1000 kg or more, which is exactly 0 points. |
| Criteria.GreenTechnology | app/logic.py:155-163 | At most 15. Full iff the equipment text is present and longer than 5. Otherwise 0 with the equipment suggestion. |
| Criteria.SectorBonus | app/logic.py:165-173 | At most 5. Full iff the code starts with 35, 38 or 39, else 0. Never a suggestion. |
| Criteria.GoalClarity | app/logic.py:178-190 | At most 20. Full iff the lowercased goals hold a percentage and are longer than 30. The targets suggestion comes exactly when the goals are at most 20 long, which is exactly 0 points. |
| Criteria.SafetyRecord | app/logic.py:192-204 | At most 25. Full iff there are no incidents. The safety suggestion comes exactly above 5 incidents, which is exactly 0 points. |
| Criteria.DiversityTracking | app/logic.py:206-214 | At most 15. Full iff the statistics are present and longer than 5. Otherwise 0 with the diversity suggestion. |
| Criteria.Governance | app/logic.py:216-228 | At most 20. Full iff two or more governance keywords occur. The policies suggestion comes exactly when none occurs and the text is at most 20 long, which is exactly 0 points. |
| Criteria.EmployeeTraining | app/logic.py:230-238 | At most 10. Full iff the programmes text is present and longer than 5. Otherwise 0 with the training suggestion. |
| Criteria.OrganizationScale | app/logic.py:240-249 | Between 5 and 10. Full iff more than 50 employees. Never a suggestion. |
| Criteria.BusinessClarity | app/logic.py:254-263 | Between 5 and 20. Full iff the description is longer than 100. Never a suggestion. |
| Criteria.Documentation | app/logic.py:265-277 | At most 40. Full iff two or more certification keywords occur. The documenting suggestion comes exactly when none occurs and the text is at most 30 long, which is exactly 0 points. |
| Criteria.SustainabilityInterest | app/logic.py:279-291 | Between 10 and 40. Full iff three or more interest keywords occur. The quick-wins suggestion comes exactly when none occurs, which is exactly 10 points. |
| Criteria.InverseScaledNonIncreasing | app/logic.py:99-153 | More electricity, fuel, water or waste never gives more points. |
| Criteria.RenewableNonDecreasing | app/logic.py:84-94 | A larger renewable share never gives fewer points. |
| Criteria.SafetyNonIncreasing | app/logic.py:192-204 | More incidents never give more points (non-negative counts). |
| Criteria.KeywordCountsAreDistinct | app/logic.py:218-220 | None of the three keyword lists repeats a keyword, so every keyword criterion counts the distinct keywords found in its text, not the occurrences. |
| Criteria.NoneMatchesNoKeyword | app/logic.py:217-220 | `str(None).lower()` is `"none"`, which holds no keyword of any list. |
| Criteria.NoneTextLandsInLowestBucket | app/logic.py:216-228 | A missing governance, documentation or interest field scores its lowest bucket and adds its suggestion. |
| Scoring.Rating | app/logic.py:302-309 | The four rating bands are given as iffs. They are exhaustive and disjoint. |
| Scoring.BreakdownEntries | app/logic.py:96-97 | The breakdown has one entry per criterion, holding that criterion's name and points, in order. |
| Scoring.Extend | app/logic.py:96-97 | Running one more criterion adds its entry, its suggestion (if any) and its points, and nothing else. |
| Scoring.BreakdownSumsToTotal | app/logic.py:96-97 | The score is the sum of the breakdown's values. |
| Scoring.WithinCapacity | app/logic.py:80-291 | Criteria within their maxima give a score between 0 and the sum of the maxima. |
| Scoring.GreenRubricBounded | app/logic.py:80-173 | Every green criterion is within its maximum. |
| Scoring.GreenRubricCapacity | app/logic.py:80-173 | The green maxima add up to 25+15+15+10+15+15+5 = 100. |
| Scoring.GreenRubricKeys | app/logic.py:96-172 | The green breakdown has exactly the seven fixed keys, in order. |
| Scoring.SllRubricBounded | app/logic.py:175-249 | Every sll criterion is within its maximum. |
| Scoring.SllRubricCapacity | app/logic.py:175-249 | The sll maxima add up to 20+25+15+20+10+10 = 100. |
| Scoring.SllRubricKeys | app/logic.py:189-248 | The sll breakdown has exactly the six fixed keys, in order. |
| Scoring.OtherRubricBounded | app/logic.py:251-291 | Every fallback criterion is within its maximum. |
| Scoring.OtherRubricCapacity | app/logic.py:251-291 | The fallback maxima add up to 20+40+40 = 100. |
| Scoring.OtherRubricKeys | app/logic.py:262-290 | The fallback breakdown has exactly the three fixed keys, in order. |
| Scoring.RubricShape | app/logic.py:80-291 | For every category: criteria within their maxima, maxima adding up to 100, and the key list of the rubric that the category selects. |
| Scoring.ScoreNeverCapped | app/logic.py:298-299 | The score before the cap is always between 0 and 100, so the cap never changes it. |
| Scoring.KeysDistinct | app/logic.py:96-290 | The keys of each rubric are pairwise distinct. |
| Scoring.GreenSuggestions | app/logic.py:80-173 | The green suggestions are exactly one per criterion in its lowest bucket, in criterion order. Each condition is given on the inputs. The sector bonus adds none. |
| Scoring.SllSuggestions | app/logic.py:175-249 | The sll suggestions are exactly one per criterion in its lowest bucket, in criterion order. Each condition is given on the inputs. The scale factor adds none. |
| Scoring.OtherSuggestions | app/logic.py:251-291 | The fallback criteria's suggestions are documentation's, then interests'. Each condition is given on the inputs. Business clarity adds none. |
| Scoring.FallbackSuggestions | app/logic.py:293-296 | The fallback suggestion list is never empty. It is the two defaults iff neither the documentation nor the interest criterion is in its lowest bucket. |
| Scoring.GreenBranch | app/logic.py:80 | `"green"` selects the green rubric, with no defaults added. |
| Scoring.SllBranch | app/logic.py:175 | `"sll"` selects the sll rubric, with no defaults added. |
| Scoring.OtherBranch | app/logic.py:251-296 | Any other name selects the fallback rubric. Its suggestions are the defaults when the criteria added none, else the criteria's own. |
| Scoring.MismatchedGreenIntake | app/logic.py:84-173 | The green rubric on an intake without the green fields reads every field with its `data.get` default. It still writes the seven keys, scores 0+15+15+10+15+0+0 and suggests only solar and equipment. |
| Scoring.MismatchedSllIntake | app/logic.py:178-249 | The sll rubric on an intake without the sll fields reads every field with its `data.get` default. It still writes the six keys, scores 0+25+0+0+0+5 and adds the targets, diversity, policies and training suggestions. |
| Scoring.MismatchedOtherIntake | app/logic.py:254-296 | The fallback rubric on an intake without the fallback fields reads every field with its `data.get` default. It still writes the three keys, scores 5+0+10 and adds the documenting and quick-wins suggestions, so no default is added. |
| Scoring.ScoreGreen | app/logic.py:80-173 | Accumulating the green criteria one by one gives exactly the green table's breakdown, suggestions and total. |
| Scoring.ScoreSll | app/logic.py:175-249 | Accumulating the sll criteria one by one gives exactly the sll table's breakdown, suggestions and total. |
| Scoring.ScoreOther | app/logic.py:251-291 | Accumulating the fallback criteria one by one gives exactly the fallback table's breakdown, suggestions and total. |
| Scoring.AddDefaults | app/logic.py:293-296 | An empty list becomes the two defaults. A non-empty list is unchanged. |
| Scoring.RunRubric | app/logic.py:76-296 | The dispatch on the category gives the selected rubric's breakdown, suggestions and total. |
| Scoring.GenerateScorecard | app/logic.py:72-316 | The scorecard carries the selected rubric's breakdown and suggestions. Its score is the uncapped total and the sum of the breakdown values, and lies between 0 and 100. Its rating is the band of the score. |
| Scoring.GreenExampleScoresFull | app/logic.py:80-173 | A fully compliant green intake (60% renewable, low use, named equipment, code 35) scores 100 without suggestions and is rated A. |

## Left out

- `app/ai_verdict.py` (calls to a remote language model, event-stream framing, the word-by-word typing effect): network I/O. It is not part of this model.
- The web layer, authentication, database and configuration (`app/routes/`, `app/main.py`, `app/db_models.py`, `app/database.py`, `app/config.py`): routing, sessions and storage, with no scoring logic. These are not part of this model.
- Validation of the intake against the category and the `model_dump` into a dict happen in the route (`app/routes/forms.py`), not in the engine. The model takes an already validated record. A category whose intake has another shape is still total: every field reads as its default.
- Coercion with `float(... or 0)` and `int(...)` of raw strings: the numbers enter already parsed. A green number that is missing, or `None`, is represented by 0.
- Floating point: the arithmetic is over exact reals, not binary doubles.
- Carbon.Round2: rounds the exact value to the nearest hundredth with ties to even. Python's `round` on binary doubles can round a decimal tie either way.
- Text.Lower: lowercases only ASCII letters, and `\d` matches only ASCII digits. Python's Unicode case mapping and Unicode digits are not modelled.
- The regular expression engine: `\d+%|\d+ percent` is modelled by the equivalent predicate "some digit is followed directly by `%` or by ` percent`" (`Text.HasPercentPattern`).
- The breakdown is an ordered sequence of entries, not a hash map. Key uniqueness is proved (`Scoring.KeysDistinct`), so lookups behave the same.
- The turnover field of the sll intake is stored but never scored, in the model as in the code.
- Criteria.SafetyNonIncreasing: is stated only for non-negative incident counts. A negative count (which the intake type does not exclude) scores 15, below the 25 that 0 incidents score.
