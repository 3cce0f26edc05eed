# NeuroSymbolic Cognitive Analyzer: the risk engine in Dafny

This project models the risk engine of the NeuroSymbolic Cognitive Analyzer dashboard (`app.js`) and proves
properties of it. The engine takes one indicator record: fourteen optional numeric indicators and an optional
usage-frequency category. From it the engine computes:

- a "neural" score: a signed linear sum over a fixed table of 14 weights, starting from a base of 0.5, scaled by a
  usage multiplier and clamped to [0, 1];
- a "symbolic" score: eight fixed threshold rules, NS001 to NS008. Each rule that fires is recorded with a literal
  activation and adds a literal increment. The sum of the increments is capped at 1;
- the fused score, 0.6 times the neural score plus 0.4 times the symbolic score, and its risk level in five bins;
- the top three of five candidate factors, after a stable descending sort by value;
- a list of fixed advice messages.

Modules follow the stages:

- `Indicators` holds the record.
- `NeuralScoring`, `SymbolicRules`, `Fusion`, `FactorRanking` and `Recommendations` each model one stage.
- `Analysis` holds the driver.
- `Scenarios` holds the three preset records of the dashboard and one single-key record, each worked through the
  whole pipeline.

Numbers are exact reals. An indicator is an `Option<real>`: `None` is a key that is `undefined`, which differs from
a present 0.

## How each stage is modelled

The parts of the source that update state step by step are methods; stages the source writes as pure expressions
are functions. Each method is proved equal to a specification function:

- `CalculateNeuralScore` is a `while` loop over the weight table; it is proved equal to `NeuralScore`.
- `EvaluateSymbolicRules` is the source's straight line of eight tests. Each test pushes onto the list and adds to
  the accumulator. It is proved equal to `Symbolic`, which filters the rule catalog by the rule predicates.
- `GenerateRecommendations` pushes advice check by check; it is proved equal to `Advice`.
- `IdentifyTopFactors` builds a fresh array and sorts it in place with an insertion sort. The sort is proved equal to
  the functional `SortDesc`, which is proved to permute its input, to order it and to be stable.
- `DetermineRiskLevel` and the fusion `Fuse` are functions.

## Model

| member | source | states |
|---|---|---|
| NeuralScoring.UsageMultiplier | app.js:264-271 | the multiplier is 0.8 for "low", 1.2 for "high", and 1.0 for "medium", for an absent category and for any other string |
| NeuralScoring.Clamp01 | app.js:273 | the result lies in [0, 1], equals the input inside that interval, and is 0 below it and 1 above it |
| NeuralScoring.NeuralScore | app.js:238-274 | the neural score of every record lies in [0, 1] |
| NeuralScoring.CalculateNeuralScore | app.js:238-274 | the loop over the weight table, then the scaling and the clamp, returns exactly the neural score of the record, in [0, 1] |
| NeuralScoring.WeightedSum | app.js:256-262 | the sum of value times weight over the table, in table order, an absent key adding nothing; its closed form is `SumWrittenOut` |
| NeuralScoring.SumWrittenOut | app.js:239-262 | the loop's sum is the 14 weights of the table, each times its key's value, with an absent key adding nothing |
| NeuralScoring.SumSplit | app.js:258-262 | the sum is linear in each key: a present value x adds x times the key's weight over an absent key |
| NeuralScoring.AbsentScoresLikeZero | app.js:259-261 | an absent key and a key present with value 0 give the same neural score |
| NeuralScoring.NeuralScoreOfField | app.js:256-273 | setting one key to x shifts the pre-scaling score by x times that key's weight |
| NeuralScoring.EmptyRecordScore | app.js:256-273 | with every key absent the score is the base times the multiplier: 0.4 for low, 0.6 for high, exactly 0.5 with no category, so the multiplier applies to the base too |
| NeuralScoring.SumIgnoresUsage | app.js:258-262 | the weighted sum does not depend on the usage category |
| NeuralScoring.FieldMonotone | app.js:239-273 | raising a key with a positive weight never lowers the score; raising one with a negative weight never raises it |
| NeuralScoring.ScoreMonotoneInSum | app.js:264-273 | for a fixed category, a larger weighted sum never gives a smaller score |
| Indicators.Gt | app.js:281-323 | a `>` comparison that is false when the value is absent, as one with `undefined` is; `AbsentKeyBlocks` uses it |
| Indicators.Lt | app.js:281-323 | a `<` comparison that is false when the value is absent, as one with `undefined` is; `AbsentKeyBlocks` uses it |
| SymbolicRules.Holds | app.js:281-323 | the eight strict-threshold conditions, a comparison with an absent key being false; `FiredIff` ties them to the fired list |
| SymbolicRules.CatalogOrder | app.js:17-26 | the catalog has eight entries, NS001 to NS008, in identifier order |
| SymbolicRules.CatalogIndexed | app.js:17-26 | each catalog entry sits at the position its identifier names |
| SymbolicRules.Activation | app.js:280-326 | every literal activation lies in [0, 1] |
| SymbolicRules.Increment | app.js:280-326 | every literal increment is positive and at most 0.25 |
| SymbolicRules.Fired | app.js:277-326 | the fired list: the catalog filtered by the rule predicates, in catalog order; `FiredIff`, `FiredSound` and `FiredOrdered` state its properties |
| SymbolicRules.Symbolic | app.js:276-332 | the fired rules are the catalog filtered by the predicates; the score is the sum of their increments when that is at most 1, and 1 otherwise, so it lies in [0, 1] |
| SymbolicRules.EvaluateSymbolicRules | app.js:276-332 | the eight straight-line tests return exactly the filtered catalog and the capped increment sum |
| SymbolicRules.TestRule | app.js:280-284 | one test extends the rules fired among the first k entries to those fired among the first k + 1, and keeps the accumulator equal to their increment sum |
| SymbolicRules.Step | app.js:280-326 | after testing entry k the accumulator is the previous one plus that entry's increment exactly when its predicate holds |
| SymbolicRules.PushSum | app.js:282-283 | pushing an entry and adding its increment keep the accumulator equal to the sum over the list |
| SymbolicRules.FiredUpToShape | app.js:277-326 | after k tests, every pushed entry is an unchanged catalog entry among the first k, with its activation, whose predicate holds; entries come in strictly increasing catalog order; every tested entry whose predicate holds is present |
| SymbolicRules.FiredSound | app.js:280-326 | each fired rule's predicate holds, the rule is its catalog entry unchanged, and it carries its rule's literal activation |
| SymbolicRules.FiredIff | app.js:280-326 | a rule is among the fired rules if and only if its predicate holds |
| SymbolicRules.FiredOrdered | app.js:277-326 | the fired rules come in catalog order, none twice, at most eight |
| SymbolicRules.FiredSumBound | app.js:278-326 | the accumulator never exceeds the sum of the tested increments, and reaches it when every tested rule fires |
| SymbolicRules.AllRulesFire | app.js:277-331 | when every rule holds, the list is the whole catalog in order with its activations, the increments sum to 1.29, and the capped score is 1 |
| SymbolicRules.AllTestedFire | app.js:277-326 | when every tested predicate holds, the list is the tested part of the catalog in order, each with its activation |
| SymbolicRules.NoTestedFire | app.js:277-326 | when no tested predicate holds, the list stays empty |
| SymbolicRules.NoRuleFires | app.js:277-331 | when no rule holds, the list is empty and the score is 0 |
| SymbolicRules.AbsentKeyBlocks | app.js:280-326 | a rule that reads an absent key never fires, since every comparison with `undefined` is false |
| SymbolicRules.HoldsReadsOnly | app.js:280-326 | each rule's predicate depends only on its own keys (and, for NS001, the usage category) |
| SymbolicRules.AbsentIsNotZero | app.js:287 | unlike the neural score, the rules tell an absent key from a present 0: NS002 fires for neural activity 0 and not for neural activity absent |
| Fusion.Fuse | app.js:225 | the fused score lies between the two sub-scores, hence in [0, 1] when both are |
| Fusion.FuseMonotone | app.js:225 | raising either sub-score never lowers the fused score |
| Fusion.DetermineRiskLevel | app.js:334-340 | the level's rank is at least k exactly when the score is at least 0.2 k, for k from 1 to 4 |
| Fusion.RiskLevelBins | app.js:334-340 | each level covers exactly its half-open interval; a score on an edge goes to the higher bin |
| Fusion.RiskLevelMonotone | app.js:334-340 | a larger score never gets a lower level |
| FactorRanking.Candidates | app.js:343-349 | the five candidates in declaration order, the two protective keys ranked by their complement; `CandidateFlags` states their flags |
| FactorRanking.CandidateFlags | app.js:343-349 | there are five candidates with distinct names, and each risk flag marks a value beyond its own threshold (0.7, 0.6, 0.6, 0.5, 0.6 on the ranked value) |
| FactorRanking.Insert | app.js:352 | the insertion step of the stable descending sort, one element longer than its input; `InsertPermutes`, `InsertSorted` and `InsertStable` state its properties |
| FactorRanking.SortDesc | app.js:351-352 | the stable descending sort, of the same length as its input; `SortPermutes`, `SortSorted` and `SortStable` state its properties |
| FactorRanking.SortByValueDesc | app.js:351-352 | the in-place sort leaves in the array exactly the stable descending sort of its old contents |
| FactorRanking.InsertAt | app.js:352 | one pass moves the element at position i down past its smaller predecessors and leaves the rest of the array unchanged |
| FactorRanking.SortPermutes | app.js:351-352 | the sort only reorders the candidates |
| FactorRanking.SortSorted | app.js:351-352 | the sort's output is in non-increasing value order |
| FactorRanking.SortStable | app.js:351-352 | the sort is stable: elements of equal value keep their order |
| FactorRanking.SortedIsFixed | app.js:351-352 | a list already in non-increasing order is left unchanged |
| FactorRanking.InsertPermutes | app.js:352 | insertion adds exactly the inserted element |
| FactorRanking.InsertSorted | app.js:352 | insertion into a non-increasing list keeps it non-increasing |
| FactorRanking.InsertStable | app.js:352 | insertion puts the element after every element of equal value |
| FactorRanking.TopFactors | app.js:351-353 | the first three of the stable descending sort of the candidates; `TopFactorsShape` states its properties |
| FactorRanking.IdentifyTopFactors | app.js:342-354 | building the candidates, sorting them in place and keeping three yields the first three of the sorted candidates |
| FactorRanking.TopOfSorted | app.js:351-353 | the first three of a sorted list of distinct elements are distinct, ordered, drawn from the list, and worth at least every element left out |
| FactorRanking.TopFactorsShape | app.js:342-354 | exactly three distinct candidates in non-increasing order; every candidate left out is worth at most the third kept; ties keep declaration order |
| FactorRanking.DistinctPermutation | app.js:351-352 | reordering a list without repetitions creates none |
| Recommendations.HasRule | app.js:364 | `firedRules.some(rule => rule.rule_id === id)`: some fired rule carries the identifier; `AdviceIff` ties it to the advice |
| Recommendations.Checked | app.js:359-374 | the advice of the four checks in check order; `CheckedParts` states what each contributes |
| Recommendations.Advice | app.js:356-382 | the checked advice, or the fallback pair when it is empty; `AdviceCount` and `AdviceIff` state its properties |
| Recommendations.GenerateRecommendations | app.js:356-382 | pushing check by check and then the fallback yields exactly the advice list of the score and the fired rules |
| Recommendations.AdviceCount | app.js:356-382 | one to five messages; the fallback pair comes back if and only if none of the four checks holds, and then alone |
| Recommendations.AdviceIff | app.js:359-374 | each check message is present if and only if its check holds |
| Recommendations.CheckedParts | app.js:359-374 | the check messages never include the fallback pair, and are empty if and only if no check holds |
| Recommendations.ScoreAdviceFirst | app.js:359-362 | with a score above 0.6 the two score messages open the list, in order |
| Recommendations.FullAdvice | app.js:359-374 | when all four checks hold, all five check messages come back in check order |
| Recommendations.SingleAdvice | app.js:359-379 | a score of at most 0.6 with NS005 the only matching rule gives one message, not the fallback pair |
| Analysis.Analyze | app.js:217-236 | the analysis carries the neural score and the symbolic result of the record, and ranks factors exactly when the five ranked keys are present |
| Analysis.RunNeuroSymbolicAnalysis | app.js:217-236 | running each stage's procedure and assembling the result yields exactly the analysis of the record |
| Analysis.AnalysisBounds | app.js:217-236 | all three scores lie in [0, 1]; the fused score lies between the sub-scores; the level is the bin of the fused score; at most eight rules fire; one to five messages; three distinct, ordered top factors |
| Analysis.FallbackIff | app.js:356-382 | the fallback advice comes back if and only if the fused score is at most 0.6 and none of NS002, NS004 and NS005 holds |
| Scenarios.HighRiskNeural | app.js:33-49 | the high preset's weighted sum is 0.34 and its neural score clamps from 1.008 to 1 |
| Scenarios.HighRiskSymbolic | app.js:33-49 | on the high preset all eight rules fire in catalog order and the symbolic score is 1 |
| Scenarios.HighRiskFactors | app.js:33-49 | the high preset's top factors are AI dependence, cognitive offloading and problem-solving decline |
| Scenarios.HighRiskAnalysis | app.js:29-49 | the high preset's fused score is 1.0, "severe", with all five check messages |
| Scenarios.ModerateRiskNeural | app.js:55-71 | the moderate preset's neural score is 0.3405 |
| Scenarios.ModerateRiskSymbolic | app.js:55-71 | no rule fires on the moderate preset |
| Scenarios.ModerateRiskFactors | app.js:55-71 | the moderate preset's top factors are the first three candidates |
| Scenarios.ModerateRiskAnalysis | app.js:51-71 | the moderate preset's fused score is 0.2043, "low", with the fallback pair |
| Scenarios.LowRiskNeural | app.js:77-93 | the low preset's running score is negative and clamps to 0 |
| Scenarios.LowRiskSymbolic | app.js:77-93 | no rule fires on the low preset |
| Scenarios.LowRiskFactors | app.js:77-93 | the low preset's top factors are the first three candidates, ties in declaration order |
| Scenarios.LowRiskAnalysis | app.js:73-93 | the low preset's fused score is 0, "minimal", with the fallback pair |
| Scenarios.HeavyAiOnlySymbolic | app.js:304-308 | on a record holding only AI dependence 0.95, NS005 alone fires and the symbolic score is 0.25 |
| Scenarios.HeavyAiOnlyAnalysis | app.js:217-236 | that record's fused score is 0.4798, "moderate", no factors are ranked, and one message comes back |

## Preset annotations and advice count

- The presets carry the annotations 0.674/"high", 0.200/"low" and 0.101/"minimal" (app.js:31-32, 53-54, 75-76). No
  code reads them. The engine gives other results on these presets:
  - high: 1.0 and "severe" (`Scenarios.HighRiskAnalysis`);
  - moderate: 0.2043 and "low";
  - low: 0.0 and "minimal".
- The advice list can hold a single string; the fallback pair is pushed only when nothing else was
  (app.js:364-366, 376). A record whose only matching check is NS005, with a fused score of at most 0.6, gets the
  one NS005 string. This is `Recommendations.SingleAdvice`, and `Scenarios.HeavyAiOnlyAnalysis` gives such a
  record. The list therefore holds one to five strings.

## Left out

- The DOM, event wiring and chart code (app.js:97-178, 212-215, 384-566) is not part of this model: it is user
  interface and calls into a charting library.
- `loadScenario` (app.js:180-210) is interface glue that copies preset values into sliders. Only the preset records
  are kept, as the constants of `Scenarios`. `performAnalysis` (app.js:212-215) is left out for the same reason.
- `cognitiveIndicators` (app.js:4-15) is reference data that no code reads.
- Floating point: the model computes with exact reals, so IEEE-754 rounding is not captured. The preset scores
  above hold exactly; in doubles they differ in the last places, and where two values tie only in exact reals the
  order of the factor ranking can differ too (next line).
- Scenarios.LowRiskFactors: holds in exact reals only. In doubles, `1 - 0.8` (app.js:346, neural activity 0.80 at
  app.js:79) is 0.19999999999999996, below the double 0.20 of problem-solving decline (app.js:87). The comparator
  at app.js:352 therefore ranks problem-solving decline third in the program, where the model, with the two tied
  at 0.2, keeps neural activity third.
- Scenarios.LowRiskAnalysis: its `topFactors` conjunct has the same exact-real tie; in doubles the program returns
  AI dependence, cognitive offloading and problem-solving decline (`[c[0], c[1], c[4]]`). Its scores, level and
  advice are unaffected.
- FactorRanking.IdentifyTopFactors: requires the five ranked keys to be present. With one of them absent the source
  sorts `undefined` or `NaN` values with an inconsistent comparator, so its order is unspecified. In that case
  `Analysis.Analyze` sets `topFactors` to `None` instead of a ranking.
- FactorRanking.SortByValueDesc: stands in for `Array.prototype.sort`, whose algorithm the source does not fix. The
  model uses a stable insertion sort with the source's comparator, because the sort is stable.
- The record is typed: keys other than the fourteen numeric ones and `usage_frequency`, non-numeric values, and
  inherited properties of the multiplier table (such as a category named `constructor`) are not modelled. A usage
  category other than the three names is `Other`.
- Recommendations are the datatype `Recommendations.Recommendation`, whose `Text()` is the exact string the source
  pushes. Rule descriptions are the function `SymbolicRules.DescriptionOf` of the rule identifier. The model
  carries these strings but proves nothing about their spelling.
- A fired rule is the catalog entry and its activation, `SymbolicRules.FiredRule`, rather than a flat copy of the
  entry's fields with the activation added.
