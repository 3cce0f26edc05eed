// The three preset records of the dashboard, and one record with a single key, worked through
// the whole analysis.

module Scenarios {
  import opened Indicators
  import NeuralScoring
  import SymbolicRules
  import Fusion
  import FactorRanking
  import Recommendations
  import Analysis

  /** The "High Risk User" preset. */
  const HighRiskUser: IndicatorVector :=
    IndicatorVector(Some(0.85), Some(0.25), Some(0.35), Some(0.90), Some(0.20), Some(0.10), Some(0.15),
                    Some(0.95), Some(0.25), Some(0.80), Some(0.40), Some(0.20), Some(0.90), Some(12.0),
                    Some(High))

  /** The "Moderate Risk User" preset. */
  const ModerateRiskUser: IndicatorVector :=
    IndicatorVector(Some(0.55), Some(0.50), Some(0.60), Some(0.45), Some(0.55), Some(0.40), Some(0.50),
                    Some(0.60), Some(0.50), Some(0.40), Some(0.65), Some(0.50), Some(0.45), Some(6.0),
                    Some(Medium))

  /** The "Low Risk User" preset. */
  const LowRiskUser: IndicatorVector :=
    IndicatorVector(Some(0.30), Some(0.80), Some(0.85), Some(0.20), Some(0.80), Some(0.70), Some(0.80),
                    Some(0.30), Some(0.75), Some(0.20), Some(0.85), Some(0.80), Some(0.25), Some(3.0),
                    Some(Low))

  /** A record holding nothing but a very high AI dependence. */
  const HeavyAiOnly: IndicatorVector := NoIndicators.(aiDependence := Some(0.95))

  // ---- High Risk User ----

  /** The weighted sum is 0.34, so the running score is 0.84; the high-usage multiplier takes it
      to 1.008, which clamps to 1. */
  lemma HighRiskNeural()
    ensures NeuralScoring.WeightedSum(HighRiskUser, NeuralScoring.Weights) == 0.34
    ensures NeuralScoring.NeuralScore(HighRiskUser) == 1.0
  {
    NeuralScoring.SumWrittenOut(HighRiskUser);
  }

  /** Every rule holds on this preset, so all eight fire in catalog order and the capped
      symbolic score is 1. */
  lemma HighRiskSymbolic()
    ensures |SymbolicRules.Fired(HighRiskUser)| == 8
    ensures forall j :: 0 <= j < 8 ==>
              SymbolicRules.Fired(HighRiskUser)[j]
              == SymbolicRules.FiredRule(SymbolicRules.NeurosymbolicRules[j],
                                         SymbolicRules.Activation(SymbolicRules.NeurosymbolicRules[j].ruleId))
    ensures SymbolicRules.Symbolic(HighRiskUser).riskScore == 1.0
  {
    forall id: SymbolicRules.RuleId ensures SymbolicRules.Holds(id, HighRiskUser) {
    }
    SymbolicRules.AllRulesFire(HighRiskUser);
  }

  /** The preset's top three factors are AI dependence, cognitive offloading and problem-solving
      decline. */
  lemma HighRiskFactors()
    ensures FactorRanking.RankingFieldsPresent(HighRiskUser)
    ensures var c := FactorRanking.Candidates(HighRiskUser);
            FactorRanking.TopFactors(HighRiskUser) == [c[0], c[1], c[4]]
  {
    var c := FactorRanking.Candidates(HighRiskUser);
    assert c[..4][..1] == [c[0]];
    FactorRanking.SortedIsFixed(c[..4]);
    assert c[..4] == [c[0], c[1], c[2], c[3]];
    InsertThird([c[0], c[1], c[2], c[3]], c[4]);
    assert c[..5][..4] == c[..4] && c == c[..5];
  }

  /** Inserting `x` into a four-element list whose first two values are at least x's and whose
      last two are below it places `x` third. */
  lemma InsertThird(t: seq<FactorRanking.Factor>, x: FactorRanking.Factor)
    requires |t| == 4
    requires t[1].value >= x.value && t[2].value < x.value && t[3].value < x.value
    ensures FactorRanking.Insert(t, x) == [t[0], t[1], x, t[2], t[3]]
  {
    assert t[..3][..2] == [t[0], t[1]];
    assert FactorRanking.Insert(t[..3][..2], x) == [t[0], t[1], x];
    assert FactorRanking.Insert(t[..3], x) == [t[0], t[1], x, t[2]];
  }

  /** The whole analysis of the preset: fused score 1.0, classified "severe", and all five
      recommendations. The preset is annotated with 0.674 and "high", which this engine does
      not produce. */
  lemma HighRiskAnalysis()
    ensures FactorRanking.RankingFieldsPresent(HighRiskUser)
    ensures var r, c := Analysis.Analyze(HighRiskUser), FactorRanking.Candidates(HighRiskUser);
      && r.neuralScore == 1.0
      && r.symbolicResults.riskScore == 1.0
      && |r.symbolicResults.firedRules| == 8
      && r.riskScore == 1.0
      && r.riskLevel == Fusion.Severe
      && r.topFactors == Some([c[0], c[1], c[4]])
      && r.recommendations
         == [Recommendations.ReduceDependency, Recommendations.PracticeManual, Recommendations.AiFreeDays,
             Recommendations.PromoteActivity, Recommendations.IncreaseReflection]
  {
    HighRiskNeural();
    HighRiskSymbolic();
    var fired := SymbolicRules.Fired(HighRiskUser);
    SymbolicRules.CatalogOrder();
    assert fired[1].rule.ruleId == SymbolicRules.NS002;
    assert fired[3].rule.ruleId == SymbolicRules.NS004;
    assert fired[4].rule.ruleId == SymbolicRules.NS005;
    var advice := [Recommendations.ReduceDependency, Recommendations.PracticeManual, Recommendations.AiFreeDays,
                   Recommendations.PromoteActivity, Recommendations.IncreaseReflection];
    Recommendations.FullAdvice(1.0, fired);
    Analysis.AnalyzeStages(HighRiskUser, 1.0, 1.0, fired, advice);
    HighRiskFactors();
  }

  // ---- Moderate Risk User ----

  /** The running score is 0.3405 and the medium multiplier is 1. */
  lemma ModerateRiskNeural()
    ensures NeuralScoring.NeuralScore(ModerateRiskUser) == 0.3405
  {
    NeuralScoring.SumWrittenOut(ModerateRiskUser);
  }

  /** No rule holds on this preset. */
  lemma ModerateRiskSymbolic()
    ensures SymbolicRules.Fired(ModerateRiskUser) == []
    ensures SymbolicRules.Symbolic(ModerateRiskUser).riskScore == 0.0
  {
    forall id: SymbolicRules.RuleId ensures !SymbolicRules.Holds(id, ModerateRiskUser) {
    }
    SymbolicRules.NoRuleFires(ModerateRiskUser);
  }

  /** The candidates are already in non-increasing order (memory retention and problem-solving
      decline tie at 0.4), so the top three are the first three. */
  lemma ModerateRiskFactors()
    ensures FactorRanking.RankingFieldsPresent(ModerateRiskUser)
    ensures var c := FactorRanking.Candidates(ModerateRiskUser);
            FactorRanking.TopFactors(ModerateRiskUser) == [c[0], c[1], c[2]]
  {
    var c := FactorRanking.Candidates(ModerateRiskUser);
    FactorRanking.SortedIsFixed(c);
  }

  /** The fused score is 0.2043, classified "low", with the fallback advice. */
  lemma ModerateRiskAnalysis()
    ensures FactorRanking.RankingFieldsPresent(ModerateRiskUser)
    ensures var r, c := Analysis.Analyze(ModerateRiskUser), FactorRanking.Candidates(ModerateRiskUser);
      && r.topFactors == Some([c[0], c[1], c[2]])
      && r.riskScore == 0.2043
      && r.riskLevel == Fusion.Low
      && r.symbolicResults.firedRules == []
      && r.recommendations == [Recommendations.MaintainBalance, Recommendations.KeepMonitoring]
  {
    ModerateRiskNeural();
    ModerateRiskSymbolic();
    assert Recommendations.Advice(0.2043, []) == [Recommendations.MaintainBalance, Recommendations.KeepMonitoring];
    ModerateRiskFactors();
    Analysis.AnalyzeStages(ModerateRiskUser, 0.3405, 0.0, [], [Recommendations.MaintainBalance, Recommendations.KeepMonitoring]);
  }

  // ---- Low Risk User ----

  /** The running score is -0.0515; scaled by 0.8 it stays negative and clamps to 0. */
  lemma LowRiskNeural()
    ensures NeuralScoring.NeuralScore(LowRiskUser) == 0.0
  {
    NeuralScoring.SumWrittenOut(LowRiskUser);
  }

  /** No rule holds on this preset. */
  lemma LowRiskSymbolic()
    ensures SymbolicRules.Fired(LowRiskUser) == []
    ensures SymbolicRules.Symbolic(LowRiskUser).riskScore == 0.0
  {
    forall id: SymbolicRules.RuleId ensures !SymbolicRules.Holds(id, LowRiskUser) {
    }
    SymbolicRules.NoRuleFires(LowRiskUser);
  }

  /** AI dependence and cognitive offloading tie at 0.3 and keep their order. In exact reals,
      neural activity (1 - 0.8) and problem-solving decline (0.2) also tie, so the stable sort
      keeps neural activity third; problem-solving decline passes memory retention (0.15). */
  lemma LowRiskFactors()
    ensures FactorRanking.RankingFieldsPresent(LowRiskUser)
    ensures var c := FactorRanking.Candidates(LowRiskUser);
            FactorRanking.TopFactors(LowRiskUser) == [c[0], c[1], c[2]]
  {
    var c := FactorRanking.Candidates(LowRiskUser);
    FactorRanking.SortedIsFixed(c[..4]);
    assert c[..4] == [c[0], c[1], c[2], c[3]];
    var t := [c[0], c[1], c[2], c[3]];
    assert t[..3] == [c[0], c[1], c[2]];
    assert FactorRanking.Insert(t, c[4]) == [c[0], c[1], c[2], c[4], c[3]];
    assert c[..5][..4] == c[..4] && c == c[..5];
  }

  /** The fused score is 0, classified "minimal", with the fallback advice. */
  lemma LowRiskAnalysis()
    ensures FactorRanking.RankingFieldsPresent(LowRiskUser)
    ensures var r, c := Analysis.Analyze(LowRiskUser), FactorRanking.Candidates(LowRiskUser);
      && r.topFactors == Some([c[0], c[1], c[2]])
      && r.riskScore == 0.0
      && r.riskLevel == Fusion.Minimal
      && r.symbolicResults.firedRules == []
      && r.recommendations == [Recommendations.MaintainBalance, Recommendations.KeepMonitoring]
  {
    LowRiskNeural();
    LowRiskSymbolic();
    assert Recommendations.Advice(0.0, []) == [Recommendations.MaintainBalance, Recommendations.KeepMonitoring];
    LowRiskFactors();
    Analysis.AnalyzeStages(LowRiskUser, 0.0, 0.0, [], [Recommendations.MaintainBalance, Recommendations.KeepMonitoring]);
  }

  // ---- A record with AI dependence only ----

  /** NS005 is the only rule that holds, so it alone fires and the symbolic score is its
      increment. */
  lemma HeavyAiOnlySymbolic()
    ensures SymbolicRules.Fired(HeavyAiOnly) == [SymbolicRules.FiredRule(SymbolicRules.NeurosymbolicRules[4], 0.95)]
    ensures SymbolicRules.Symbolic(HeavyAiOnly).riskScore == 0.25
  {
    SymbolicRules.CatalogOrder();
    SymbolicRules.NoTestedFire(4, HeavyAiOnly);
    SymbolicRules.Step(HeavyAiOnly, 4);
    SymbolicRules.Step(HeavyAiOnly, 5);
    SymbolicRules.Step(HeavyAiOnly, 6);
    SymbolicRules.Step(HeavyAiOnly, 7);
  }

  /** Only NS005 fires; the fused score 0.4798 is "moderate", no factors are ranked, and the
      single NS005 string is the only recommendation, fewer than the fallback pair. */
  lemma HeavyAiOnlyAnalysis()
    ensures var r := Analysis.Analyze(HeavyAiOnly);
      && r.neuralScore == 0.633
      && r.symbolicResults.firedRules
         == [SymbolicRules.FiredRule(SymbolicRules.NeurosymbolicRules[4], 0.95)]
      && r.symbolicResults.riskScore == 0.25
      && r.riskScore == 0.4798
      && r.riskLevel == Fusion.Moderate
      && r.topFactors.None?
      && r.recommendations == [Recommendations.AiFreeDays]
  {
    NeuralScoring.SumWrittenOut(HeavyAiOnly);
    var fired := [SymbolicRules.FiredRule(SymbolicRules.NeurosymbolicRules[4], 0.95)];
    HeavyAiOnlySymbolic();
    SymbolicRules.CatalogOrder();
    assert fired[0].rule.ruleId == SymbolicRules.NS005;
    Recommendations.SingleAdvice(0.4798, fired);
    Analysis.AnalyzeStages(HeavyAiOnly, 0.633, 0.25, fired, [Recommendations.AiFreeDays]);
  }
}
