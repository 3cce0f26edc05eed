// The analysis pipeline: score one indicator record with both stages, fuse, classify, rank the
// factors and pick the recommendations.

module Analysis {
  import opened Indicators
  import NeuralScoring
  import SymbolicRules
  import Fusion
  import FactorRanking
  import Recommendations

  /** What one analysis returns. `topFactors` is None for a record that lacks one of the five
      ranked keys, whose ranking the model does not give. */
  datatype AnalysisResult = AnalysisResult(
    riskScore: real,
    riskLevel: Fusion.RiskLevel,
    neuralScore: real,
    symbolicResults: SymbolicRules.SymbolicResult,
    topFactors: Option<seq<FactorRanking.Factor>>,
    recommendations: seq<Recommendations.Recommendation>)

  /** The analysis of `data`, stage by stage. */
  function Analyze(data: IndicatorVector): (r: AnalysisResult)
    ensures r.neuralScore == NeuralScoring.NeuralScore(data)
    ensures r.symbolicResults == SymbolicRules.Symbolic(data)
    ensures r.topFactors.Some? <==> FactorRanking.RankingFieldsPresent(data)
  {
    var neural := NeuralScoring.NeuralScore(data);
    var symbolic := SymbolicRules.Symbolic(data);
    var risk := Fusion.Fuse(neural, symbolic.riskScore);
    AnalysisResult(
      risk,
      Fusion.DetermineRiskLevel(risk),
      neural,
      symbolic,
      if FactorRanking.RankingFieldsPresent(data) then Some(FactorRanking.TopFactors(data)) else None,
      Recommendations.Advice(risk, symbolic.firedRules))
  }

  /** An analysis assembled from its stage results: with the neural score, the symbolic score,
      the fired rules and the advice for their fused score known, the whole result is known. */
  lemma AnalyzeStages(data: IndicatorVector, neural: real, symbolic: real,
                      fired: seq<SymbolicRules.FiredRule>, advice: seq<Recommendations.Recommendation>)
    requires NeuralScoring.NeuralScore(data) == neural
    requires SymbolicRules.Symbolic(data).riskScore == symbolic && SymbolicRules.Fired(data) == fired
    requires Recommendations.Advice(neural * 0.6 + symbolic * 0.4, fired) == advice
    ensures var r := Analyze(data);
      && r.neuralScore == neural
      && r.symbolicResults == SymbolicRules.SymbolicResult(fired, symbolic)
      && r.riskScore == neural * 0.6 + symbolic * 0.4
      && r.riskLevel == Fusion.DetermineRiskLevel(neural * 0.6 + symbolic * 0.4)
      && r.recommendations == advice
      && r.topFactors == if FactorRanking.RankingFieldsPresent(data) then Some(FactorRanking.TopFactors(data)) else None
  {
  }

  /** The source's driver: run each stage's own procedure and assemble the result. */
  method RunNeuroSymbolicAnalysis(data: IndicatorVector) returns (result: AnalysisResult)
    ensures result == Analyze(data)
  {
    var neuralScore := NeuralScoring.CalculateNeuralScore(data);
    var symbolicResults := SymbolicRules.EvaluateSymbolicRules(data);
    var riskScore := neuralScore * 0.6 + symbolicResults.riskScore * 0.4;
    var riskLevel := Fusion.DetermineRiskLevel(riskScore);
    var topFactors: Option<seq<FactorRanking.Factor>> := None;
    if FactorRanking.RankingFieldsPresent(data) {
      var top := FactorRanking.IdentifyTopFactors(data);
      topFactors := Some(top);
    }
    var recommendations := Recommendations.GenerateRecommendations(riskScore, symbolicResults.firedRules);
    result := AnalysisResult(riskScore, riskLevel, neuralScore, symbolicResults, topFactors, recommendations);
  }

  /** What every analysis guarantees: all three scores in [0, 1], the fused score between the two
      sub-scores, the level the bin of the fused score, at most eight fired rules, one to five
      recommendations, and three distinct, ordered top factors when they are ranked. */
  lemma AnalysisBounds(data: IndicatorVector)
    ensures var r := Analyze(data);
      && 0.0 <= r.neuralScore <= 1.0
      && 0.0 <= r.symbolicResults.riskScore <= 1.0
      && 0.0 <= r.riskScore <= 1.0
      && (r.neuralScore <= r.symbolicResults.riskScore ==> r.neuralScore <= r.riskScore <= r.symbolicResults.riskScore)
      && (r.symbolicResults.riskScore <= r.neuralScore ==> r.symbolicResults.riskScore <= r.riskScore <= r.neuralScore)
      && (forall k :: 1 <= k <= 4 ==> (r.riskLevel.Rank() >= k <==> r.riskScore >= Fusion.Threshold(k)))
      && |r.symbolicResults.firedRules| <= 8
      && 1 <= |r.recommendations| <= 5
      && (r.topFactors.Some? ==> |r.topFactors.value| == 3
                                 && FactorRanking.Distinct(r.topFactors.value)
                                 && FactorRanking.NonIncreasing(r.topFactors.value))
  {
    var r := Analyze(data);
    SymbolicRules.FiredOrdered(data);
    Recommendations.AdviceCount(r.riskScore, r.symbolicResults.firedRules);
    if r.topFactors.Some? {
      FactorRanking.TopFactorsShape(data);
    }
  }

  /** The fallback advice comes back exactly when the fused score is at most 0.6 and none of
      NS002, NS004 and NS005 fired. */
  lemma FallbackIff(data: IndicatorVector)
    ensures var r := Analyze(data);
      r.recommendations == [Recommendations.MaintainBalance, Recommendations.KeepMonitoring]
      <==> r.riskScore <= 0.6 && !SymbolicRules.Holds(SymbolicRules.NS002, data)
           && !SymbolicRules.Holds(SymbolicRules.NS004, data) && !SymbolicRules.Holds(SymbolicRules.NS005, data)
  {
    var r := Analyze(data);
    Recommendations.AdviceCount(r.riskScore, r.symbolicResults.firedRules);
    SymbolicRules.FiredIff(data, SymbolicRules.NS002);
    SymbolicRules.FiredIff(data, SymbolicRules.NS004);
    SymbolicRules.FiredIff(data, SymbolicRules.NS005);
  }
}
