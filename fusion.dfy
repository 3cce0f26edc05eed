// Fusion of the two sub-scores and the classification of the fused score into five bins.

module Fusion {

  /** The five risk levels, from lowest to highest. */
  datatype RiskLevel = Minimal | Low | Moderate | High | Severe
  {
    /** The position of the level in the order minimal < low < moderate < high < severe. */
    function Rank(): (k: nat)
      ensures k <= 4
    {
      match this
      case Minimal => 0
      case Low => 1
      case Moderate => 2
      case High => 3
      case Severe => 4
    }
  }

  /** The fused score: a fixed 60/40 blend of the neural and the symbolic score. It lies between
      the two, so it stays in [0, 1] whenever both do. */
  function Fuse(neural: real, symbolic: real): (r: real)
    ensures neural <= symbolic ==> neural <= r <= symbolic
    ensures symbolic <= neural ==> symbolic <= r <= neural
    ensures 0.0 <= neural <= 1.0 && 0.0 <= symbolic <= 1.0 ==> 0.0 <= r <= 1.0
  {
    neural * 0.6 + symbolic * 0.4
  }

  /** Raising either sub-score never lowers the fused score. */
  lemma FuseMonotone(n1: real, s1: real, n2: real, s2: real)
    requires n1 <= n2 && s1 <= s2
    ensures Fuse(n1, s1) <= Fuse(n2, s2)
  {
  }

  /** The lower edge of the bins from rank `k` upwards: 0.2, 0.4, 0.6 and 0.8. */
  function Threshold(k: nat): real
    requires 1 <= k <= 4
  {
    0.2 * k as real
  }

  /** The classification: the first bin whose strict upper edge the score is below, `severe`
      when there is none. A score exactly on an edge goes to the higher bin. */
  function DetermineRiskLevel(score: real): (level: RiskLevel)
    ensures forall k :: 1 <= k <= 4 ==> (level.Rank() >= k <==> score >= Threshold(k))
  {
    if score < 0.2 then Minimal
    else if score < 0.4 then Low
    else if score < 0.6 then Moderate
    else if score < 0.8 then High
    else Severe
  }

  /** Each level covers exactly its half-open interval of scores. */
  lemma RiskLevelBins(score: real)
    ensures DetermineRiskLevel(score) == Minimal <==> score < 0.2
    ensures DetermineRiskLevel(score) == Low <==> 0.2 <= score < 0.4
    ensures DetermineRiskLevel(score) == Moderate <==> 0.4 <= score < 0.6
    ensures DetermineRiskLevel(score) == High <==> 0.6 <= score < 0.8
    ensures DetermineRiskLevel(score) == Severe <==> 0.8 <= score
  {
    var level := DetermineRiskLevel(score);
    assert level.Rank() >= 1 <==> score >= Threshold(1);
    assert level.Rank() >= 2 <==> score >= Threshold(2);
    assert level.Rank() >= 3 <==> score >= Threshold(3);
    assert level.Rank() >= 4 <==> score >= Threshold(4);
  }

  /** The classification is monotone: a larger score never gets a lower level. */
  lemma RiskLevelMonotone(s: real, t: real)
    requires s <= t
    ensures DetermineRiskLevel(s).Rank() <= DetermineRiskLevel(t).Rank()
  {
  }
}
