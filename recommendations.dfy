// The recommendations: fixed advice messages chosen by the fused score and by which rules
// fired, with a fallback pair when no check applies.

module Recommendations {
  import opened SymbolicRules

  /** The seven fixed messages the stage can return, in the order the source lists them;
      `Text()` is the exact string the source pushes for each. */
  datatype Recommendation =
    | ReduceDependency
    | PracticeManual
    | AiFreeDays
    | PromoteActivity
    | IncreaseReflection
    | MaintainBalance
    | KeepMonitoring
  {
    function Text(): string {
      match this
      case ReduceDependency => "Consider reducing AI dependency through scheduled offline work sessions"
      case PracticeManual => "Practice manual problem-solving exercises to maintain cognitive flexibility"
      case AiFreeDays => "Implement AI-free days to prevent cognitive atrophy"
      case PromoteActivity => "Engage in activities that promote neural activity and memory retention"
      case IncreaseReflection => "Increase reflection time and verification practices when using AI"
      case MaintainBalance => "Maintain current balanced approach to AI usage"
      case KeepMonitoring => "Continue monitoring cognitive indicators regularly"
    }
  }

  /** `firedRules.some(rule => rule.rule_id === id)`. */
  predicate HasRule(fired: seq<FiredRule>, id: RuleId) {
    exists j :: 0 <= j < |fired| && fired[j].rule.ruleId == id
  }

  /** The advice one check contributes: `advice` when `condition` holds, nothing otherwise. */
  function When(condition: bool, advice: seq<Recommendation>): seq<Recommendation> {
    if condition then advice else []
  }

  /** The advice of the four checks, in check order: a fused score above 0.6, then NS005,
      NS002 and NS004 among the fired rules. */
  function Checked(riskScore: real, fired: seq<FiredRule>): seq<Recommendation> {
    When(riskScore > 0.6, [ReduceDependency, PracticeManual])
    + When(HasRule(fired, NS005), [AiFreeDays])
    + When(HasRule(fired, NS002), [PromoteActivity])
    + When(HasRule(fired, NS004), [IncreaseReflection])
  }

  /** The recommendations: the checked advice, or the fallback pair when there is none. */
  function Advice(riskScore: real, fired: seq<FiredRule>): seq<Recommendation> {
    var checked := Checked(riskScore, fired);
    if checked == [] then [MaintainBalance, KeepMonitoring] else checked
  }

  /** The source's construction: push advice check by check, then the fallback pair if nothing
      was pushed. */
  method GenerateRecommendations(riskScore: real, firedRules: seq<FiredRule>) returns (recommendations: seq<Recommendation>)
    ensures recommendations == Advice(riskScore, firedRules)
  {
    recommendations := [];
    if riskScore > 0.6 {
      recommendations := recommendations + [ReduceDependency];
      recommendations := recommendations + [PracticeManual];
    }
    ghost var afterScore := recommendations;
    assert afterScore == When(riskScore > 0.6, [ReduceDependency, PracticeManual]);
    if HasRule(firedRules, NS005) {
      recommendations := recommendations + [AiFreeDays];
    }
    if HasRule(firedRules, NS002) {
      recommendations := recommendations + [PromoteActivity];
    }
    if HasRule(firedRules, NS004) {
      recommendations := recommendations + [IncreaseReflection];
    }
    if |recommendations| == 0 {
      recommendations := recommendations + [MaintainBalance];
      recommendations := recommendations + [KeepMonitoring];
    }
  }

  /** Between one and five strings always come back; the fallback pair comes back exactly when
      none of the four checks holds, and then alone. */
  lemma AdviceCount(riskScore: real, fired: seq<FiredRule>)
    ensures 1 <= |Advice(riskScore, fired)| <= 5
    ensures var none := !(riskScore > 0.6) && !HasRule(fired, NS005) && !HasRule(fired, NS002) && !HasRule(fired, NS004);
            (none <==> Advice(riskScore, fired) == [MaintainBalance, KeepMonitoring])
            && (none <==> MaintainBalance in Advice(riskScore, fired))
            && (none <==> KeepMonitoring in Advice(riskScore, fired))
  {
    CheckedParts(riskScore, fired);
  }

  /** Each advice message is present exactly when its check holds. */
  lemma AdviceIff(riskScore: real, fired: seq<FiredRule>)
    ensures ReduceDependency in Advice(riskScore, fired) <==> riskScore > 0.6
    ensures PracticeManual in Advice(riskScore, fired) <==> riskScore > 0.6
    ensures AiFreeDays in Advice(riskScore, fired) <==> HasRule(fired, NS005)
    ensures PromoteActivity in Advice(riskScore, fired) <==> HasRule(fired, NS002)
    ensures IncreaseReflection in Advice(riskScore, fired) <==> HasRule(fired, NS004)
  {
    CheckedParts(riskScore, fired);
  }

  /** What each check contributes to the checked advice, and that the fallback messages are
      never among it. */
  lemma CheckedParts(riskScore: real, fired: seq<FiredRule>)
    ensures var checked := Checked(riskScore, fired);
      && (ReduceDependency in checked <==> riskScore > 0.6)
      && (PracticeManual in checked <==> riskScore > 0.6)
      && (AiFreeDays in checked <==> HasRule(fired, NS005))
      && (PromoteActivity in checked <==> HasRule(fired, NS002))
      && (IncreaseReflection in checked <==> HasRule(fired, NS004))
      && MaintainBalance !in checked && KeepMonitoring !in checked
      && (checked == [] <==> !(riskScore > 0.6) && !HasRule(fired, NS005) && !HasRule(fired, NS002) && !HasRule(fired, NS004))
  {
    var a := When(riskScore > 0.6, [ReduceDependency, PracticeManual]);
    var b := When(HasRule(fired, NS005), [AiFreeDays]);
    var c := When(HasRule(fired, NS002), [PromoteActivity]);
    var d := When(HasRule(fired, NS004), [IncreaseReflection]);
    assert Checked(riskScore, fired) == a + b + c + d;
    assert forall x :: x in a + b + c + d <==> x in a || x in b || x in c || x in d;
  }

  /** When the score check holds, its two strings open the list, in that order. */
  lemma ScoreAdviceFirst(riskScore: real, fired: seq<FiredRule>)
    requires riskScore > 0.6
    ensures Advice(riskScore, fired)[..2] == [ReduceDependency, PracticeManual]
  {
    var rest := When(HasRule(fired, NS005), [AiFreeDays]) + When(HasRule(fired, NS002), [PromoteActivity])
                + When(HasRule(fired, NS004), [IncreaseReflection]);
    assert Checked(riskScore, fired) == [ReduceDependency, PracticeManual] + rest;
  }

  /** When all four checks hold, all five check messages come back, in check order. */
  lemma FullAdvice(riskScore: real, fired: seq<FiredRule>)
    requires riskScore > 0.6 && HasRule(fired, NS005) && HasRule(fired, NS002) && HasRule(fired, NS004)
    ensures Advice(riskScore, fired) == [ReduceDependency, PracticeManual, AiFreeDays, PromoteActivity, IncreaseReflection]
  {
  }

  /** A single recommendation is possible: a score of at most 0.6 with NS005 as the only
      check that holds yields one string, not the fallback pair. */
  lemma SingleAdvice(riskScore: real, fired: seq<FiredRule>)
    requires riskScore <= 0.6 && HasRule(fired, NS005) && !HasRule(fired, NS002) && !HasRule(fired, NS004)
    ensures Advice(riskScore, fired) == [AiFreeDays]
  {
  }
}
