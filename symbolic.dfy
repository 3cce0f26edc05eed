// The "symbolic" sub-score: eight fixed threshold rules, NS001 to NS008.
// Each rule that holds contributes a fixed activation and a fixed risk increment;
// the increments are summed and the sum is capped at 1.

module SymbolicRules {
  import opened Indicators

  datatype RuleId = NS001 | NS002 | NS003 | NS004 | NS005 | NS006 | NS007 | NS008
  {
    /** Position of the rule in the catalog, 0 for NS001 up to 7 for NS008. */
    function Index(): (k: nat)
      ensures k < 8
    {
      match this
      case NS001 => 0 case NS002 => 1 case NS003 => 2 case NS004 => 3
      case NS005 => 4 case NS006 => 5 case NS007 => 6 case NS008 => 7
    }
  }

  /** A catalog entry: identifier and confidence weight; its human-readable condition is `Description()`,
      which is fixed by the identifier. */
  datatype Rule = Rule(ruleId: RuleId, confidence: real)
  {
    function Description(): string {
      DescriptionOf(ruleId)
    }
  }

  /** The human-readable condition of each catalog entry. */
  function DescriptionOf(id: RuleId): string {
    match id
    case NS001 => "If cognitive_offloading > 0.7 AND usage_frequency = high THEN cognitive_decline_risk = high"
    case NS002 => "If neural_activity < 0.3 AND memory_retention < 0.4 THEN severe_decline_risk = true"
    case NS003 => "If copy_paste_behavior > 0.8 THEN analytical_engagement = low"
    case NS004 => "If reflection_time < 0.2 AND verification_rate < 0.3 THEN critical_thinking_decline = high"
    case NS005 => "If ai_dependence > 0.9 THEN cognitive_atrophy_risk = severe"
    case NS006 => "If engagement_metrics < 0.4 AND temporal_usage > 6_months THEN long_term_decline = probable"
    case NS007 => "If problem_solving_decline > 0.7 AND executive_function < 0.5 THEN metacognitive_impairment = high"
    case NS008 => "If attention_span < 0.3 AND task_switching > 0.8 THEN focus_degradation = severe"
  }

  /** A catalog entry copied into the result together with its activation. */
  datatype FiredRule = FiredRule(rule: Rule, activation: real)

  /** What the symbolic stage returns. */
  datatype SymbolicResult = SymbolicResult(firedRules: seq<FiredRule>, riskScore: real)

  /** The rule catalog, read-only reference data. */
  const NeurosymbolicRules: seq<Rule> := [
    Rule(NS001, 0.8),
    Rule(NS002, 0.9),
    Rule(NS003, 0.7),
    Rule(NS004, 0.75),
    Rule(NS005, 0.95),
    Rule(NS006, 0.85),
    Rule(NS007, 0.8),
    Rule(NS008, 0.75)
  ]

  /** The predicate of each rule; every comparison is strict, and one with an absent key is false. */
  predicate Holds(id: RuleId, data: IndicatorVector) {
    match id
    case NS001 => Gt(data.cognitiveOffloading, 0.7) && data.usageFrequency == Some(High)
    case NS002 => Lt(data.neuralActivity, 0.3) && Lt(data.memoryRetention, 0.4)
    case NS003 => Gt(data.copyPasteBehavior, 0.8)
    case NS004 => Lt(data.reflectionTime, 0.2) && Lt(data.verificationRate, 0.3)
    case NS005 => Gt(data.aiDependence, 0.9)
    case NS006 => Lt(data.engagementMetrics, 0.4) && Gt(data.temporalUsageMonths, 6.0)
    case NS007 => Gt(data.problemSolvingDecline, 0.7) && Lt(data.executiveFunction, 0.5)
    case NS008 => Lt(data.attentionSpan, 0.3) && Gt(data.taskSwitching, 0.8)
  }

  /** The numeric keys each rule's predicate reads. */
  function ReadsFields(id: RuleId): set<Field> {
    match id
    case NS001 => {CognitiveOffloading}
    case NS002 => {NeuralActivity, MemoryRetention}
    case NS003 => {CopyPasteBehavior}
    case NS004 => {ReflectionTime, VerificationRate}
    case NS005 => {AiDependence}
    case NS006 => {EngagementMetrics, TemporalUsageMonths}
    case NS007 => {ProblemSolvingDecline, ExecutiveFunction}
    case NS008 => {AttentionSpan, TaskSwitching}
  }

  /** The literal activation recorded when a rule fires. */
  function Activation(id: RuleId): (a: real)
    ensures 0.0 <= a <= 1.0
  {
    match id
    case NS001 => 0.8 case NS002 => 0.9 case NS003 => 0.7 case NS004 => 0.75
    case NS005 => 0.95 case NS006 => 0.85 case NS007 => 0.8 case NS008 => 0.75
  }

  /** The literal amount added to the accumulator when a rule fires. */
  function Increment(id: RuleId): (r: real)
    ensures 0.0 < r <= 0.25
  {
    match id
    case NS001 => 0.15 case NS002 => 0.20 case NS003 => 0.10 case NS004 => 0.12
    case NS005 => 0.25 case NS006 => 0.15 case NS007 => 0.18 case NS008 => 0.14
  }

  /** Testing one catalog entry: push it with its activation when its predicate holds. */
  function Push(fired: seq<FiredRule>, holds: bool, r: Rule): seq<FiredRule> {
    if holds then fired + [FiredRule(r, Activation(r.ruleId))] else fired
  }

  /** Testing one catalog entry: add its increment to the accumulator when its predicate holds. */
  function Accumulate(total: real, holds: bool, r: Rule): real {
    if holds then total + Increment(r.ruleId) else total
  }

  /** The fired entries among the first `n` catalog entries, in catalog order. */
  function FiredUpTo(n: nat, data: IndicatorVector): seq<FiredRule>
    requires n <= |NeurosymbolicRules|
  {
    if n == 0 then []
    else Push(FiredUpTo(n - 1, data), Holds(NeurosymbolicRules[n - 1].ruleId, data), NeurosymbolicRules[n - 1])
  }

  /** The fired rules of a record: the catalog filtered by the rule predicates. */
  function Fired(data: IndicatorVector): seq<FiredRule> {
    FiredUpTo(|NeurosymbolicRules|, data)
  }

  /** The sum of the increments of the fired rules. */
  function IncrementSum(fired: seq<FiredRule>): (r: real)
    ensures r >= 0.0
  {
    if fired == [] then 0.0 else IncrementSum(fired[..|fired| - 1]) + Increment(fired[|fired| - 1].rule.ruleId)
  }

  /** `Math.min(a, b)`. */
  function Min(a: real, b: real): (r: real)
    ensures r <= a && r <= b && (r == a || r == b)
  {
    if a <= b then a else b
  }

  /** The symbolic stage as a function of the record: the fired rules, and the capped sum of
      their increments, which always lies in [0, 1]. */
  function Symbolic(data: IndicatorVector): (r: SymbolicResult)
    ensures r.firedRules == Fired(data)
    ensures 0.0 <= r.riskScore <= 1.0
    ensures IncrementSum(Fired(data)) <= 1.0 ==> r.riskScore == IncrementSum(Fired(data))
    ensures IncrementSum(Fired(data)) >= 1.0 ==> r.riskScore == 1.0
  {
    var fired := Fired(data);
    var total := IncrementSum(fired);
    SymbolicResult(fired, Min(1.0, total))
  }

  /** The source's straight-line evaluation: one test per rule, in catalog order, each pushing
      onto a list and adding to an accumulator. */
  method EvaluateSymbolicRules(data: IndicatorVector) returns (result: SymbolicResult)
    ensures result == Symbolic(data)
  {
    var firedRules: seq<FiredRule> := [];
    var symbolicRiskScore: real := 0.0;
    CatalogOrder();
    // Rule NS001
    firedRules, symbolicRiskScore := TestRule(firedRules, symbolicRiskScore,
      Gt(data.cognitiveOffloading, 0.7) && data.usageFrequency == Some(High), 0, 0.8, 0.15, data);
    // Rule NS002
    firedRules, symbolicRiskScore := TestRule(firedRules, symbolicRiskScore,
      Lt(data.neuralActivity, 0.3) && Lt(data.memoryRetention, 0.4), 1, 0.9, 0.20, data);
    // Rule NS003
    firedRules, symbolicRiskScore := TestRule(firedRules, symbolicRiskScore,
      Gt(data.copyPasteBehavior, 0.8), 2, 0.7, 0.10, data);
    // Rule NS004
    firedRules, symbolicRiskScore := TestRule(firedRules, symbolicRiskScore,
      Lt(data.reflectionTime, 0.2) && Lt(data.verificationRate, 0.3), 3, 0.75, 0.12, data);
    // Rule NS005
    firedRules, symbolicRiskScore := TestRule(firedRules, symbolicRiskScore,
      Gt(data.aiDependence, 0.9), 4, 0.95, 0.25, data);
    // Rule NS006
    firedRules, symbolicRiskScore := TestRule(firedRules, symbolicRiskScore,
      Lt(data.engagementMetrics, 0.4) && Gt(data.temporalUsageMonths, 6.0), 5, 0.85, 0.15, data);
    // Rule NS007
    firedRules, symbolicRiskScore := TestRule(firedRules, symbolicRiskScore,
      Gt(data.problemSolvingDecline, 0.7) && Lt(data.executiveFunction, 0.5), 6, 0.8, 0.18, data);
    // Rule NS008
    firedRules, symbolicRiskScore := TestRule(firedRules, symbolicRiskScore,
      Lt(data.attentionSpan, 0.3) && Gt(data.taskSwitching, 0.8), 7, 0.75, 0.14, data);
    result := SymbolicResult(firedRules, Min(1.0, symbolicRiskScore));
  }

  /** One `if` of the straight-line evaluation, testing catalog entry `k`: when the condition
      holds, push the entry with its literal activation and add its literal increment.
      Fed the rules fired among the first `k` entries, it returns those fired among the first `k + 1`. */
  method TestRule(firedRules: seq<FiredRule>, symbolicRiskScore: real, condition: bool,
                  k: nat, activation: real, increment: real, ghost data: IndicatorVector)
    returns (firedRules': seq<FiredRule>, symbolicRiskScore': real)
    requires k < |NeurosymbolicRules|
    requires condition == Holds(NeurosymbolicRules[k].ruleId, data)
    requires activation == Activation(NeurosymbolicRules[k].ruleId)
    requires increment == Increment(NeurosymbolicRules[k].ruleId)
    requires firedRules == FiredUpTo(k, data)
    requires symbolicRiskScore == IncrementSum(firedRules)
    ensures firedRules' == FiredUpTo(k + 1, data)
    ensures symbolicRiskScore' == IncrementSum(firedRules')
  {
    firedRules', symbolicRiskScore' := firedRules, symbolicRiskScore;
    if condition {
      firedRules' := firedRules' + [FiredRule(NeurosymbolicRules[k], activation)];
      symbolicRiskScore' := symbolicRiskScore' + increment;
    }
    Step(data, k);
  }

  /** The catalog lists the rules in identifier order. */
  lemma CatalogOrder()
    ensures |NeurosymbolicRules| == 8
    ensures NeurosymbolicRules[0].ruleId == NS001 && NeurosymbolicRules[1].ruleId == NS002
    ensures NeurosymbolicRules[2].ruleId == NS003 && NeurosymbolicRules[3].ruleId == NS004
    ensures NeurosymbolicRules[4].ruleId == NS005 && NeurosymbolicRules[5].ruleId == NS006
    ensures NeurosymbolicRules[6].ruleId == NS007 && NeurosymbolicRules[7].ruleId == NS008
  {
  }

  /** One test of the straight-line evaluation: the list grows by what testing entry `k` pushes,
      and the accumulator by that entry's increment when it is pushed. */
  lemma Step(data: IndicatorVector, k: nat)
    requires k < |NeurosymbolicRules|
    ensures FiredUpTo(k + 1, data)
         == Push(FiredUpTo(k, data), Holds(NeurosymbolicRules[k].ruleId, data), NeurosymbolicRules[k])
    ensures IncrementSum(FiredUpTo(k + 1, data))
         == Accumulate(IncrementSum(FiredUpTo(k, data)),
                       Holds(NeurosymbolicRules[k].ruleId, data), NeurosymbolicRules[k])
  {
    PushSum(FiredUpTo(k, data), Holds(NeurosymbolicRules[k].ruleId, data), NeurosymbolicRules[k]);
  }

  /** Pushing an entry adds its increment to the sum. */
  lemma PushSum(fired: seq<FiredRule>, holds: bool, r: Rule)
    ensures IncrementSum(Push(fired, holds, r)) == Accumulate(IncrementSum(fired), holds, r)
  {
    if holds {
      var after := fired + [FiredRule(r, Activation(r.ruleId))];
      assert after[..|after| - 1] == fired;
    }
  }

  /** Each catalog entry sits at the position its identifier names. */
  lemma CatalogIndexed()
    ensures |NeurosymbolicRules| == 8
    ensures forall k :: 0 <= k < |NeurosymbolicRules| ==> NeurosymbolicRules[k].ruleId.Index() == k
    ensures forall id: RuleId :: NeurosymbolicRules[id.Index()].ruleId == id
  {
    CatalogOrder();
    forall id: RuleId ensures NeurosymbolicRules[id.Index()].ruleId == id {
      match id
      case NS001 => case NS002 => case NS003 => case NS004 =>
      case NS005 => case NS006 => case NS007 => case NS008 =>
    }
  }

  /** An entry that testing the first `n` catalog entries can push: a catalog entry among those
      `n`, copied unchanged, with its own activation, whose predicate holds. */
  predicate Admissible(e: FiredRule, n: nat, data: IndicatorVector) {
    var id := e.rule.ruleId;
    n <= |NeurosymbolicRules| && id.Index() < n && e.rule == NeurosymbolicRules[id.Index()]
    && e.activation == Activation(id) && Holds(id, data)
  }

  /** The rules fired among the first `n` entries: each is admissible, they come in strictly
      increasing catalog position, every entry whose predicate holds is among them, and there
      are at most `n` of them. */
  lemma {:induction false} FiredUpToShape(n: nat, data: IndicatorVector)
    requires n <= |NeurosymbolicRules|
    ensures |FiredUpTo(n, data)| <= n
    ensures forall j :: 0 <= j < |FiredUpTo(n, data)| ==> Admissible(FiredUpTo(n, data)[j], n, data)
    ensures forall i, j :: 0 <= i < j < |FiredUpTo(n, data)| ==>
              FiredUpTo(n, data)[i].rule.ruleId.Index() < FiredUpTo(n, data)[j].rule.ruleId.Index()
    ensures forall id: RuleId :: id.Index() < n && Holds(id, data) ==>
              exists j :: 0 <= j < |FiredUpTo(n, data)| && FiredUpTo(n, data)[j].rule.ruleId == id
  {
    if n > 0 {
      FiredUpToShape(n - 1, data);
      CatalogIndexed();
      var prev, r := FiredUpTo(n - 1, data), NeurosymbolicRules[n - 1];
      var cur := FiredUpTo(n, data);
      assert r.ruleId.Index() == n - 1;
      forall j | 0 <= j < |prev| ensures Admissible(prev[j], n, data) {
        assert Admissible(prev[j], n - 1, data);
      }
      if Holds(r.ruleId, data) {
        assert cur == prev + [FiredRule(r, Activation(r.ruleId))];
        forall id: RuleId | id.Index() < n && Holds(id, data)
          ensures exists j :: 0 <= j < |cur| && cur[j].rule.ruleId == id
        {
          if id.Index() == n - 1 {
            assert cur[|prev|].rule.ruleId == id;
          } else {
            var j :| 0 <= j < |prev| && prev[j].rule.ruleId == id;
            assert cur[j] == prev[j];
          }
        }
      } else {
        assert cur == prev;
      }
    }
  }

  /** Every fired rule is a catalog entry, copied unchanged, whose predicate holds, carrying
      that rule's literal activation. */
  lemma FiredSound(data: IndicatorVector, j: nat)
    requires j < |Fired(data)|
    ensures Holds(Fired(data)[j].rule.ruleId, data)
    ensures Fired(data)[j].rule == NeurosymbolicRules[Fired(data)[j].rule.ruleId.Index()]
    ensures Fired(data)[j].activation == Activation(Fired(data)[j].rule.ruleId)
  {
    FiredUpToShape(|NeurosymbolicRules|, data);
    assert Admissible(Fired(data)[j], |NeurosymbolicRules|, data);
  }

  /** A rule is among the fired rules exactly when its predicate holds. */
  lemma FiredIff(data: IndicatorVector, id: RuleId)
    ensures (exists j :: 0 <= j < |Fired(data)| && Fired(data)[j].rule.ruleId == id) <==> Holds(id, data)
  {
    CatalogOrder();
    var fired := Fired(data);
    FiredUpToShape(|NeurosymbolicRules|, data);
    assert fired == FiredUpTo(|NeurosymbolicRules|, data);
    if j :| 0 <= j < |fired| && fired[j].rule.ruleId == id {
      assert Admissible(fired[j], |NeurosymbolicRules|, data);
    }
  }

  /** The fired rules come in catalog order, none twice, and there are at most eight. */
  lemma FiredOrdered(data: IndicatorVector)
    ensures |Fired(data)| <= 8
    ensures forall i, j :: 0 <= i < j < |Fired(data)| ==>
              Fired(data)[i].rule.ruleId.Index() < Fired(data)[j].rule.ruleId.Index()
    ensures forall i, j :: 0 <= i < j < |Fired(data)| ==> Fired(data)[i].rule.ruleId != Fired(data)[j].rule.ruleId
  {
    FiredUpToShape(|NeurosymbolicRules|, data);
  }

  /** The sum of the increments of the first `n` catalog entries: the accumulator when all fire. */
  function CatalogIncrements(n: nat): real
    requires n <= |NeurosymbolicRules|
  {
    if n == 0 then 0.0 else CatalogIncrements(n - 1) + Increment(NeurosymbolicRules[n - 1].ruleId)
  }

  /** The accumulator never exceeds the sum of the increments of the tested entries; when every
      tested predicate holds, every tested entry is pushed and that sum is reached. */
  lemma {:induction false} FiredSumBound(n: nat, data: IndicatorVector)
    requires n <= |NeurosymbolicRules|
    ensures IncrementSum(FiredUpTo(n, data)) <= CatalogIncrements(n)
    ensures (forall k :: 0 <= k < n ==> Holds(NeurosymbolicRules[k].ruleId, data)) ==>
              |FiredUpTo(n, data)| == n && IncrementSum(FiredUpTo(n, data)) == CatalogIncrements(n)
  {
    if n > 0 {
      FiredSumBound(n - 1, data);
      Step(data, n - 1);
    }
  }

  /** When every rule fires, the list is the whole catalog in order; the eight increments add up
      to 1.29, so the cap at 1 applies. */
  lemma AllRulesFire(data: IndicatorVector)
    requires forall id: RuleId :: Holds(id, data)
    ensures |Fired(data)| == 8
    ensures IncrementSum(Fired(data)) == 1.29
    ensures Symbolic(data).riskScore == 1.0
    ensures forall j :: 0 <= j < 8 ==>
              Fired(data)[j] == FiredRule(NeurosymbolicRules[j], Activation(NeurosymbolicRules[j].ruleId))
  {
    CatalogOrder();
    FiredSumBound(8, data);
    AllTestedFire(8, data);
    assert CatalogIncrements(8) == 1.29;
  }

  /** When every tested predicate holds, the list is the tested part of the catalog, in order,
      each entry with its own activation. */
  lemma {:induction false} AllTestedFire(n: nat, data: IndicatorVector)
    requires n <= |NeurosymbolicRules|
    requires forall k :: 0 <= k < n ==> Holds(NeurosymbolicRules[k].ruleId, data)
    ensures |FiredUpTo(n, data)| == n
    ensures forall j :: 0 <= j < n ==>
              FiredUpTo(n, data)[j] == FiredRule(NeurosymbolicRules[j], Activation(NeurosymbolicRules[j].ruleId))
  {
    if n > 0 {
      AllTestedFire(n - 1, data);
      var prev, entry := FiredUpTo(n - 1, data), NeurosymbolicRules[n - 1];
      var cur := FiredUpTo(n, data);
      assert Holds(entry.ruleId, data);
      assert cur == prev + [FiredRule(entry, Activation(entry.ruleId))];
      forall j | 0 <= j < n
        ensures cur[j] == FiredRule(NeurosymbolicRules[j], Activation(NeurosymbolicRules[j].ruleId))
      {
        if j < n - 1 {
          assert cur[j] == prev[j];
        }
      }
    }
  }

  /** When no tested predicate holds, nothing is pushed. */
  lemma {:induction false} NoTestedFire(n: nat, data: IndicatorVector)
    requires n <= |NeurosymbolicRules|
    requires forall k :: 0 <= k < n ==> !Holds(NeurosymbolicRules[k].ruleId, data)
    ensures FiredUpTo(n, data) == []
  {
    if n > 0 {
      NoTestedFire(n - 1, data);
    }
  }

  /** A record on which no rule holds gets an empty list and a symbolic score of 0. */
  lemma NoRuleFires(data: IndicatorVector)
    requires forall id: RuleId :: !Holds(id, data)
    ensures Fired(data) == []
    ensures Symbolic(data).riskScore == 0.0
  {
    NoTestedFire(|NeurosymbolicRules|, data);
  }

  /** A rule reading a key that is absent does not fire: every comparison with `undefined` is false. */
  lemma AbsentKeyBlocks(id: RuleId, data: IndicatorVector, f: Field)
    requires f in ReadsFields(id) && data.Get(f) == None
    ensures !Holds(id, data)
  {
  }

  /** A rule's predicate reads only its own keys (and NS001 the usage category). */
  lemma HoldsReadsOnly(id: RuleId, d1: IndicatorVector, d2: IndicatorVector)
    requires forall f :: f in ReadsFields(id) ==> d1.Get(f) == d2.Get(f)
    requires d1.usageFrequency == d2.usageFrequency
    ensures Holds(id, d1) == Holds(id, d2)
  {
    match id
    case NS001 => assert d1.Get(CognitiveOffloading) == d2.Get(CognitiveOffloading);
    case NS002 => assert d1.Get(NeuralActivity) == d2.Get(NeuralActivity) && d1.Get(MemoryRetention) == d2.Get(MemoryRetention);
    case NS003 => assert d1.Get(CopyPasteBehavior) == d2.Get(CopyPasteBehavior);
    case NS004 => assert d1.Get(ReflectionTime) == d2.Get(ReflectionTime) && d1.Get(VerificationRate) == d2.Get(VerificationRate);
    case NS005 => assert d1.Get(AiDependence) == d2.Get(AiDependence);
    case NS006 => assert d1.Get(EngagementMetrics) == d2.Get(EngagementMetrics) && d1.Get(TemporalUsageMonths) == d2.Get(TemporalUsageMonths);
    case NS007 => assert d1.Get(ProblemSolvingDecline) == d2.Get(ProblemSolvingDecline) && d1.Get(ExecutiveFunction) == d2.Get(ExecutiveFunction);
    case NS008 => assert d1.Get(AttentionSpan) == d2.Get(AttentionSpan) && d1.Get(TaskSwitching) == d2.Get(TaskSwitching);
  }

  /** Unlike the neural score, the rules tell an absent key from a present 0: with memory
      retention low, NS002 fires for neural activity 0 and not for neural activity absent. */
  lemma AbsentIsNotZero(data: IndicatorVector)
    requires Lt(data.memoryRetention, 0.4)
    ensures Holds(NS002, data.Set(NeuralActivity, Some(0.0)))
    ensures !Holds(NS002, data.Set(NeuralActivity, None))
  {
    assert data.Set(NeuralActivity, Some(0.0)).Get(MemoryRetention) == data.Get(MemoryRetention);
  }
}
