// The "neural" sub-score: a fixed signed linear model over the indicators,
// scaled by a usage-frequency multiplier and clamped to [0, 1].

module NeuralScoring {
  import opened Indicators

  /** The weight table, in its declaration order. */
  const Weights: seq<(Field, real)> := [
    (CognitiveOffloading, 0.12),
    (NeuralActivity, -0.15),
    (MemoryRetention, -0.13),
    (CopyPasteBehavior, 0.10),
    (AnalyticalEngagement, -0.11),
    (ReflectionTime, -0.09),
    (VerificationRate, -0.08),
    (AiDependence, 0.14),
    (EngagementMetrics, -0.10),
    (ProblemSolvingDecline, 0.13),
    (ExecutiveFunction, -0.12),
    (AttentionSpan, -0.11),
    (TaskSwitching, 0.08),
    (TemporalUsageMonths, 0.005)
  ]

  /** The starting value of the running score. */
  const Base: real := 0.5

  /** What one table entry adds: `value * weight` when the key is present, nothing otherwise. */
  function Contribution(data: IndicatorVector, entry: (Field, real)): real {
    match data.Get(entry.0)
    case Some(x) => x * entry.1
    case None => 0.0
  }

  /** The sum of the contributions of the entries of `table`, taken in order. */
  function WeightedSum(data: IndicatorVector, table: seq<(Field, real)>): real {
    if table == [] then 0.0
    else WeightedSum(data, table[..|table| - 1]) + Contribution(data, table[|table| - 1])
  }

  /** The total weight that `table` gives to key `f` (its one weight, as every key occurs once). */
  function WeightOf(f: Field, table: seq<(Field, real)>): real {
    if table == [] then 0.0
    else WeightOf(f, table[..|table| - 1]) + (if table[|table| - 1].0 == f then table[|table| - 1].1 else 0.0)
  }

  /** The multiplier `usageMultiplier[data.usage_frequency] || 1.0`. */
  function UsageMultiplier(u: Option<Usage>): (m: real)
    ensures u == Some(Low) ==> m == 0.8
    ensures u == Some(High) ==> m == 1.2
    ensures u != Some(Low) && u != Some(High) ==> m == 1.0
    ensures 0.8 <= m <= 1.2
  {
    match u
    case Some(Low) => 0.8
    case Some(Medium) => 1.0
    case Some(High) => 1.2
    case _ => 1.0
  }

  /** `Math.max(0, Math.min(1, x))`. */
  function Clamp01(x: real): (r: real)
    ensures 0.0 <= r <= 1.0
    ensures 0.0 <= x <= 1.0 ==> r == x
    ensures x < 0.0 ==> r == 0.0
    ensures x > 1.0 ==> r == 1.0
  {
    if x > 1.0 then 1.0 else if x < 0.0 then 0.0 else x
  }

  /** A running score scaled by the multiplier of category `u`. */
  function Scaled(score: real, u: Option<Usage>): real {
    score * UsageMultiplier(u)
  }

  /** The neural score of a record: the multiplier scales the whole sum, base included. */
  function NeuralScore(data: IndicatorVector): (r: real)
    ensures 0.0 <= r <= 1.0
  {
    Clamp01(Scaled(Base + WeightedSum(data, Weights), data.usageFrequency))
  }

  /** The loop of the source: accumulate over the weight table, scale, clamp. */
  method CalculateNeuralScore(data: IndicatorVector) returns (score: real)
    ensures score == NeuralScore(data)
    ensures 0.0 <= score <= 1.0
  {
    score := Base;
    var i := 0;
    while i < |Weights|
      invariant 0 <= i <= |Weights|
      invariant score == Base + WeightedSum(data, Weights[..i])
    {
      var (key, weight) := Weights[i];
      assert Weights[..i + 1][..i] == Weights[..i];
      match data.Get(key) {
        case Some(x) => score := score + x * weight;
        case None =>
      }
      i := i + 1;
    }
    assert Weights[..|Weights|] == Weights;
    score := score * UsageMultiplier(data.usageFrequency);
    score := if score > 1.0 then 1.0 else if score < 0.0 then 0.0 else score;
  }

  /** A possibly absent value read as a number, absent as 0. */
  function OrZero(o: Option<real>): real {
    if o.Some? then o.value else 0.0
  }

  /** The weighted sum written out: each key's value (0 when absent) times its weight. */
  lemma SumWrittenOut(data: IndicatorVector)
    ensures WeightedSum(data, Weights)
         == OrZero(data.cognitiveOffloading) * 0.12 + OrZero(data.neuralActivity) * -0.15
          + OrZero(data.memoryRetention) * -0.13 + OrZero(data.copyPasteBehavior) * 0.10
          + OrZero(data.analyticalEngagement) * -0.11 + OrZero(data.reflectionTime) * -0.09
          + OrZero(data.verificationRate) * -0.08 + OrZero(data.aiDependence) * 0.14
          + OrZero(data.engagementMetrics) * -0.10 + OrZero(data.problemSolvingDecline) * 0.13
          + OrZero(data.executiveFunction) * -0.12 + OrZero(data.attentionSpan) * -0.11
          + OrZero(data.taskSwitching) * 0.08 + OrZero(data.temporalUsageMonths) * 0.005
  {
    WeightsListed();
    TableSum(data, Weights);
  }

  /** The table's keys and weights, position by position. */
  lemma WeightsListed()
    ensures |Weights| == 14
    ensures Weights[0] == (CognitiveOffloading, 0.12)
    ensures Weights[1] == (NeuralActivity, -0.15)
    ensures Weights[2] == (MemoryRetention, -0.13)
    ensures Weights[3] == (CopyPasteBehavior, 0.10)
    ensures Weights[4] == (AnalyticalEngagement, -0.11)
    ensures Weights[5] == (ReflectionTime, -0.09)
    ensures Weights[6] == (VerificationRate, -0.08)
    ensures Weights[7] == (AiDependence, 0.14)
    ensures Weights[8] == (EngagementMetrics, -0.10)
    ensures Weights[9] == (ProblemSolvingDecline, 0.13)
    ensures Weights[10] == (ExecutiveFunction, -0.12)
    ensures Weights[11] == (AttentionSpan, -0.11)
    ensures Weights[12] == (TaskSwitching, 0.08)
    ensures Weights[13] == (TemporalUsageMonths, 0.005)
  {
  }

  /** SumWrittenOut for any table listing the same entries. */
  lemma TableSum(data: IndicatorVector, t: seq<(Field, real)>)
    requires |t| == 14
    requires t[0] == (CognitiveOffloading, 0.12)
    requires t[1] == (NeuralActivity, -0.15)
    requires t[2] == (MemoryRetention, -0.13)
    requires t[3] == (CopyPasteBehavior, 0.10)
    requires t[4] == (AnalyticalEngagement, -0.11)
    requires t[5] == (ReflectionTime, -0.09)
    requires t[6] == (VerificationRate, -0.08)
    requires t[7] == (AiDependence, 0.14)
    requires t[8] == (EngagementMetrics, -0.10)
    requires t[9] == (ProblemSolvingDecline, 0.13)
    requires t[10] == (ExecutiveFunction, -0.12)
    requires t[11] == (AttentionSpan, -0.11)
    requires t[12] == (TaskSwitching, 0.08)
    requires t[13] == (TemporalUsageMonths, 0.005)
    ensures WeightedSum(data, t)
         == OrZero(data.cognitiveOffloading) * 0.12 + OrZero(data.neuralActivity) * -0.15
          + OrZero(data.memoryRetention) * -0.13 + OrZero(data.copyPasteBehavior) * 0.10
          + OrZero(data.analyticalEngagement) * -0.11 + OrZero(data.reflectionTime) * -0.09
          + OrZero(data.verificationRate) * -0.08 + OrZero(data.aiDependence) * 0.14
          + OrZero(data.engagementMetrics) * -0.10 + OrZero(data.problemSolvingDecline) * 0.13
          + OrZero(data.executiveFunction) * -0.12 + OrZero(data.attentionSpan) * -0.11
          + OrZero(data.taskSwitching) * 0.08 + OrZero(data.temporalUsageMonths) * 0.005
  {
    TableFirstEight(data, t);
    PairStep(data, t, 8, EngagementMetrics, -0.10, ProblemSolvingDecline, 0.13);
    PairStep(data, t, 10, ExecutiveFunction, -0.12, AttentionSpan, -0.11);
    PairStep(data, t, 12, TaskSwitching, 0.08, TemporalUsageMonths, 0.005);
    assert t[..14] == t;
  }

  /** The first eight terms of TableSum. */
  lemma TableFirstEight(data: IndicatorVector, t: seq<(Field, real)>)
    requires |t| >= 8
    requires t[0] == (CognitiveOffloading, 0.12)
    requires t[1] == (NeuralActivity, -0.15)
    requires t[2] == (MemoryRetention, -0.13)
    requires t[3] == (CopyPasteBehavior, 0.10)
    requires t[4] == (AnalyticalEngagement, -0.11)
    requires t[5] == (ReflectionTime, -0.09)
    requires t[6] == (VerificationRate, -0.08)
    requires t[7] == (AiDependence, 0.14)
    ensures WeightedSum(data, t[..8])
         == OrZero(data.cognitiveOffloading) * 0.12 + OrZero(data.neuralActivity) * -0.15
          + OrZero(data.memoryRetention) * -0.13 + OrZero(data.copyPasteBehavior) * 0.10
          + OrZero(data.analyticalEngagement) * -0.11 + OrZero(data.reflectionTime) * -0.09
          + OrZero(data.verificationRate) * -0.08 + OrZero(data.aiDependence) * 0.14
  {
    assert WeightedSum(data, t[..0]) == 0.0;
    PairStep(data, t, 0, CognitiveOffloading, 0.12, NeuralActivity, -0.15);
    PairStep(data, t, 2, MemoryRetention, -0.13, CopyPasteBehavior, 0.10);
    PairStep(data, t, 4, AnalyticalEngagement, -0.11, ReflectionTime, -0.09);
    PairStep(data, t, 6, VerificationRate, -0.08, AiDependence, 0.14);
  }

  /** Two more table entries add their keys' values (or 0) times their weights. */
  lemma PairStep(data: IndicatorVector, t: seq<(Field, real)>, k: nat, f: Field, w: real, g: Field, v: real)
    requires k + 1 < |t| && t[k] == (f, w) && t[k + 1] == (g, v)
    ensures WeightedSum(data, t[..k + 2])
         == WeightedSum(data, t[..k]) + OrZero(data.Get(f)) * w + OrZero(data.Get(g)) * v
  {
    PrefixStep(data, t, k, f, w);
    PrefixStep(data, t, k + 1, g, v);
  }

  /** One more table entry, key `f` with weight `w`, adds that key's value (or 0) times `w`. */
  lemma PrefixStep(data: IndicatorVector, t: seq<(Field, real)>, k: nat, f: Field, w: real)
    requires k < |t| && t[k] == (f, w)
    ensures WeightedSum(data, t[..k + 1]) == WeightedSum(data, t[..k]) + OrZero(data.Get(f)) * w
  {
    assert t[..k + 1][..k] == t[..k];
    assert Contribution(data, (f, w)) == OrZero(data.Get(f)) * w by {
      if data.Get(f).None? {
        assert OrZero(data.Get(f)) == 0.0;
      }
    }
  }

  /** The sum is linear in each key: a present value `x` adds exactly `x` times the key's weight,
      and an absent key adds nothing. */
  lemma {:induction false} SumSplit(data: IndicatorVector, f: Field, x: real, table: seq<(Field, real)>)
    ensures WeightedSum(data.Set(f, Some(x)), table)
         == WeightedSum(data.Set(f, None), table) + x * WeightOf(f, table)
  {
    if table != [] {
      var init, last := table[..|table| - 1], table[|table| - 1];
      SumSplit(data, f, x, init);
      var extra := if last.0 == f then last.1 else 0.0;
      ContributionSplit(data, f, x, last);
      assert WeightOf(f, table) == WeightOf(f, init) + extra;
      assert x * WeightOf(f, table) == x * WeightOf(f, init) + x * extra;
    }
  }

  /** The one-entry case of SumSplit. */
  lemma ContributionSplit(data: IndicatorVector, f: Field, x: real, entry: (Field, real))
    ensures Contribution(data.Set(f, Some(x)), entry)
         == Contribution(data.Set(f, None), entry) + x * (if entry.0 == f then entry.1 else 0.0)
  {
    var d1, d0 := data.Set(f, Some(x)), data.Set(f, None);
    if entry.0 == f {
      assert d1.Get(f) == Some(x) && d0.Get(f) == None;
    } else {
      assert d1.Get(entry.0) == d0.Get(entry.0);
    }
  }

  /** Every key absent contributes nothing, whatever the table. */
  lemma {:induction false} EmptySumIsZero(table: seq<(Field, real)>)
    ensures WeightedSum(NoIndicators, table) == 0.0
  {
    if table != [] {
      EmptySumIsZero(table[..|table| - 1]);
    }
  }

  /** An absent key and a key present with value 0 give the same neural score. */
  lemma AbsentScoresLikeZero(data: IndicatorVector, f: Field)
    ensures NeuralScore(data.Set(f, None)) == NeuralScore(data.Set(f, Some(0.0)))
  {
    SumSplit(data, f, 0.0, Weights);
    assert data.Set(f, None).usageFrequency == data.Set(f, Some(0.0)).usageFrequency;
  }

  /** Changing one present key changes the neural score by its weight, before scaling and clamping. */
  lemma NeuralScoreOfField(data: IndicatorVector, f: Field, x: real)
    ensures NeuralScore(data.Set(f, Some(x)))
         == Clamp01(Scaled(Base + WeightedSum(data.Set(f, None), Weights) + x * WeightOf(f, Weights),
                           data.usageFrequency))
  {
    SumSplit(data, f, x, Weights);
    assert data.Set(f, Some(x)).usageFrequency == data.usageFrequency;
  }

  /** With every key absent the score is the base scaled by the multiplier: 0.4, 0.5 or 0.6. */
  lemma EmptyRecordScore(u: Option<Usage>)
    ensures NeuralScore(NoIndicators.(usageFrequency := u)) == Base * UsageMultiplier(u)
    ensures u == Some(Low) ==> NeuralScore(NoIndicators.(usageFrequency := u)) == 0.4
    ensures u == Some(High) ==> NeuralScore(NoIndicators.(usageFrequency := u)) == 0.6
    ensures u == None ==> NeuralScore(NoIndicators.(usageFrequency := u)) == 0.5
  {
    EmptySumIsZero(Weights);
    SumIgnoresUsage(NoIndicators, u, Weights);
  }

  /** The weighted sum does not read the usage category. */
  lemma {:induction false} SumIgnoresUsage(data: IndicatorVector, u: Option<Usage>, table: seq<(Field, real)>)
    ensures WeightedSum(data.(usageFrequency := u), table) == WeightedSum(data, table)
  {
    if table != [] {
      SumIgnoresUsage(data, u, table[..|table| - 1]);
    }
  }

  /** A key whose weight is positive can only raise the score when it grows, one whose weight is
      negative can only lower it: every multiplier is positive and clamping is monotone. */
  lemma FieldMonotone(data: IndicatorVector, f: Field, x: real, y: real)
    requires x <= y
    ensures WeightOf(f, Weights) >= 0.0 ==> NeuralScore(data.Set(f, Some(x))) <= NeuralScore(data.Set(f, Some(y)))
    ensures WeightOf(f, Weights) <= 0.0 ==> NeuralScore(data.Set(f, Some(x))) >= NeuralScore(data.Set(f, Some(y)))
  {
    var dx, dy := data.Set(f, Some(x)), data.Set(f, Some(y));
    var w := WeightOf(f, Weights);
    var s0 := WeightedSum(data.Set(f, None), Weights);
    SumSplit(data, f, x, Weights);
    SumSplit(data, f, y, Weights);
    if w >= 0.0 {
      SumStep(WeightedSum(dx, Weights), WeightedSum(dy, Weights), s0, x, y, w);
      ScoreMonotoneInSum(dx, dy);
    }
    if w <= 0.0 {
      SumStep(WeightedSum(dy, Weights), WeightedSum(dx, Weights), s0, -y, -x, -w);
      ScoreMonotoneInSum(dy, dx);
    }
  }

  /** The arithmetic step of FieldMonotone, kept apart from the sums. */
  lemma SumStep(a: real, b: real, s: real, x: real, y: real, w: real)
    requires x <= y && w >= 0.0
    requires a == s + x * w && b == s + y * w
    ensures a <= b
  {
    MulMonotone(x, y, w);
  }

  /** For one usage category, a larger weighted sum never gives a smaller score. */
  lemma ScoreMonotoneInSum(d1: IndicatorVector, d2: IndicatorVector)
    requires d1.usageFrequency == d2.usageFrequency
    requires WeightedSum(d1, Weights) <= WeightedSum(d2, Weights)
    ensures NeuralScore(d1) <= NeuralScore(d2)
  {
    var u := d1.usageFrequency;
    ScaledMonotone(Base + WeightedSum(d1, Weights), Base + WeightedSum(d2, Weights), u);
    ClampMonotone(Scaled(Base + WeightedSum(d1, Weights), u), Scaled(Base + WeightedSum(d2, Weights), u));
  }

  lemma ScaledMonotone(a: real, b: real, u: Option<Usage>)
    requires a <= b
    ensures Scaled(a, u) <= Scaled(b, u)
  {
    MulMonotone(a, b, UsageMultiplier(u));
  }

  lemma ClampMonotone(a: real, b: real)
    requires a <= b
    ensures Clamp01(a) <= Clamp01(b)
  {
  }

  lemma MulMonotone(a: real, b: real, c: real)
    requires a <= b && c >= 0.0
    ensures a * c <= b * c
  {
  }
}
