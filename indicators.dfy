// The input record of the risk engine: fourteen optional numeric indicators
// and an optional usage-frequency category.

module Indicators {

  /** A value that may be absent: `None` stands for a JavaScript property that is `undefined`. */
  datatype Option<+T> = None | Some(value: T)

  /** The `usage_frequency` category; `Other` is any string that is not one of the three names. */
  datatype Usage = Low | Medium | High | Other

  /** The fourteen numeric keys of an indicator record, in the order the weight table lists them. */
  datatype Field =
    | CognitiveOffloading
    | NeuralActivity
    | MemoryRetention
    | CopyPasteBehavior
    | AnalyticalEngagement
    | ReflectionTime
    | VerificationRate
    | AiDependence
    | EngagementMetrics
    | ProblemSolvingDecline
    | ExecutiveFunction
    | AttentionSpan
    | TaskSwitching
    | TemporalUsageMonths

  /** One indicator record. Absent keys are `None`, which is distinct from a present 0. */
  datatype IndicatorVector = IndicatorVector(
    cognitiveOffloading: Option<real>,
    neuralActivity: Option<real>,
    memoryRetention: Option<real>,
    copyPasteBehavior: Option<real>,
    analyticalEngagement: Option<real>,
    reflectionTime: Option<real>,
    verificationRate: Option<real>,
    aiDependence: Option<real>,
    engagementMetrics: Option<real>,
    problemSolvingDecline: Option<real>,
    executiveFunction: Option<real>,
    attentionSpan: Option<real>,
    taskSwitching: Option<real>,
    temporalUsageMonths: Option<real>,
    usageFrequency: Option<Usage>)
  {
    /** The lookup `data[key]` for a numeric key. */
    function Get(f: Field): Option<real> {
      match f
      case CognitiveOffloading => cognitiveOffloading
      case NeuralActivity => neuralActivity
      case MemoryRetention => memoryRetention
      case CopyPasteBehavior => copyPasteBehavior
      case AnalyticalEngagement => analyticalEngagement
      case ReflectionTime => reflectionTime
      case VerificationRate => verificationRate
      case AiDependence => aiDependence
      case EngagementMetrics => engagementMetrics
      case ProblemSolvingDecline => problemSolvingDecline
      case ExecutiveFunction => executiveFunction
      case AttentionSpan => attentionSpan
      case TaskSwitching => taskSwitching
      case TemporalUsageMonths => temporalUsageMonths
    }

    /** The record with key `f` set to `o` (or removed, when `o` is `None`) and every other key kept. */
    function Set(f: Field, o: Option<real>): (r: IndicatorVector)
      ensures r.Get(f) == o
      ensures forall g :: g != f ==> r.Get(g) == Get(g)
      ensures r.usageFrequency == usageFrequency
    {
      match f
      case CognitiveOffloading => this.(cognitiveOffloading := o)
      case NeuralActivity => this.(neuralActivity := o)
      case MemoryRetention => this.(memoryRetention := o)
      case CopyPasteBehavior => this.(copyPasteBehavior := o)
      case AnalyticalEngagement => this.(analyticalEngagement := o)
      case ReflectionTime => this.(reflectionTime := o)
      case VerificationRate => this.(verificationRate := o)
      case AiDependence => this.(aiDependence := o)
      case EngagementMetrics => this.(engagementMetrics := o)
      case ProblemSolvingDecline => this.(problemSolvingDecline := o)
      case ExecutiveFunction => this.(executiveFunction := o)
      case AttentionSpan => this.(attentionSpan := o)
      case TaskSwitching => this.(taskSwitching := o)
      case TemporalUsageMonths => this.(temporalUsageMonths := o)
    }
  }

  /** The empty record `{}`: every key absent. */
  const NoIndicators: IndicatorVector :=
    IndicatorVector(None, None, None, None, None, None, None,
                    None, None, None, None, None, None, None, None)

  /** JavaScript's `x > t` when `x` may be `undefined`: a comparison with `undefined` is false. */
  predicate Gt(x: Option<real>, t: real) {
    x.Some? && x.value > t
  }

  /** JavaScript's `x < t` when `x` may be `undefined`. */
  predicate Lt(x: Option<real>, t: real) {
    x.Some? && x.value < t
  }
}
