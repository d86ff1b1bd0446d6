/** Crop health classification: the additive stress-score rule that labels the
    synthetic training samples, the class-index to status lookup, and the
    rule-based advice that `predict` attaches to every classification. The
    random forest and its scaler are foreign library code; the model receives
    the functions they compute once fitted. */
module CropHealthClassification {
  import RL = RuleLists

  /** The three classes, in the order of the class-name table. */
  datatype HealthStatus = HighStress | ModerateStress | Healthy {
    /** The class label of this status. */
    function Label(): ClassLabel {
      match this
      case HighStress => 0
      case ModerateStress => 1
      case Healthy => 2
    }

    function Name(): string {
      ClassNames[Label()]
    }
  }

  /** Class labels used for training and returned by the classifier. */
  type ClassLabel = i: nat | i < 3

  /** `class_names`, indexed by class label. */
  const ClassNames: seq<string> := ["High Stress", "Moderate Stress", "Healthy"]

  /** `class_names[cls]`, as a status. */
  function StatusOfLabel(cls: ClassLabel): (s: HealthStatus)
    ensures s.Label() == cls
    ensures s.Name() == ClassNames[cls]
  {
    if cls == 0 then HighStress
    else if cls == 1 then ModerateStress
    else Healthy
  }

  /** Points contributed by soil moisture: below 30 three, below 35 two, above 60 one. */
  function MoisturePoints(moisture: real): int {
    if moisture < 30.0 then 3
    else if moisture < 35.0 then 2
    else if moisture > 60.0 then 1
    else 0
  }

  /** Points contributed by temperature: above 35 three, above 30 two, below 18 two. */
  function TemperaturePoints(temperature: real): int {
    if temperature > 35.0 then 3
    else if temperature > 30.0 then 2
    else if temperature < 18.0 then 2
    else 0
  }

  /** Points contributed by humidity: below 35 or above 85 two. */
  function HumidityPoints(humidity: real): int {
    if humidity < 35.0 then 2
    else if humidity > 85.0 then 2
    else 0
  }

  /** Points contributed by light: below 200 two. */
  function LightPoints(light: real): int {
    if light < 200.0 then 2 else 0
  }

  /** The stress score of a reading: the sum of the four contributions. */
  function StressScore(moisture: real, temperature: real, humidity: real, light: real): (score: int)
    ensures 0 <= score <= 10
  {
    MoisturePoints(moisture) + TemperaturePoints(temperature) + HumidityPoints(humidity) + LightPoints(light)
  }

  /** Training label of a stress score: 0 (High Stress) from 6 up, 1 (Moderate
      Stress) from 3 up, 2 (Healthy) below. */
  function LabelOfScore(score: int): (cls: ClassLabel)
    ensures cls == 0 <==> score >= 6
    ensures cls == 1 <==> 3 <= score < 6
    ensures cls == 2 <==> score < 3
  {
    if score >= 6 then 0
    else if score >= 3 then 1
    else 2
  }

  /** Training label of a reading. */
  function TrainingLabel(moisture: real, temperature: real, humidity: real, light: real): ClassLabel {
    LabelOfScore(StressScore(moisture, temperature, humidity, light))
  }

  /** A higher score never labels a reading healthier: labels only go down as the score goes up. */
  lemma LabelAntitone(s: int, t: int)
    requires s <= t
    ensures LabelOfScore(t) <= LabelOfScore(s)
  {
  }

  /** How many of the four factors contribute points. */
  function ContributingFactors(moisture: real, temperature: real, humidity: real, light: real): nat {
    (if MoisturePoints(moisture) > 0 then 1 else 0)
    + (if TemperaturePoints(temperature) > 0 then 1 else 0)
    + (if HumidityPoints(humidity) > 0 then 1 else 0)
    + (if LightPoints(light) > 0 then 1 else 0)
  }

  /** High Stress takes three contributing factors, unless the two three-point
      conditions (moisture below 30, temperature above 35) hold together. */
  lemma HighStressNeedsSeveralFactors(moisture: real, temperature: real, humidity: real, light: real)
    requires TrainingLabel(moisture, temperature, humidity, light) == 0
    ensures ContributingFactors(moisture, temperature, humidity, light) >= 3
            || (moisture < 30.0 && temperature > 35.0)
  {
  }

  /** A reading labelled Healthy is free of every three-point condition: soil
      moisture is at least 30 and temperature at most 35. */
  lemma HealthyExcludesSevereConditions(moisture: real, temperature: real, humidity: real, light: real)
    requires TrainingLabel(moisture, temperature, humidity, light) == 2
    ensures moisture >= 30.0 && temperature <= 35.0
  {
  }

  /** The fixed pieces of advice, in the order the rules are checked. */
  datatype HealthAdvice =
    | IncreaseIrrigation
    | ProvideShade
    | ConsiderMisting
    | EnsureLight
    | MaintainPractices
  {
    function Text(): string {
      match this
      case IncreaseIrrigation => "Increase irrigation frequency"
      case ProvideShade => "Provide shade or cooling during peak hours"
      case ConsiderMisting => "Consider misting to increase humidity"
      case EnsureLight => "Ensure adequate light exposure"
      case MaintainPractices => "Maintain current management practices"
    }
  }

  /** Position of the rule that produces an advice. */
  function AdviceRank(a: HealthAdvice): nat {
    match a
    case IncreaseIrrigation => 0
    case ProvideShade => 1
    case ConsiderMisting => 2
    case EnsureLight => 3
    case MaintainPractices => 4
  }

  /** Advice listed strictly in the order of the rules that produce it. */
  ghost predicate InRankOrder(advice: seq<HealthAdvice>) {
    RL.Ordered(advice, AdviceRank, true)
  }

  /** True when at least one advice rule fires. */
  predicate AnyAdviceRule(moisture: real, temperature: real, humidity: real, light: real) {
    moisture < 35.0 || temperature > 30.0 || humidity < 40.0 || light < 300.0
  }

  /** The advice of the four rules, in rule order. */
  function TriggeredAdvice(moisture: real, temperature: real, humidity: real, light: real): seq<HealthAdvice> {
    RL.When(moisture < 35.0, IncreaseIrrigation)
    + RL.When(temperature > 30.0, ProvideShade)
    + RL.When(humidity < 40.0, ConsiderMisting)
    + RL.When(light < 300.0, EnsureLight)
  }

  /** The advice attached to a classification: the triggered advice, or the
      single fallback when no rule fires. */
  function AdviceFor(moisture: real, temperature: real, humidity: real, light: real): seq<HealthAdvice> {
    var triggered := TriggeredAdvice(moisture, temperature, humidity, light);
    if triggered == [] then [MaintainPractices] else triggered
  }

  /** Each advice is given exactly when its own rule fires, whatever the others
      do; the fallback exactly when none fires. */
  lemma {:induction false} AdviceMembers(moisture: real, temperature: real, humidity: real, light: real, a: HealthAdvice)
    ensures a in AdviceFor(moisture, temperature, humidity, light) <==>
              || (a == IncreaseIrrigation && moisture < 35.0)
              || (a == ProvideShade && temperature > 30.0)
              || (a == ConsiderMisting && humidity < 40.0)
              || (a == EnsureLight && light < 300.0)
              || (a == MaintainPractices && !AnyAdviceRule(moisture, temperature, humidity, light))
  {
    var triggered := TriggeredAdvice(moisture, temperature, humidity, light);
    RL.WhenMembers(moisture < 35.0, IncreaseIrrigation, a);
    RL.WhenMembers(temperature > 30.0, ProvideShade, a);
    RL.WhenMembers(humidity < 40.0, ConsiderMisting, a);
    RL.WhenMembers(light < 300.0, EnsureLight, a);
    assert triggered == [] <==> !AnyAdviceRule(moisture, temperature, humidity, light);
  }

  /** The advice is never empty and holds at most four entries; with no rule
      firing it is the fallback alone. */
  lemma AdviceSize(moisture: real, temperature: real, humidity: real, light: real)
    ensures 1 <= |AdviceFor(moisture, temperature, humidity, light)| <= 4
    ensures !AnyAdviceRule(moisture, temperature, humidity, light) ==>
              AdviceFor(moisture, temperature, humidity, light) == [MaintainPractices]
  {
    RL.WhenMembers(moisture < 35.0, IncreaseIrrigation, IncreaseIrrigation);
    RL.WhenMembers(temperature > 30.0, ProvideShade, ProvideShade);
    RL.WhenMembers(humidity < 40.0, ConsiderMisting, ConsiderMisting);
    RL.WhenMembers(light < 300.0, EnsureLight, EnsureLight);
  }

  /** The advice comes strictly in rule order. */
  lemma AdviceInRankOrder(moisture: real, temperature: real, humidity: real, light: real)
    ensures InRankOrder(AdviceFor(moisture, temperature, humidity, light))
  {
    var w1 := RL.When(moisture < 35.0, IncreaseIrrigation);
    var w2 := w1 + RL.When(temperature > 30.0, ProvideShade);
    var w3 := w2 + RL.When(humidity < 40.0, ConsiderMisting);
    RL.WhenOrdered(moisture < 35.0, IncreaseIrrigation, AdviceRank, true);
    RL.AppendWhenOrdered(w1, temperature > 30.0, ProvideShade, AdviceRank, true, 0, 0);
    RL.AppendWhenOrdered(w2, humidity < 40.0, ConsiderMisting, AdviceRank, true, 0, 1);
    RL.AppendWhenOrdered(w3, light < 300.0, EnsureLight, AdviceRank, true, 0, 2);
  }

  /** The advice rules as `predict` runs them: one `if` per rule, then the
      fallback when the list is still empty. It uses the raw readings only, so
      it can disagree with the classifier's own status. */
  method Recommend(moisture: real, temperature: real, humidity: real, light: real)
    returns (advice: seq<HealthAdvice>)
    ensures advice == AdviceFor(moisture, temperature, humidity, light)
  {
    advice := [];
    if moisture < 35.0 {
      advice := advice + [IncreaseIrrigation];
    }
    ghost var fired := RL.When(moisture < 35.0, IncreaseIrrigation);
    assert advice == fired;
    if temperature > 30.0 {
      advice := advice + [ProvideShade];
    }
    fired := fired + RL.When(temperature > 30.0, ProvideShade);
    assert advice == fired;
    if humidity < 40.0 {
      advice := advice + [ConsiderMisting];
    }
    fired := fired + RL.When(humidity < 40.0, ConsiderMisting);
    assert advice == fired;
    if light < 300.0 {
      advice := advice + [EnsureLight];
    }
    fired := fired + RL.When(light < 300.0, EnsureLight);
    assert advice == fired;
    if advice == [] {
      advice := advice + [MaintainPractices];
    }
  }

  /** Class probabilities as the classifier reports them, one per class. */
  datatype ClassProbabilities = ClassProbabilities(highStress: real, moderateStress: real, healthy: real) {
    function Of(cls: ClassLabel): real {
      if cls == 0 then highStress
      else if cls == 1 then moderateStress
      else healthy
    }
  }

  /** What `predict` reports. */
  datatype HealthReport = HealthReport(
    status: HealthStatus,
    confidence: real,
    probabilities: ClassProbabilities,
    advice: seq<HealthAdvice>)

  /** The crop health classifier with its lazily set training flag. */
  class CropHealthClassificationModel {
    /** The class label the fitted scaler and random forest give to
        (moisture, temperature, humidity, light). */
    const classifier: (real, real, real, real) -> ClassLabel
    /** The class probabilities they give to the same features. */
    const probabilities: (real, real, real, real) -> ClassProbabilities
    var isTrained: bool

    constructor (classifier: (real, real, real, real) -> ClassLabel,
                 probabilities: (real, real, real, real) -> ClassProbabilities)
      ensures this.classifier == classifier && this.probabilities == probabilities
      ensures !isTrained
    {
      this.classifier := classifier;
      this.probabilities := probabilities;
      isTrained := false;
    }

    /** Fits the model; afterwards it is trained for good. */
    method Train()
      modifies this
      ensures isTrained
    {
      isTrained := true;
    }

    /** Trains on first use, classifies, and attaches the rule-based advice.
        The reported confidence is the probability of the reported class. */
    method Predict(moisture: real, temperature: real, humidity: real, light: real)
      returns (r: HealthReport)
      modifies this
      ensures isTrained
      ensures var cls := classifier(moisture, temperature, humidity, light);
              && r.status == StatusOfLabel(cls)
              && r.status.Name() == ClassNames[cls]
              && r.probabilities == probabilities(moisture, temperature, humidity, light)
              && r.confidence == r.probabilities.Of(cls)
      ensures r.advice == AdviceFor(moisture, temperature, humidity, light)
    {
      if !isTrained {
        Train();
      }
      var cls := classifier(moisture, temperature, humidity, light);
      var probs := probabilities(moisture, temperature, humidity, light);
      var advice := Recommend(moisture, temperature, humidity, light);
      r := HealthReport(StatusOfLabel(cls), probs.Of(cls), probs, advice);
    }
  }
}
