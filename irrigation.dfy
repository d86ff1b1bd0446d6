/** Irrigation prediction: the post-processing that turns the regression's raw
    estimate into an irrigation volume in litres per square metre, an urgency
    tier and a fixed piece of advice. The Ridge regression and its feature
    scaler are foreign library code; the model receives the function they
    compute once fitted. */
module IrrigationPrediction {

  /** Urgency tier of an irrigation estimate, from least to most urgent. */
  datatype Urgency = Low | Moderate | Critical {
    function Rank(): nat {
      match this
      case Low => 0
      case Moderate => 1
      case Critical => 2
    }
  }

  /** What `predict` reports (the random confidence value is not modelled). */
  datatype IrrigationAssessment = IrrigationAssessment(liters: real, advice: string, urgency: Urgency)

  const MaxLiters: real := 100.0
  const CriticalAbove: real := 70.0
  const ModerateAbove: real := 40.0

  function Min(a: real, b: real): real { if a <= b then a else b }
  function Max(a: real, b: real): real { if a >= b then a else b }
  function Abs(x: real): real { if x < 0.0 then -x else x }

  /** `max(0, min(100, raw))`: the raw regression output clipped to [0, 100]. */
  function Clip(raw: real): (liters: real)
    ensures 0.0 <= liters <= MaxLiters
    ensures 0.0 <= raw <= MaxLiters ==> liters == raw
    ensures raw < 0.0 ==> liters == 0.0
    ensures raw > MaxLiters ==> liters == MaxLiters
  {
    Max(0.0, Min(MaxLiters, raw))
  }

  /** The clipped volume is the point of [0, 100] closest to the raw estimate. */
  lemma ClipIsNearest(raw: real, y: real)
    requires 0.0 <= y <= MaxLiters
    ensures Abs(Clip(raw) - raw) <= Abs(y - raw)
  {
  }

  /** Clipping a clipped volume changes nothing. */
  lemma ClipIdempotent(raw: real)
    ensures Clip(Clip(raw)) == Clip(raw)
  {
  }

  /** The three-tier urgency of a volume: above 70 critical, above 40 moderate, else low. */
  function UrgencyFor(liters: real): (u: Urgency)
    ensures u == Critical <==> liters > CriticalAbove
    ensures u == Moderate <==> ModerateAbove < liters <= CriticalAbove
    ensures u == Low <==> liters <= ModerateAbove
  {
    if liters > CriticalAbove then Critical
    else if liters > ModerateAbove then Moderate
    else Low
  }

  /** A larger volume never gets a less urgent tier. */
  lemma UrgencyMonotone(a: real, b: real)
    requires a <= b
    ensures UrgencyFor(a).Rank() <= UrgencyFor(b).Rank()
  {
  }

  /** The fixed advice text that goes with each tier. */
  function Advice(u: Urgency): string {
    match u
    case Critical => "\U{1F6A8} HIGH PRIORITY: Immediate irrigation needed"
    case Moderate => "\U{26A1} MODERATE: Schedule irrigation within 6-12 hours"
    case Low => "\U{2705} OPTIMAL: Soil moisture levels are adequate"
  }

  /** Each tier has its own advice, so the advice identifies the tier. */
  lemma AdviceIdentifiesUrgency(u: Urgency, v: Urgency)
    requires Advice(u) == Advice(v)
    ensures u == v
  {
  }

  /** Post-processing of one regression output: clip, tier and advice. Since
      clipping never crosses the 40 and 70 boundaries, the tier can be read off
      the raw estimate directly. */
  function Assess(raw: real): (r: IrrigationAssessment)
    ensures 0.0 <= r.liters <= MaxLiters
    ensures 0.0 <= raw <= MaxLiters ==> r.liters == raw
    ensures r.urgency == Critical <==> raw > CriticalAbove
    ensures r.urgency == Moderate <==> ModerateAbove < raw <= CriticalAbove
    ensures r.urgency == Low <==> raw <= ModerateAbove
    ensures r.advice == Advice(r.urgency)
  {
    var liters := Clip(raw);
    var u := UrgencyFor(liters);
    IrrigationAssessment(liters, Advice(u), u)
  }

  /** The irrigation predictor with its lazily set training flag. */
  class IrrigationPredictionModel {
    /** What the fitted scaler and Ridge regression compute from
        (moisture, temperature, humidity, rainfall of the last week). Fitting
        uses synthetic data drawn from a fixed seed, so this function is the
        same on every run. */
    const regressor: (real, real, real, real) -> real
    var isTrained: bool

    constructor (regressor: (real, real, real, real) -> real)
      ensures this.regressor == regressor
      ensures !isTrained
    {
      this.regressor := regressor;
      isTrained := false;
    }

    /** Fits the model; afterwards it is trained for good. */
    method Train()
      modifies this
      ensures isTrained
    {
      isTrained := true;
    }

    /** Trains on first use, then assesses the regression output. */
    method Predict(moisture: real, temperature: real, humidity: real, rainfallLastWeek: real := 0.0)
      returns (r: IrrigationAssessment)
      modifies this
      ensures isTrained
      ensures r == Assess(regressor(moisture, temperature, humidity, rainfallLastWeek))
    {
      if !isTrained {
        Train();
      }
      var raw := regressor(moisture, temperature, humidity, rainfallLastWeek);
      r := Assess(raw);
    }
  }
}
