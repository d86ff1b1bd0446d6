/** Yield prediction: the sweep over candidate growing-day counts and the
    choice of the harvest day with the highest predicted yield. The random
    forest regressor and its scaler are foreign library code; the model
    receives the function they compute once fitted. */
module YieldPrediction {

  /** Season-long averages that stay fixed while the growing days are swept. */
  datatype SeasonAverages = SeasonAverages(
    avgMoisture: real,
    avgTemperature: real,
    avgHumidity: real,
    avgLight: real,
    rainfallTotal: real)

  /** One sweep entry: a growing-day count and the yield predicted for it. */
  type Prediction = (int, real)

  const SweepSpan: int := 30
  const SeasonEnd: int := 120
  const SweepStep: nat := 5

  /** Python's `range(start, stop, 5)`. */
  function Range(start: int, stop: int): seq<int>
    decreases stop - start
  {
    if start >= stop then [] else [start] + Range(start + SweepStep, stop)
  }

  /** A range is empty exactly when it starts at or past its stop; its i-th
      element is start + 5 * i and lies below stop; one more step would reach
      or pass stop. */
  lemma {:induction false} RangeShape(start: int, stop: int)
    ensures |Range(start, stop)| == 0 <==> start >= stop
    ensures forall i :: 0 <= i < |Range(start, stop)| ==>
              Range(start, stop)[i] == start + SweepStep * i < stop
    ensures start + SweepStep * |Range(start, stop)| >= stop
    decreases stop - start
  {
    if start < stop {
      var r := Range(start, stop);
      var rest := Range(start + SweepStep, stop);
      RangeShape(start + SweepStep, stop);
      assert r == [start] + rest;
      forall i | 0 <= i < |r|
        ensures r[i] == start + SweepStep * i < stop
      {
        if i > 0 {
          assert r[i] == rest[i - 1];
        }
      }
    }
  }

  /** `min(current + 30, 120)`: the end of the sweep. */
  function SweepStop(current: int): int {
    if current + SweepSpan <= SeasonEnd then current + SweepSpan else SeasonEnd
  }

  /** The growing-day counts the forecaster tries. */
  function CandidateDays(current: int): seq<int> {
    Range(current, SweepStop(current))
  }

  /** The candidates exist exactly while the season is not over; there are at
      most six; they start at the current day, step by five and stay below
      min(current + 30, 120). */
  lemma CandidateDaysShape(current: int)
    ensures |CandidateDays(current)| > 0 <==> current < SeasonEnd
    ensures |CandidateDays(current)| <= 6
    ensures forall i :: 0 <= i < |CandidateDays(current)| ==>
              CandidateDays(current)[i] == current + 5 * i < SweepStop(current)
  {
    RangeShape(current, SweepStop(current));
    var days := CandidateDays(current);
    if |days| > 0 {
      assert days[|days| - 1] == current + 5 * (|days| - 1) < current + SweepSpan;
    }
  }

  /** The predictions the sweep collects: each candidate day with its yield. */
  function Predictions(season: SeasonAverages, current: int, regressor: (SeasonAverages, int) -> real): (ps: seq<Prediction>)
    ensures |ps| == |CandidateDays(current)|
    ensures forall i :: 0 <= i < |ps| ==>
              ps[i].0 == CandidateDays(current)[i] && ps[i].1 == regressor(season, ps[i].0)
  {
    var days := CandidateDays(current);
    seq(|days|, i requires 0 <= i < |days| => (days[i], regressor(season, days[i])))
  }

  /** The sweep loop: predicts the yield at every candidate day, in order. */
  method Sweep(season: SeasonAverages, current: int, regressor: (SeasonAverages, int) -> real)
    returns (predictions: seq<Prediction>)
    ensures predictions == Predictions(season, current, regressor)
  {
    var days := CandidateDays(current);
    predictions := [];
    for k := 0 to |days|
      invariant |predictions| == k
      invariant forall i :: 0 <= i < k ==> predictions[i] == (days[i], regressor(season, days[i]))
    {
      predictions := predictions + [(days[k], regressor(season, days[k]))];
    }
  }

  /** `max(predictions, key=yield)`: the index of the first entry with the
      largest yield, as Python's `max` keeps the first of equal maxima. */
  function BestIndex(predictions: seq<Prediction>): (k: nat)
    requires |predictions| > 0
    ensures k < |predictions|
    ensures forall j :: 0 <= j < |predictions| ==> predictions[j].1 <= predictions[k].1
    ensures forall j :: 0 <= j < k ==> predictions[j].1 < predictions[k].1
    decreases |predictions|
  {
    if |predictions| == 1 then 0
    else
      var k := BestIndex(predictions[..|predictions| - 1]);
      if predictions[|predictions| - 1].1 > predictions[k].1 then |predictions| - 1 else k
  }

  /** What `predict` reports (the harvest date is today plus daysToHarvest; the
      random confidence value is not modelled). */
  datatype YieldForecast = YieldForecast(
    predictedYield: real,
    optimalDays: int,
    daysToHarvest: int,
    currentYieldEstimate: real)

  /** `max` of an empty sweep raises an error: that is the only failure. */
  datatype ForecastResult = Forecast(forecast: YieldForecast) | EmptySweep

  /** Picks the best entry of a sweep and derives the forecast from it. */
  function Summarize(current: int, predictions: seq<Prediction>): ForecastResult {
    if |predictions| == 0 then EmptySweep
    else
      var k := BestIndex(predictions);
      Forecast(YieldForecast(predictions[k].1, predictions[k].0, predictions[k].0 - current, predictions[0].1))
  }

  /** The forecast for given season averages and current growing days. */
  function ForecastFor(season: SeasonAverages, current: int, regressor: (SeasonAverages, int) -> real): ForecastResult {
    Summarize(current, Predictions(season, current, regressor))
  }

  /** A forecast exists exactly while the season is not over. The chosen day
      is a candidate whose predicted yield is maximal, and the earliest such
      candidate; the days to harvest are a multiple of five from 0 to 25; the
      current estimate is the prediction at the current day, and the
      forecast yield is never below it. */
  lemma {:induction false} ForecastIsEarliestBest(season: SeasonAverages, current: int, regressor: (SeasonAverages, int) -> real)
    ensures ForecastFor(season, current, regressor).Forecast? <==> current < SeasonEnd
    ensures ForecastFor(season, current, regressor).Forecast? ==>
              var f := ForecastFor(season, current, regressor).forecast;
              && f.optimalDays in CandidateDays(current)
              && f.predictedYield == regressor(season, f.optimalDays)
              && (forall d :: d in CandidateDays(current) ==> regressor(season, d) <= f.predictedYield)
              && (forall d :: d in CandidateDays(current) && d < f.optimalDays ==> regressor(season, d) < f.predictedYield)
              && f.daysToHarvest == f.optimalDays - current
              && 0 <= f.daysToHarvest <= 25 && f.daysToHarvest % 5 == 0
              && f.currentYieldEstimate == regressor(season, current)
              && f.currentYieldEstimate <= f.predictedYield
  {
    CandidateDaysShape(current);
    var days := CandidateDays(current);
    var ps := Predictions(season, current, regressor);
    if current < SeasonEnd {
      var k := BestIndex(ps);
      var f := ForecastFor(season, current, regressor).forecast;
      assert f.optimalDays == days[k] == current + 5 * k;
      assert k < 6;
      forall d | d in days
        ensures regressor(season, d) <= f.predictedYield
        ensures d < f.optimalDays ==> regressor(season, d) < f.predictedYield
      {
        var j :| 0 <= j < |days| && days[j] == d;
        assert ps[j].1 == regressor(season, d);
        if d < f.optimalDays {
          assert j < k;
        }
      }
    }
  }

  /** The yield forecaster with its lazily set training flag. */
  class YieldPredictionModel {
    /** What the fitted scaler and random forest regressor compute from the
        season averages and a growing-day count. */
    const regressor: (SeasonAverages, int) -> real
    var isTrained: bool

    constructor (regressor: (SeasonAverages, int) -> real)
      ensures this.regressor == regressor
      ensures !isTrained
    {
      this.regressor := regressor;
      isTrained := false;
    }

    /** Fits the model; afterwards it is trained for good. */
    method Train()
      modifies this
      ensures isTrained
    {
      isTrained := true;
    }

    /** Trains on first use, sweeps the candidate days and picks the best. */
    method Predict(season: SeasonAverages, currentGrowingDays: int) returns (r: ForecastResult)
      modifies this
      ensures isTrained
      ensures r == ForecastFor(season, currentGrowingDays, regressor)
    {
      if !isTrained {
        Train();
      }
      var predictions := Sweep(season, currentGrowingDays, regressor);
      r := Summarize(currentGrowingDays, predictions);
    }
  }
}
