# Smart agriculture decision core, in Dafny

This project models the rule-based core of the smart agriculture system in
`smart_agriculture_ai_models.py`. That core is what turns one set of sensor
readings into an irrigation volume, a crop health report, a harvest forecast, a
list of anomalies and a prioritised list of recommendations. The
scikit-learn estimators (Ridge, random forest classifier and regressor, and
their feature scalers) are foreign library code. Each model class receives the
function its fitted estimator computes as a constructor argument. Sensor values
are Dafny `real`s.

One module per analysis, one file per module, plus one shared module:

- `irrigation.dfy`, module `IrrigationPrediction`:
  - clips the regression output to 0–100 L/m²;
  - maps the volume to one of three urgency tiers, each with its own advice text;
  - holds the model class with its lazily set training flag.
- `crop_health.dfy`, module `CropHealthClassification`:
  - the additive stress score (0–10) that labels the training samples as High Stress, Moderate Stress or Healthy;
  - the class-name lookup;
  - the rule-based advice list, never empty, which ends in a fallback entry when no rule fires;
  - the classifier class.
- `yield_prediction.dfy`, module `YieldPrediction`:
  - the sweep over the growing-day counts `range(current, min(current + 30, 120), 5)`;
  - the choice of the first day with the highest predicted yield, as Python's `max` makes it;
  - the days to harvest and the current estimate;
  - the forecaster class.
- `anomaly_detection.dfy`, module `AnomalyDetection`:
  - the detector is a class whose only state is a four-channel history, each channel capped at the last 100 readings;
  - `AddReading` appends to every channel and then trims each one in a loop;
  - `DetectAnomalies` records the reading and applies the rules in their fixed order: the sudden moisture drop, the five fixed thresholds, then the three-standard-deviation rule once ten readings exist;
  - all reasoning is against pure specification functions (`Advance`, `Detected`).
- `rule_lists.dfy`, module `RuleLists`: lists built rule by rule. Each rule adds its entry when its condition holds, and a list built in rule order stays ordered by rule rank. The advice, threshold and cascade lists all use it.
- `recommendations.dfy`, module `Recommendations`:
  - the four-stage recommendation cascade: the CRITICAL anomalies, critical irrigation, the advice of a high-stress report, and a harvest within seven days;
  - the cascade is built by appending, with no sorting;
  - lemmas prove that the output nevertheless comes out in priority order, and that it holds at most one CRITICAL entry when fed the detector's own output.

## Model

| member | source | states |
|---|---|---|
| IrrigationPrediction.Clip | smart_agriculture_ai_models.py:93 | The volume lies in [0, 100]. It equals the raw estimate inside that range, 0 below it and 100 above it. |
| IrrigationPrediction.ClipIsNearest | smart_agriculture_ai_models.py:93 | The clipped volume is the point of [0, 100] nearest to the raw estimate. |
| IrrigationPrediction.ClipIdempotent | smart_agriculture_ai_models.py:93 | Clipping twice is clipping once. |
| IrrigationPrediction.UrgencyFor | smart_agriculture_ai_models.py:96-104 | Critical iff the volume is above 70; moderate iff it is in (40, 70]; low iff it is at most 40. |
| IrrigationPrediction.UrgencyMonotone | smart_agriculture_ai_models.py:96-104 | A larger volume never gets a less urgent tier. |
| IrrigationPrediction.Advice | smart_agriculture_ai_models.py:96-104 | The advice text of each urgency tier. |
| IrrigationPrediction.AdviceIdentifiesUrgency | smart_agriculture_ai_models.py:96-104 | Each tier has its own advice text: equal texts mean equal tiers. |
| IrrigationPrediction.Assess | smart_agriculture_ai_models.py:93-104 | The volume lies in [0, 100] and keeps in-range estimates. The tier can be read off the raw estimate (clipping never crosses 40 or 70). The advice is that tier's text. |
| IrrigationPrediction.IrrigationPredictionModel.constructor | smart_agriculture_ai_models.py:29-32 | A new model is untrained. |
| IrrigationPrediction.IrrigationPredictionModel.Train | smart_agriculture_ai_models.py:78 | After training the model is trained. |
| IrrigationPrediction.IrrigationPredictionModel.Predict | smart_agriculture_ai_models.py:83-104 | Trains if needed. The result is the assessment of the regression output for the readings (the rainfall defaults to 0). |
| CropHealthClassification.HealthStatus.Name | smart_agriculture_ai_models.py:126 | A status's name is its entry in the class-name table. |
| CropHealthClassification.StatusOfLabel | smart_agriculture_ai_models.py:214 | The status has the given label, so its name is the class-name table's entry for that label. |
| CropHealthClassification.MoisturePoints | smart_agriculture_ai_models.py:144-150 | Moisture points: 3 below 30, 2 below 35, 1 above 60, else 0. |
| CropHealthClassification.TemperaturePoints | smart_agriculture_ai_models.py:152-158 | Temperature points: 3 above 35, 2 above 30, 2 below 18, else 0. |
| CropHealthClassification.HumidityPoints | smart_agriculture_ai_models.py:160-164 | Humidity points: 2 below 35 or above 85, else 0. |
| CropHealthClassification.LightPoints | smart_agriculture_ai_models.py:166-168 | Light points: 2 below 200, else 0. |
| CropHealthClassification.StressScore | smart_agriculture_ai_models.py:142-168 | The score lies in 0..10. |
| CropHealthClassification.LabelOfScore | smart_agriculture_ai_models.py:170-176 | Label 0 iff score ≥ 6, label 1 iff 3 ≤ score < 6, label 2 iff score < 3. |
| CropHealthClassification.TrainingLabel | smart_agriculture_ai_models.py:142-176 | The training label of a reading is the label of its stress score. |
| CropHealthClassification.LabelAntitone | smart_agriculture_ai_models.py:170-176 | A higher score never gives a healthier label. |
| CropHealthClassification.HighStressNeedsSeveralFactors | smart_agriculture_ai_models.py:142-176 | A High Stress label needs three contributing factors, or both moisture < 30 and temperature > 35. |
| CropHealthClassification.HealthyExcludesSevereConditions | smart_agriculture_ai_models.py:142-176 | A Healthy label implies moisture ≥ 30 and temperature ≤ 35. |
| CropHealthClassification.HealthAdvice.Text | smart_agriculture_ai_models.py:219-229 | The text of each piece of advice. |
| CropHealthClassification.TriggeredAdvice | smart_agriculture_ai_models.py:219-226 | The advice of the four rules that fire, in rule order. |
| CropHealthClassification.AdviceFor | smart_agriculture_ai_models.py:217-229 | The triggered advice, or the fallback alone when none fires. |
| CropHealthClassification.Recommend | smart_agriculture_ai_models.py:217-229 | The sequence of `if`s followed by the fallback produces exactly `AdviceFor`. |
| CropHealthClassification.AdviceMembers | smart_agriculture_ai_models.py:217-229 | Each advice is given iff its own condition holds, whatever the other conditions are. The fallback is given iff none of moisture < 35, temperature > 30, humidity < 40, light < 300 holds. |
| CropHealthClassification.AdviceSize | smart_agriculture_ai_models.py:217-229 | The advice is never empty and holds at most 4 entries. With no rule firing it is the fallback alone. |
| CropHealthClassification.AdviceInRankOrder | smart_agriculture_ai_models.py:217-229 | The advice comes strictly in rule order: irrigation, shade, misting, light. |
| CropHealthClassification.CropHealthClassificationModel.constructor | smart_agriculture_ai_models.py:122-125 | A new classifier is untrained. |
| CropHealthClassification.CropHealthClassificationModel.Train | smart_agriculture_ai_models.py:196 | After training the classifier is trained. |
| CropHealthClassification.CropHealthClassificationModel.Predict | smart_agriculture_ai_models.py:201-240 | Trains if needed. The status is the class name of the classifier's label; the confidence is that label's probability. The advice is `AdviceFor` the readings, independent of the label. |
| YieldPrediction.Range | smart_agriculture_ai_models.py:322 | Python's `range(start, stop, 5)`. |
| YieldPrediction.CandidateDays | smart_agriculture_ai_models.py:322 | The growing-day counts the sweep looks at: `range(current, min(current + 30, 120), 5)`. |
| YieldPrediction.RangeShape | smart_agriculture_ai_models.py:322 | `range(start, stop, 5)` is empty iff start ≥ stop. Its i-th element is start + 5i < stop, and one more step reaches stop. |
| YieldPrediction.CandidateDaysShape | smart_agriculture_ai_models.py:322 | The candidate days are non-empty iff current < 120. There are at most six; they start at current, step by 5 and stay below min(current + 30, 120). |
| YieldPrediction.Predictions | smart_agriculture_ai_models.py:321-327 | Each candidate day is paired with its predicted yield, in order. |
| YieldPrediction.Sweep | smart_agriculture_ai_models.py:321-327 | The loop collects exactly those pairs. |
| YieldPrediction.BestIndex | smart_agriculture_ai_models.py:330 | The index of a maximal yield, before which every yield is strictly smaller (the first maximum, as `max` keeps). |
| YieldPrediction.Summarize | smart_agriculture_ai_models.py:330-339 | The forecast of a sweep: the first day of maximal yield, its yield, the days to harvest and the first prediction; the empty sweep fails. |
| YieldPrediction.ForecastFor | smart_agriculture_ai_models.py:320-339 | The forecast of the sweep of the candidate days. |
| YieldPrediction.ForecastIsEarliestBest | smart_agriculture_ai_models.py:322-339 | A forecast exists iff current < 120. The optimal day is the earliest candidate of maximal yield. Days to harvest is optimal − current, a multiple of 5 in [0, 25]. The current estimate is the prediction at the current day and never exceeds the forecast yield. |
| YieldPrediction.YieldPredictionModel.constructor | smart_agriculture_ai_models.py:248-251 | A new forecaster is untrained. |
| YieldPrediction.YieldPredictionModel.Train | smart_agriculture_ai_models.py:309 | After training the forecaster is trained. |
| YieldPrediction.YieldPredictionModel.Predict | smart_agriculture_ai_models.py:314-339 | Trains if needed; the result is the forecast of the sweep (the empty sweep's failure included). |
| AnomalyDetection.Window | smart_agriculture_ai_models.py:374-376 | A channel's last 100 entries once it has grown past the cap. |
| AnomalyDetection.Advance | smart_agriculture_ai_models.py:366-376 | One reading keeps the history well formed: equal channel lengths, at most 100. |
| AnomalyDetection.AdvanceChannel | smart_agriculture_ai_models.py:366-376 | Each channel's new length is min(n + 1, 100). Its contents are the last entries of old ++ [new]; it ends with the new value, just after the previous newest one. |
| AnomalyDetection.AdvanceAllKeepsLastReadings | smart_agriculture_ai_models.py:366-376 | After any run of readings, each channel is the last ≤ 100 values of its old contents followed by the new readings. |
| AnomalyDetection.Anomaly.Type | smart_agriculture_ai_models.py:385-463 | The type text of each anomaly. |
| AnomalyDetection.Anomaly.Severity | smart_agriculture_ai_models.py:385-463 | The severity of each anomaly: CRITICAL for a sudden loss; WARNING for heat, frost and high humidity; INFO otherwise. |
| AnomalyDetection.Anomaly.Action | smart_agriculture_ai_models.py:385-463 | The fixed action text of each anomaly. |
| AnomalyDetection.SuddenLossRule | smart_agriculture_ai_models.py:385-396 | Rule 1: the sudden moisture loss on the updated history. |
| AnomalyDetection.SuddenLossIff | smart_agriculture_ai_models.py:385-396 | The sudden-loss rule fires iff a reading came before and the moisture fell by more than 15 since it; it quotes that previous value. |
| AnomalyDetection.ThresholdRules | smart_agriculture_ai_models.py:398-444 | The five threshold rules on the newest reading, in order. |
| AnomalyDetection.ThresholdRulesMembers | smart_agriculture_ai_models.py:398-444 | Each threshold anomaly is reported iff its own condition holds, independently of the others, and nothing else is reported. |
| AnomalyDetection.ThresholdRulesInOrder | smart_agriculture_ai_models.py:398-444 | Threshold anomalies come in the fixed order heat, frost, high humidity, low humidity, low light. |
| AnomalyDetection.ThresholdRulesExclusive | smart_agriculture_ai_models.py:398-444 | Heat and frost never fire together, nor do the two humidity alerts; at most three fire, none of them CRITICAL. |
| AnomalyDetection.ThresholdChecks | smart_agriculture_ai_models.py:398-444 | The sequence of `if`s reports exactly the threshold rules' anomalies. |
| AnomalyDetection.Mean | smart_agriculture_ai_models.py:450 | `np.mean`: the sum over the count. |
| AnomalyDetection.Variance | smart_agriculture_ai_models.py:451 | The square of `np.std`: the mean squared deviation from the mean, never negative. |
| AnomalyDetection.IsOutlier | smart_agriculture_ai_models.py:453-455 | The newest value lies beyond three standard deviations of the earlier values, which have positive spread. |
| AnomalyDetection.StatisticalRule | smart_agriculture_ai_models.py:449-463 | Rule 5 for one channel: an INFO anomaly quoting the newest value when it is an outlier. |
| AnomalyDetection.ZScoreWithoutRoot | smart_agriculture_ai_models.py:453-455 | For std > 0 with std² = variance, abs(deviation / std) > 3 iff `BeyondThreeSigma`: variance > 0 and deviation² > 9 · variance. |
| AnomalyDetection.StatisticalRulesOver | smart_agriculture_ai_models.py:448-463 | No more anomalies than channels looked at. Each is statistical, of severity INFO, for one of those channels, and quotes that channel's newest value. |
| AnomalyDetection.StatisticalRules | smart_agriculture_ai_models.py:447-463 | Nothing below ten readings; at most three anomalies; never for light; always INFO. |
| AnomalyDetection.StatisticalRulesUnfold | smart_agriculture_ai_models.py:447-463 | From ten readings on, rule 5 is the per-channel rule for moisture, then temperature, then humidity. |
| AnomalyDetection.StatisticalRuleMembers | smart_agriculture_ai_models.py:453-463 | For one channel, the anomaly quoting the newest value is reported iff that value is an outlier, and nothing else is. |
| AnomalyDetection.StatisticalRulesCases | smart_agriculture_ai_models.py:447-463 | From ten readings on, rule 5 reports moisture, temperature or humidity, quoting its newest value, iff that value is an outlier. |
| AnomalyDetection.StatisticalRulesMembers | smart_agriculture_ai_models.py:447-463 | From ten readings on, an anomaly is reported iff it is statistical, for moisture, temperature or humidity, quotes that channel's newest value, and the value is an outlier. |
| AnomalyDetection.StatisticalRulesInChannelOrder | smart_agriculture_ai_models.py:448 | The anomalies of rule 5 come strictly in channel order (moisture, temperature, humidity), so there is at most one per channel. |
| AnomalyDetection.ConstantChannelSkipped | smart_agriculture_ai_models.py:453 | A channel whose earlier values have no spread is skipped. |
| AnomalyDetection.ChannelOutlier | smart_agriculture_ai_models.py:449-463 | For one channel: mean and variance of the earlier values, then the spread and z-score tests. Together they report exactly the statistical rule for that channel. |
| AnomalyDetection.StatisticalScan | smart_agriculture_ai_models.py:448-463 | The loop over moisture, temperature and humidity reports exactly `StatisticalRules`. |
| AnomalyDetection.Detected | smart_agriculture_ai_models.py:378-465 | The anomalies of a reading on the updated history: rule 1, then the thresholds, then rule 5. |
| AnomalyDetection.CriticalOnlyForSuddenLoss | smart_agriculture_ai_models.py:385-463 | An anomaly is CRITICAL iff it is a sudden moisture loss, and only the first anomaly can be CRITICAL. |
| AnomalyDetection.AnomalyDetectionModel.constructor | smart_agriculture_ai_models.py:350-356 | A new detector has four empty channels. |
| AnomalyDetection.AnomalyDetectionModel.AddReading | smart_agriculture_ai_models.py:366-376 | The history becomes `Advance(old history, reading)` and stays well formed. |
| AnomalyDetection.AnomalyDetectionModel.DetectAnomalies | smart_agriculture_ai_models.py:378-465 | Records the reading first. The result is `Detected` on the updated history: sudden loss, then thresholds, then the statistical rule. |
| Recommendations.Recommendation.Priority | smart_agriculture_ai_models.py:560-598 | CRITICAL for anomaly entries, HIGH for irrigation and crop health, MEDIUM for harvest. |
| Recommendations.Recommendation.Category | smart_agriculture_ai_models.py:560-598 | The category text of each entry. |
| Recommendations.Recommendation.Message | smart_agriculture_ai_models.py:560-598 | The message where it is not formatted from numbers: the irrigation advice, and 'Crops under high stress' for crop health. |
| Recommendations.Recommendation.Action | smart_agriculture_ai_models.py:560-598 | The action where it is not formatted from numbers: the anomaly's action, the advice text, and 'Prepare for harvest operations'. |
| Recommendations.CriticalAnomalies | smart_agriculture_ai_models.py:561-562 | It keeps exactly the CRITICAL anomalies and never grows the list. |
| Recommendations.CriticalAnomaliesAppend | smart_agriculture_ai_models.py:561-562 | Filtering distributes over concatenation, so the kept anomalies stay in their order. |
| Recommendations.NoCriticalAnomalies | smart_agriculture_ai_models.py:561-562 | Without CRITICAL anomalies the filter keeps nothing. |
| Recommendations.AnomalyStage | smart_agriculture_ai_models.py:560-570 | One CRITICAL entry per CRITICAL anomaly. |
| Recommendations.IrrigationStage | smart_agriculture_ai_models.py:572-579 | One HIGH entry when the irrigation urgency is critical. |
| Recommendations.CropHealthStage | smart_agriculture_ai_models.py:581-589 | One HIGH entry per advice of a high-stress report. |
| Recommendations.HarvestStage | smart_agriculture_ai_models.py:591-598 | One MEDIUM entry when harvest is at most 7 days away. |
| Recommendations.Cascade | smart_agriculture_ai_models.py:556-600 | The four stages, in stage order. |
| Recommendations.GenerateRecommendations | smart_agriculture_ai_models.py:556-600 | The appending loops produce exactly `Cascade`, the four stages in stage order. |
| Recommendations.CascadeInPriorityOrder | smart_agriculture_ai_models.py:556-600 | With no sorting, the output is still ordered CRITICAL, then HIGH, then MEDIUM. |
| Recommendations.CascadeLength | smart_agriculture_ai_models.py:556-600 | The length is the CRITICAL anomaly count, plus 1 for critical irrigation, plus the advice count of a high-stress report, plus 1 for a harvest within 7 days. |
| Recommendations.StagePriorities | smart_agriculture_ai_models.py:556-600 | Each stage has a single priority: anomalies CRITICAL, irrigation HIGH, crop health HIGH, harvest MEDIUM. |
| Recommendations.CascadeOpensWithCriticalAnomalies | smart_agriculture_ai_models.py:560-570 | The output opens with one entry per CRITICAL anomaly, in anomaly order. |
| Recommendations.CascadeCriticalFirst | smart_agriculture_ai_models.py:560-570 | An entry is CRITICAL iff it lies in that opening run of anomaly entries. |
| Recommendations.CascadeIrrigation | smart_agriculture_ai_models.py:572-579 | The irrigation entry appears iff the urgency is critical, and it carries that assessment's advice and volume. |
| Recommendations.CascadeCropHealth | smart_agriculture_ai_models.py:581-589 | A health entry for an advice appears iff the status is High Stress and the report holds that advice. |
| Recommendations.CascadeHarvest | smart_agriculture_ai_models.py:591-598 | The harvest entry appears iff harvest is at most 7 days away, and it is always last. |
| Recommendations.CriticalAnomaliesAtMostFirst | smart_agriculture_ai_models.py:561-562 | When only the first anomaly can be CRITICAL, the filter keeps at most that one. |
| Recommendations.AtMostOneCriticalRecommendation | smart_agriculture_ai_models.py:560-570 | Fed with the detector's anomalies for a reading, only the first entry can be CRITICAL, and it is a sudden moisture loss. |

## Left out

- Fitting and prediction by Ridge, the random forests and StandardScaler: foreign library code. Each model receives the function its fitted estimator computes. Fitting is seeded, so that function is fixed.
- The custom `data` argument of each `train` method is not modelled: a model trains on its own synthetic data.
- Generation of the synthetic training data is left out: random sampling and noise. Only its labelling rule, the stress score, is modelled.
- The random `confidence` fields of the irrigation and yield results are left out: random numbers.
- Rounding of reported numbers with `round(..., 2)` is left out: floating-point formatting.
- Message and action texts built with f-strings, and the timestamps, are left out: string formatting and the clock. The fixed texts are modelled (`Anomaly.Action`, `Recommendation.Message`, `Recommendation.Action`). Each anomaly keeps the readings its message quotes, and each recommendation the values its texts quote.
- The z-score that a statistical anomaly's message quotes is not kept. The model compares without a square root (see ZScoreWithoutRoot), so it never computes the z-score itself.
- The harvest date (today plus the days to harvest) is left out: it needs the clock.
- Console output of the training methods and the demonstration script are left out.
- AnomalyDetection.StatisticalScan: the z-score test uses exact reals in the square-root-free form deviation² > 9 · variance with variance > 0 (see ZScoreWithoutRoot). It does not reproduce the floating-point rounding of `np.mean`, `np.std` and the division.
- The plumbing of `SmartAgricultureSystem.analyze` is left out: the defaults taken with `.get` and the assembly of the result dictionary. The cascade receives the four results as an `Analysis` record.
- A crashing predictor inside `analyze` is not modelled: the cascade receives a yield forecast, and an empty sweep makes the source's `analyze` fail before the cascade runs.
- `backend_server.py` is not part of this model: HTTP routing and a global mutable dictionary.
- YieldPrediction.YieldPredictionModel.Predict: a current growing-day count of 120 or more is modelled as the `EmptySweep` failure, because `max` of the empty sweep raises in the code. The fallback to a single prediction that a reimplementation might choose is not in the code.
- The forecast yield is not bounded to [2000, 8000]. The code does not clip the regressor's output, so the model leaves it unconstrained.
