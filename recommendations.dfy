/** The recommendation cascade of the whole system: the four analyses of one
    reading (irrigation, crop health, yield and anomalies) turned into one
    list of prioritised recommendations, stage by stage, with no sorting. */
module Recommendations {
  import IP = IrrigationPrediction
  import CH = CropHealthClassification
  import YP = YieldPrediction
  import AD = AnomalyDetection
  import RL = RuleLists

  /** Priorities, from most to least pressing. */
  datatype Priority = Critical | High | Medium {
    function Name(): string {
      match this
      case Critical => "CRITICAL"
      case High => "HIGH"
      case Medium => "MEDIUM"
    }

    function Rank(): nat {
      match this
      case Critical => 0
      case High => 1
      case Medium => 2
    }
  }

  datatype Option<T> = None | Some(value: T)

  /** One recommendation with what it quotes. The message and action strings
      formatted from numbers are not modelled; the values they quote are. */
  datatype Recommendation =
    | AnomalyAlert(anomaly: AD.Anomaly)
    | IrrigationAlert(advice: string, liters: real)
    | CropHealthAlert(action: CH.HealthAdvice)
    | HarvestAlert(daysToHarvest: int)
  {
    function Priority(): Priority {
      match this
      case AnomalyAlert(_) => Critical
      case IrrigationAlert(_, _) => High
      case CropHealthAlert(_) => High
      case HarvestAlert(_) => Medium
    }

    function Category(): string {
      match this
      case AnomalyAlert(_) => "Anomaly"
      case IrrigationAlert(_, _) => "Irrigation"
      case CropHealthAlert(_) => "Crop Health"
      case HarvestAlert(_) => "Harvest Planning"
    }

    /** The message when it is a fixed or passed-on text; None when it is
        formatted from numbers (the anomaly's message, the days to harvest). */
    function Message(): Option<string> {
      match this
      case AnomalyAlert(_) => None
      case IrrigationAlert(advice, _) => Some(advice)
      case CropHealthAlert(_) => Some("Crops under high stress")
      case HarvestAlert(_) => None
    }

    /** The action when it is a fixed or passed-on text; None when it is
        formatted from numbers (the irrigation volume). */
    function Action(): Option<string> {
      match this
      case AnomalyAlert(anomaly) => Some(anomaly.Action())
      case IrrigationAlert(_, _) => None
      case CropHealthAlert(action) => Some(action.Text())
      case HarvestAlert(_) => Some("Prepare for harvest operations")
    }
  }

  /** The rank of a recommendation's priority. */
  function PriorityRank(r: Recommendation): nat {
    r.Priority().Rank()
  }

  /** The results of one analysis that the cascade reads. */
  datatype Analysis = Analysis(
    irrigation: IP.IrrigationAssessment,
    cropHealth: CH.HealthReport,
    yieldForecast: YP.YieldForecast,
    anomalies: seq<AD.Anomaly>)

  const HarvestSoonDays: int := 7

  /** The CRITICAL anomalies, in the order they were reported. */
  function CriticalAnomalies(anomalies: seq<AD.Anomaly>): (cs: seq<AD.Anomaly>)
    ensures |cs| <= |anomalies|
    ensures forall x :: x in cs <==> x in anomalies && x.Severity().Critical?
  {
    if anomalies == [] then []
    else
      var rest := CriticalAnomalies(anomalies[1..]);
      assert forall x :: x in anomalies <==> x == anomalies[0] || x in anomalies[1..];
      if anomalies[0].Severity().Critical? then [anomalies[0]] + rest else rest
  }

  /** Filtering distributes over concatenation: the filter keeps the order of
      the anomalies it keeps. */
  lemma {:induction false} CriticalAnomaliesAppend(a: seq<AD.Anomaly>, b: seq<AD.Anomaly>)
    ensures CriticalAnomalies(a + b) == CriticalAnomalies(a) + CriticalAnomalies(b)
  {
    if a == [] {
      assert a + b == b;
    } else {
      assert (a + b)[0] == a[0];
      assert (a + b)[1..] == a[1..] + b;
      CriticalAnomaliesAppend(a[1..], b);
    }
  }

  /** Without CRITICAL anomalies the filter keeps nothing. */
  lemma {:induction false} NoCriticalAnomalies(anomalies: seq<AD.Anomaly>)
    requires forall x :: x in anomalies ==> !x.Severity().Critical?
    ensures CriticalAnomalies(anomalies) == []
  {
    if anomalies != [] {
      assert anomalies[0] in anomalies;
      NoCriticalAnomalies(anomalies[1..]);
    }
  }

  /** Stage 1: one CRITICAL entry per CRITICAL anomaly. */
  function AnomalyStage(anomalies: seq<AD.Anomaly>): seq<Recommendation> {
    var cs := CriticalAnomalies(anomalies);
    seq(|cs|, i requires 0 <= i < |cs| => AnomalyAlert(cs[i]))
  }

  /** Stage 2: one HIGH irrigation entry when the urgency is critical. */
  function IrrigationStage(irrigation: IP.IrrigationAssessment): seq<Recommendation> {
    if irrigation.urgency.Critical? then [IrrigationAlert(irrigation.advice, irrigation.liters)] else []
  }

  /** Stage 3: one HIGH entry per piece of health advice when the crop is under
      high stress. */
  function CropHealthStage(report: CH.HealthReport): seq<Recommendation> {
    if report.status.HighStress?
    then seq(|report.advice|, i requires 0 <= i < |report.advice| => CropHealthAlert(report.advice[i]))
    else []
  }

  /** Stage 4: one MEDIUM entry when harvest is at most seven days away. */
  function HarvestStage(forecast: YP.YieldForecast): seq<Recommendation> {
    if forecast.daysToHarvest <= HarvestSoonDays then [HarvestAlert(forecast.daysToHarvest)] else []
  }

  /** The recommendations of an analysis: the four stages, in stage order. */
  function Cascade(analysis: Analysis): seq<Recommendation> {
    AnomalyStage(analysis.anomalies)
    + IrrigationStage(analysis.irrigation)
    + CropHealthStage(analysis.cropHealth)
    + HarvestStage(analysis.yieldForecast)
  }

  /** `_generate_recommendations`: filters the critical anomalies, then appends
      the entries of each stage in turn. */
  method GenerateRecommendations(analysis: Analysis) returns (recommendations: seq<Recommendation>)
    ensures recommendations == Cascade(analysis)
  {
    recommendations := [];
    var critical := CriticalAnomalies(analysis.anomalies);
    for i := 0 to |critical|
      invariant |recommendations| == i
      invariant forall j :: 0 <= j < i ==> recommendations[j] == AnomalyAlert(critical[j])
    {
      recommendations := recommendations + [AnomalyAlert(critical[i])];
    }
    ghost var stages := AnomalyStage(analysis.anomalies);
    assert recommendations == stages;

    if analysis.irrigation.urgency.Critical? {
      recommendations := recommendations + [IrrigationAlert(analysis.irrigation.advice, analysis.irrigation.liters)];
    }
    stages := stages + IrrigationStage(analysis.irrigation);
    assert recommendations == stages;

    var health := analysis.cropHealth;
    if health.status.HighStress? {
      ghost var before := recommendations;
      for i := 0 to |health.advice|
        invariant |recommendations| == |before| + i
        invariant recommendations[..|before|] == before
        invariant forall j :: 0 <= j < i ==> recommendations[|before| + j] == CropHealthAlert(health.advice[j])
      {
        recommendations := recommendations + [CropHealthAlert(health.advice[i])];
      }
      assert recommendations == before + CropHealthStage(health);
    }
    stages := stages + CropHealthStage(health);
    assert recommendations == stages;

    if analysis.yieldForecast.daysToHarvest <= HarvestSoonDays {
      recommendations := recommendations + [HarvestAlert(analysis.yieldForecast.daysToHarvest)];
    }
  }

  /** Recommendations in order of priority: CRITICAL before HIGH before MEDIUM. */
  ghost predicate InPriorityOrder(recs: seq<Recommendation>) {
    RL.Ordered(recs, PriorityRank, false)
  }

  /** Every recommendation of `recs` has a priority ranked between lo and hi. */
  ghost predicate PrioritiesWithin(recs: seq<Recommendation>, lo: nat, hi: nat) {
    RL.RanksWithin(recs, PriorityRank, lo, hi)
  }

  /** The cascade never sorts, yet its output always comes in priority order,
      because each stage has a single priority and the stages run from the
      most to the least pressing. */
  lemma CascadeInPriorityOrder(analysis: Analysis)
    ensures InPriorityOrder(Cascade(analysis))
  {
    var s1 := AnomalyStage(analysis.anomalies);
    var s2 := IrrigationStage(analysis.irrigation);
    var s3 := CropHealthStage(analysis.cropHealth);
    var s4 := HarvestStage(analysis.yieldForecast);
    StagePriorities(analysis);
    RL.AppendOrdered(s1, s2, PriorityRank, false, 0, 0, 1);
    RL.AppendOrdered(s1 + s2, s3, PriorityRank, false, 0, 1, 1);
    RL.AppendOrdered(s1 + s2 + s3, s4, PriorityRank, false, 0, 1, 2);
  }

  /** Each stage has a single priority: CRITICAL, HIGH, HIGH, MEDIUM. */
  lemma StagePriorities(analysis: Analysis)
    ensures var s1 := AnomalyStage(analysis.anomalies);
            InPriorityOrder(s1) && PrioritiesWithin(s1, 0, 0)
    ensures var s2 := IrrigationStage(analysis.irrigation);
            InPriorityOrder(s2) && PrioritiesWithin(s2, 1, 1)
    ensures var s3 := CropHealthStage(analysis.cropHealth);
            InPriorityOrder(s3) && PrioritiesWithin(s3, 1, 1)
    ensures var s4 := HarvestStage(analysis.yieldForecast);
            InPriorityOrder(s4) && PrioritiesWithin(s4, 2, 2)
  {
    var s1 := AnomalyStage(analysis.anomalies);
    var s3 := CropHealthStage(analysis.cropHealth);
    forall x | x in s1 ensures x.Priority() == Critical {
      var i :| 0 <= i < |s1| && s1[i] == x;
    }
    forall x | x in s3 ensures x.Priority() == High {
      var i :| 0 <= i < |s3| && s3[i] == x;
    }
  }

  /** The length of the cascade is the sum of the stage counts. */
  lemma CascadeLength(analysis: Analysis)
    ensures |Cascade(analysis)| == |CriticalAnomalies(analysis.anomalies)|
                                   + (if analysis.irrigation.urgency.Critical? then 1 else 0)
                                   + (if analysis.cropHealth.status.HighStress? then |analysis.cropHealth.advice| else 0)
                                   + (if analysis.yieldForecast.daysToHarvest <= HarvestSoonDays then 1 else 0)
  {
  }

  /** The cascade opens with one entry per CRITICAL anomaly, in the order the
      anomalies were reported. */
  lemma CascadeOpensWithCriticalAnomalies(analysis: Analysis)
    ensures var critical := CriticalAnomalies(analysis.anomalies);
            && |critical| <= |Cascade(analysis)|
            && forall i :: 0 <= i < |critical| ==> Cascade(analysis)[i] == AnomalyAlert(critical[i])
  {
  }

  /** Nothing after the anomaly entries is CRITICAL: an entry is CRITICAL
      exactly when it comes from a CRITICAL anomaly. */
  lemma CascadeCriticalFirst(analysis: Analysis)
    ensures forall i :: 0 <= i < |Cascade(analysis)| ==>
              (Cascade(analysis)[i].Priority() == Critical <==> i < |CriticalAnomalies(analysis.anomalies)|)
  {
    var s1 := AnomalyStage(analysis.anomalies);
    var s2 := IrrigationStage(analysis.irrigation);
    var s3 := CropHealthStage(analysis.cropHealth);
    var s4 := HarvestStage(analysis.yieldForecast);
    StagePriorities(analysis);
    CriticalExactlyFirst(s1, s2, s3, s4);
  }

  /** CRITICAL entries followed by three lists of less pressing ones: an entry
      is CRITICAL exactly when it lies in the first list. */
  lemma CriticalExactlyFirst(s1: seq<Recommendation>, s2: seq<Recommendation>, s3: seq<Recommendation>, s4: seq<Recommendation>)
    requires PrioritiesWithin(s1, 0, 0)
    requires PrioritiesWithin(s2, 1, 2) && PrioritiesWithin(s3, 1, 2) && PrioritiesWithin(s4, 1, 2)
    ensures forall i :: 0 <= i < |s1 + s2 + s3 + s4| ==> ((s1 + s2 + s3 + s4)[i].Priority() == Critical <==> i < |s1|)
  {
    var all := s1 + s2 + s3 + s4;
    forall i | 0 <= i < |all|
      ensures all[i].Priority() == Critical <==> i < |s1|
    {
      if i < |s1| {
        assert all[i] == s1[i] && s1[i] in s1;
      } else if i < |s1| + |s2| {
        assert all[i] == s2[i - |s1|] && s2[i - |s1|] in s2;
      } else if i < |s1| + |s2| + |s3| {
        assert all[i] == s3[i - |s1| - |s2|] && s3[i - |s1| - |s2|] in s3;
      } else {
        assert all[i] == s4[i - |s1| - |s2| - |s3|] && s4[i - |s1| - |s2| - |s3|] in s4;
      }
    }
  }

  /** An irrigation entry appears exactly when the urgency is critical, and
      then it carries the assessment's advice and volume. */
  lemma CascadeIrrigation(analysis: Analysis)
    ensures IrrigationAlert(analysis.irrigation.advice, analysis.irrigation.liters) in Cascade(analysis)
            <==> analysis.irrigation.urgency.Critical?
    ensures forall x :: x in Cascade(analysis) && x.IrrigationAlert? ==>
              analysis.irrigation.urgency.Critical?
              && x == IrrigationAlert(analysis.irrigation.advice, analysis.irrigation.liters)
  {
    var s1 := AnomalyStage(analysis.anomalies);
    var s3 := CropHealthStage(analysis.cropHealth);
    assert forall x :: x in s1 ==> x.AnomalyAlert?;
    assert forall x :: x in s3 ==> x.CropHealthAlert?;
  }

  /** Health entries appear exactly for the advice of a high-stress report. */
  lemma CascadeCropHealth(analysis: Analysis, action: CH.HealthAdvice)
    ensures CropHealthAlert(action) in Cascade(analysis)
            <==> analysis.cropHealth.status.HighStress? && action in analysis.cropHealth.advice
  {
    var s1 := AnomalyStage(analysis.anomalies);
    var s3 := CropHealthStage(analysis.cropHealth);
    assert forall x :: x in s1 ==> x.AnomalyAlert?;
    if action in analysis.cropHealth.advice && analysis.cropHealth.status.HighStress? {
      var i :| 0 <= i < |analysis.cropHealth.advice| && analysis.cropHealth.advice[i] == action;
      assert s3[i] == CropHealthAlert(action);
    }
    if CropHealthAlert(action) in s3 {
      var i :| 0 <= i < |s3| && s3[i] == CropHealthAlert(action);
    }
  }

  /** A harvest entry appears exactly when harvest is at most seven days away,
      and it is the last entry. */
  lemma CascadeHarvest(analysis: Analysis)
    ensures HarvestAlert(analysis.yieldForecast.daysToHarvest) in Cascade(analysis)
            <==> analysis.yieldForecast.daysToHarvest <= HarvestSoonDays
    ensures forall i :: 0 <= i < |Cascade(analysis)| && Cascade(analysis)[i].HarvestAlert? ==>
              i == |Cascade(analysis)| - 1
  {
    var s1 := AnomalyStage(analysis.anomalies);
    var s3 := CropHealthStage(analysis.cropHealth);
    var front := s1 + IrrigationStage(analysis.irrigation) + s3;
    assert forall x :: x in s1 ==> x.AnomalyAlert?;
    assert forall x :: x in s3 ==> x.CropHealthAlert?;
    assert Cascade(analysis) == front + HarvestStage(analysis.yieldForecast);
    forall i | 0 <= i < |front|
      ensures !Cascade(analysis)[i].HarvestAlert?
    {
      assert Cascade(analysis)[i] == front[i] && front[i] in front;
    }
  }

  /** When only the first anomaly can be CRITICAL, the filter keeps at most
      that one. */
  lemma CriticalAnomaliesAtMostFirst(anomalies: seq<AD.Anomaly>)
    requires forall i :: 0 < i < |anomalies| ==> !anomalies[i].Severity().Critical?
    ensures |CriticalAnomalies(anomalies)| <= 1
    ensures CriticalAnomalies(anomalies) != [] ==> CriticalAnomalies(anomalies)[0] == anomalies[0]
  {
    if anomalies != [] {
      assert anomalies == [anomalies[0]] + anomalies[1..];
      CriticalAnomaliesAppend([anomalies[0]], anomalies[1..]);
      forall x | x in anomalies[1..]
        ensures !x.Severity().Critical?
      {
        var k :| 0 <= k < |anomalies[1..]| && anomalies[1..][k] == x;
        assert x == anomalies[k + 1];
      }
      NoCriticalAnomalies(anomalies[1..]);
    }
  }

  /** Fed with what the detector reports for a reading, the cascade opens with
      at most one CRITICAL entry, the sudden moisture loss, and holds no other. */
  lemma AtMostOneCriticalRecommendation(analysis: Analysis, h: AD.History, r: AD.Reading)
    requires AD.WellFormed(h)
    requires analysis.anomalies == AD.Detected(h, r)
    ensures forall i :: 0 <= i < |Cascade(analysis)| ==>
              (Cascade(analysis)[i].Priority() == Critical ==> i == 0 && Cascade(analysis)[0].anomaly.SuddenMoistureLoss?)
  {
    var anomalies := analysis.anomalies;
    AD.CriticalOnlyForSuddenLoss(h, r);
    CriticalAnomaliesAtMostFirst(anomalies);
    CascadeOpensWithCriticalAnomalies(analysis);
    CascadeCriticalFirst(analysis);
    if CriticalAnomalies(anomalies) != [] {
      assert anomalies[0] in anomalies;
    }
  }
}
