/** Anomaly detection: a rolling history of the last 100 readings per sensor
    channel, and the rules that flag the newest reading (a sudden moisture
    drop, fixed thresholds, and a three-standard-deviation rule once ten
    readings exist). */
module AnomalyDetection {
  import RL = RuleLists

  /** The sensor channels, as keys of the history. */
  datatype Channel = Moisture | Temperature | Humidity | Light {
    function Capitalized(): string {
      match this
      case Moisture => "Moisture"
      case Temperature => "Temperature"
      case Humidity => "Humidity"
      case Light => "Light"
    }

    /** Position of the channel among the history's keys. */
    function Index(): nat {
      match this
      case Moisture => 0
      case Temperature => 1
      case Humidity => 2
      case Light => 3
    }
  }

  /** The history's keys, in the order the history was built. */
  const Channels: seq<Channel> := [Moisture, Temperature, Humidity, Light]

  /** The channels the statistical rule looks at (never light). */
  const StatisticalChannels: seq<Channel> := [Moisture, Temperature, Humidity]

  /** One sensor reading. */
  datatype Reading = Reading(moisture: real, temperature: real, humidity: real, light: real) {
    function Value(c: Channel): real {
      match c
      case Moisture => moisture
      case Temperature => temperature
      case Humidity => humidity
      case Light => light
    }
  }

  const HistoryCap: nat := 100
  const MoistureSuddenDrop: real := 15.0
  const TemperatureExtreme: real := 38.0
  const TemperatureLow: real := 10.0
  const HumidityHigh: real := 90.0
  const HumidityLow: real := 25.0
  const LightLow: real := 200.0
  const StatisticalMinReadings: nat := 10
  const ZScoreLimit: real := 3.0

  datatype Severity = Info | Warning | Critical

  /** A detected anomaly with the readings its message quotes. The message
      text and the timestamp are not modelled. */
  datatype Anomaly =
    | SuddenMoistureLoss(previous: real, current: real)
    | ExtremeHighTemperature(temperature: real)
    | ExtremeLowTemperature(temperature: real)
    | HighHumidity(humidity: real)
    | LowHumidity(humidity: real)
    | LowLightIntensity(light: real)
    | StatisticalAnomaly(channel: Channel, value: real)
  {
    function Type(): string {
      match this
      case SuddenMoistureLoss(_, _) => "Sudden Moisture Loss"
      case ExtremeHighTemperature(_) => "Extreme High Temperature"
      case ExtremeLowTemperature(_) => "Extreme Low Temperature"
      case HighHumidity(_) => "High Humidity"
      case LowHumidity(_) => "Low Humidity"
      case LowLightIntensity(_) => "Low Light Intensity"
      case StatisticalAnomaly(c, _) => "Statistical Anomaly - " + c.Capitalized()
    }

    function Severity(): Severity {
      match this
      case SuddenMoistureLoss(_, _) => Critical
      case ExtremeHighTemperature(_) => Warning
      case ExtremeLowTemperature(_) => Warning
      case HighHumidity(_) => Warning
      case LowHumidity(_) => Info
      case LowLightIntensity(_) => Info
      case StatisticalAnomaly(_, _) => Info
    }

    function Action(): string {
      match this
      case SuddenMoistureLoss(_, _) => "Check irrigation system for leaks or malfunctions"
      case ExtremeHighTemperature(_) => "Increase irrigation and provide shade if possible"
      case ExtremeLowTemperature(_) => "Consider frost protection measures"
      case HighHumidity(_) => "Improve ventilation and monitor for disease symptoms"
      case LowHumidity(_) => "Consider misting or increasing irrigation frequency"
      case LowLightIntensity(_) => "Monitor plant growth; consider supplemental lighting"
      case StatisticalAnomaly(_, _) => "Verify sensor calibration and reading accuracy"
    }
  }

  /** Position of the rule that produces an anomaly. */
  function RuleRank(a: Anomaly): nat {
    match a
    case SuddenMoistureLoss(_, _) => 0
    case ExtremeHighTemperature(_) => 1
    case ExtremeLowTemperature(_) => 2
    case HighHumidity(_) => 3
    case LowHumidity(_) => 4
    case LowLightIntensity(_) => 5
    case StatisticalAnomaly(_, _) => 6
  }

  /** The per-channel history: a dictionary keyed by the four channels. */
  datatype History = History(moisture: seq<real>, temperature: seq<real>, humidity: seq<real>, light: seq<real>) {
    function Get(c: Channel): seq<real> {
      match c
      case Moisture => moisture
      case Temperature => temperature
      case Humidity => humidity
      case Light => light
    }

    /** The history with channel `c` replaced and the others unchanged. */
    function Set(c: Channel, values: seq<real>): History {
      match c
      case Moisture => this.(moisture := values)
      case Temperature => this.(temperature := values)
      case Humidity => this.(humidity := values)
      case Light => this.(light := values)
    }
  }

  const EmptyHistory: History := History([], [], [], [])

  function Min(a: int, b: int): int { if a <= b then a else b }

  /** All channels of one length, at most the cap. */
  predicate WellFormed(h: History) {
    && |h.temperature| == |h.moisture|
    && |h.humidity| == |h.moisture|
    && |h.light| == |h.moisture|
    && |h.moisture| <= HistoryCap
  }

  /** `values[-100:]` when a channel has grown past the cap. */
  function Window(values: seq<real>): seq<real> {
    if |values| > HistoryCap then values[|values| - HistoryCap..] else values
  }

  /** The history after one reading is appended and every channel trimmed. */
  function Advance(h: History, r: Reading): (h': History)
    requires WellFormed(h)
    ensures WellFormed(h')
  {
    History(
      Window(h.moisture + [r.moisture]),
      Window(h.temperature + [r.temperature]),
      Window(h.humidity + [r.humidity]),
      Window(h.light + [r.light]))
  }

  /** What one reading does to a channel: it grows by one up to the cap, holds
      the last entries of the old channel followed by the new value, ends with
      the new value, and still has the previous newest value just before it. */
  lemma AdvanceChannel(h: History, r: Reading, c: Channel)
    requires WellFormed(h)
    ensures var n := |h.Get(c)|;
            var ch := Advance(h, r).Get(c);
            && |ch| == Min(n + 1, HistoryCap)
            && ch == (h.Get(c) + [r.Value(c)])[n + 1 - |ch|..]
            && ch[|ch| - 1] == r.Value(c)
            && (n >= 1 ==> ch[|ch| - 2] == h.Get(c)[n - 1])
  {
  }

  /** A history whose first `i` channels, in the order of `Channels`, have
      been trimmed. */
  function TrimmedUpTo(h: History, i: nat): History {
    History(
      if i > 0 then Window(h.moisture) else h.moisture,
      if i > 1 then Window(h.temperature) else h.temperature,
      if i > 2 then Window(h.humidity) else h.humidity,
      if i > 3 then Window(h.light) else h.light)
  }

  /** Trimming the next channel of `Channels`. */
  lemma TrimNextChannel(h: History, i: nat)
    requires i < |Channels|
    ensures TrimmedUpTo(h, i + 1)
            == TrimmedUpTo(h, i).Set(Channels[i], Window(TrimmedUpTo(h, i).Get(Channels[i])))
  {
  }

  /** Writing a channel's own contents back changes nothing. */
  lemma SetUnchanged(h: History, c: Channel)
    ensures h.Set(c, h.Get(c)) == h
  {
  }

  /** The history after a sequence of readings, one `add_reading` each. */
  function AdvanceAll(h: History, rs: seq<Reading>): (h': History)
    requires WellFormed(h)
    ensures WellFormed(h')
    decreases |rs|
  {
    if rs == [] then h else AdvanceAll(Advance(h, rs[0]), rs[1..])
  }

  /** The values of one channel in a sequence of readings. */
  function ChannelValues(rs: seq<Reading>, c: Channel): (vs: seq<real>)
    ensures |vs| == |rs|
    ensures forall i :: 0 <= i < |rs| ==> vs[i] == rs[i].Value(c)
  {
    seq(|rs|, i requires 0 <= i < |rs| => rs[i].Value(c))
  }

  lemma AdvanceGet(h: History, r: Reading, c: Channel)
    requires WellFormed(h)
    ensures Advance(h, r).Get(c) == Window(h.Get(c) + [r.Value(c)])
  {
  }

  lemma ChannelValuesCons(rs: seq<Reading>, c: Channel)
    requires rs != []
    ensures ChannelValues(rs, c) == [rs[0].Value(c)] + ChannelValues(rs[1..], c)
  {
  }

  /** Trimming after every append keeps the same entries as trimming once. */
  lemma WindowOfWindow(a: seq<real>, b: seq<real>)
    ensures Window(Window(a) + b) == Window(a + b)
  {
    if |a| > HistoryCap {
      var w := a[|a| - HistoryCap..];
      assert Window(a) == w;
      assert (w + b)[|w + b| - HistoryCap..] == (a + b)[|a + b| - HistoryCap..];
    }
  }

  /** One replay step: trimming after appending v, then appending the rest,
      keeps what trimming once after appending everything keeps. */
  lemma WindowReplayStep(a: seq<real>, v: real, rest: seq<real>, w: seq<real>, all: seq<real>)
    requires w == Window(a + [v])
    requires all == [v] + rest
    ensures Window(w + rest) == Window(a + all)
  {
    WindowOfWindow(a + [v], rest);
    assert a + [v] + rest == a + all;
  }

  /** After any sequence of readings, each channel holds the last (at most 100)
      values of its old contents followed by the new readings, the most
      recent last: feeding 150 readings leaves exactly the last 100. */
  lemma {:induction false} AdvanceAllKeepsLastReadings(h: History, rs: seq<Reading>, c: Channel)
    requires WellFormed(h)
    ensures WellFormed(AdvanceAll(h, rs))
    ensures AdvanceAll(h, rs).Get(c) == Window(h.Get(c) + ChannelValues(rs, c))
    decreases |rs|
  {
    if rs == [] {
      assert h.Get(c) + ChannelValues(rs, c) == h.Get(c);
    } else {
      var h1 := Advance(h, rs[0]);
      AdvanceAllKeepsLastReadings(h1, rs[1..], c);
      AdvanceGet(h, rs[0], c);
      ChannelValuesCons(rs, c);
      WindowReplayStep(h.Get(c), rs[0].Value(c), ChannelValues(rs[1..], c), h1.Get(c), ChannelValues(rs, c));
    }
  }

  // ---- Rule 1: sudden moisture loss ----

  /** Compares the reading before the newest one with the new moisture value. */
  function SuddenLossRule(moistureHistory: seq<real>, moisture: real): seq<Anomaly> {
    if |moistureHistory| >= 2 && moistureHistory[|moistureHistory| - 2] - moisture > MoistureSuddenDrop
    then [SuddenMoistureLoss(moistureHistory[|moistureHistory| - 2], moisture)]
    else []
  }

  /** With the reading already appended, the rule fires exactly when some
      reading came before and the moisture fell by more than 15 since it, and
      it quotes that previous reading. */
  lemma SuddenLossIff(h: History, r: Reading)
    requires WellFormed(h)
    ensures var rule := SuddenLossRule(Advance(h, r).moisture, r.moisture);
            && (rule != [] <==> |h.moisture| >= 1 && h.moisture[|h.moisture| - 1] - r.moisture > MoistureSuddenDrop)
            && (rule != [] ==> rule == [SuddenMoistureLoss(h.moisture[|h.moisture| - 1], r.moisture)])
  {
  }

  // ---- Rules 2 to 4: fixed thresholds ----

  /** The threshold rules on the newest reading, in the fixed order heat,
      frost, high humidity, low humidity, low light. */
  function ThresholdRules(r: Reading): seq<Anomaly> {
    RL.When(r.temperature > TemperatureExtreme, ExtremeHighTemperature(r.temperature))
    + RL.When(r.temperature < TemperatureLow, ExtremeLowTemperature(r.temperature))
    + RL.When(r.humidity > HumidityHigh, HighHumidity(r.humidity))
    + RL.When(r.humidity < HumidityLow, LowHumidity(r.humidity))
    + RL.When(r.light < LightLow, LowLightIntensity(r.light))
  }

  /** Each threshold rule fires exactly when its own condition holds, whatever
      the others do, and nothing else is reported. */
  lemma {:induction false} ThresholdRulesMembers(r: Reading, x: Anomaly)
    ensures x in ThresholdRules(r) <==>
              || (r.temperature > TemperatureExtreme && x == ExtremeHighTemperature(r.temperature))
              || (r.temperature < TemperatureLow && x == ExtremeLowTemperature(r.temperature))
              || (r.humidity > HumidityHigh && x == HighHumidity(r.humidity))
              || (r.humidity < HumidityLow && x == LowHumidity(r.humidity))
              || (r.light < LightLow && x == LowLightIntensity(r.light))
  {
    RL.WhenMembers(r.temperature > TemperatureExtreme, ExtremeHighTemperature(r.temperature), x);
    RL.WhenMembers(r.temperature < TemperatureLow, ExtremeLowTemperature(r.temperature), x);
    RL.WhenMembers(r.humidity > HumidityHigh, HighHumidity(r.humidity), x);
    RL.WhenMembers(r.humidity < HumidityLow, LowHumidity(r.humidity), x);
    RL.WhenMembers(r.light < LightLow, LowLightIntensity(r.light), x);
  }

  /** Anomalies listed strictly in the order of the rules that produce them. */
  ghost predicate InRuleOrder(a: seq<Anomaly>) {
    RL.Ordered(a, RuleRank, true)
  }

  /** The temperature rules' anomalies, heat then frost, in rule order. */
  lemma TemperatureRulesInOrder(r: Reading)
    ensures var f := RL.When(r.temperature > TemperatureExtreme, ExtremeHighTemperature(r.temperature))
                     + RL.When(r.temperature < TemperatureLow, ExtremeLowTemperature(r.temperature));
            InRuleOrder(f) && RL.RanksWithin(f, RuleRank, 1, 2)
  {
    var f1 := RL.When(r.temperature > TemperatureExtreme, ExtremeHighTemperature(r.temperature));
    RL.WhenOrdered(r.temperature > TemperatureExtreme, ExtremeHighTemperature(r.temperature), RuleRank, true);
    RL.AppendWhenOrdered(f1, r.temperature < TemperatureLow, ExtremeLowTemperature(r.temperature), RuleRank, true, 1, 1);
  }

  /** The temperature and humidity rules' anomalies, in rule order. */
  lemma HumidityRulesInOrder(r: Reading)
    ensures var f := RL.When(r.temperature > TemperatureExtreme, ExtremeHighTemperature(r.temperature))
                     + RL.When(r.temperature < TemperatureLow, ExtremeLowTemperature(r.temperature))
                     + RL.When(r.humidity > HumidityHigh, HighHumidity(r.humidity))
                     + RL.When(r.humidity < HumidityLow, LowHumidity(r.humidity));
            InRuleOrder(f) && RL.RanksWithin(f, RuleRank, 1, 4)
  {
    var f2 := RL.When(r.temperature > TemperatureExtreme, ExtremeHighTemperature(r.temperature))
              + RL.When(r.temperature < TemperatureLow, ExtremeLowTemperature(r.temperature));
    var f3 := f2 + RL.When(r.humidity > HumidityHigh, HighHumidity(r.humidity));
    TemperatureRulesInOrder(r);
    RL.AppendWhenOrdered(f2, r.humidity > HumidityHigh, HighHumidity(r.humidity), RuleRank, true, 1, 2);
    RL.AppendWhenOrdered(f3, r.humidity < HumidityLow, LowHumidity(r.humidity), RuleRank, true, 1, 3);
  }

  /** The threshold anomalies come in rule order: heat, frost, high humidity,
      low humidity, low light. */
  lemma ThresholdRulesInOrder(r: Reading)
    ensures InRuleOrder(ThresholdRules(r))
  {
    var f4 := RL.When(r.temperature > TemperatureExtreme, ExtremeHighTemperature(r.temperature))
              + RL.When(r.temperature < TemperatureLow, ExtremeLowTemperature(r.temperature))
              + RL.When(r.humidity > HumidityHigh, HighHumidity(r.humidity))
              + RL.When(r.humidity < HumidityLow, LowHumidity(r.humidity));
    HumidityRulesInOrder(r);
    RL.AppendWhenOrdered(f4, r.light < LightLow, LowLightIntensity(r.light), RuleRank, true, 1, 4);
  }

  /** Heat and frost warnings never come together, nor do the two humidity
      alerts, so at most three threshold anomalies fire at once; none of them
      is CRITICAL. */
  lemma ThresholdRulesExclusive(r: Reading)
    ensures !(ExtremeHighTemperature(r.temperature) in ThresholdRules(r) && ExtremeLowTemperature(r.temperature) in ThresholdRules(r))
    ensures !(HighHumidity(r.humidity) in ThresholdRules(r) && LowHumidity(r.humidity) in ThresholdRules(r))
    ensures |ThresholdRules(r)| <= 3
    ensures forall x :: x in ThresholdRules(r) ==> x.Severity() != Critical
  {
    ThresholdRulesMembers(r, ExtremeHighTemperature(r.temperature));
    ThresholdRulesMembers(r, ExtremeLowTemperature(r.temperature));
    ThresholdRulesMembers(r, HighHumidity(r.humidity));
    ThresholdRulesMembers(r, LowHumidity(r.humidity));
    forall x | x in ThresholdRules(r)
      ensures x.Severity() != Critical
    {
      ThresholdRulesMembers(r, x);
    }
  }

  // ---- Rule 5: statistical outliers ----

  function Sum(s: seq<real>): real {
    if s == [] then 0.0 else Sum(s[..|s| - 1]) + s[|s| - 1]
  }

  /** `np.mean`. */
  function Mean(s: seq<real>): real
    requires |s| > 0
  {
    Sum(s) / (|s| as real)
  }

  function SquaredDeviations(s: seq<real>, center: real): (total: real)
    ensures total >= 0.0
  {
    if s == [] then 0.0
    else
      var d := s[|s| - 1] - center;
      assert d * d >= 0.0 by {
        if d < 0.0 { assert d * d == (-d) * (-d); }
      }
      SquaredDeviations(s[..|s| - 1], center) + d * d
  }

  /** The square of `np.std` (the population variance). */
  function Variance(s: seq<real>): (v: real)
    requires |s| > 0
    ensures v >= 0.0
  {
    SquaredDeviations(s, Mean(s)) / (|s| as real)
  }

  /** A deviation beyond three standard deviations of a positive variance,
      compared without a square root: deviation² > 9 · variance. */
  predicate BeyondThreeSigma(deviation: real, variance: real) {
    variance > 0.0 && deviation * deviation > ZScoreLimit * ZScoreLimit * variance
  }

  /** The newest value lies more than three standard deviations from the mean
      of the values before it, which must have some spread. */
  predicate IsOutlier(values: seq<real>)
    requires |values| >= 2
  {
    var prior := values[..|values| - 1];
    BeyondThreeSigma(values[|values| - 1] - Mean(prior), Variance(prior))
  }

  /** For a positive standard deviation `std` with `std * std == variance`,
      `|deviation / std| > 3` is the same as BeyondThreeSigma, the
      square-root-free form IsOutlier uses. */
  lemma ZScoreWithoutRoot(deviation: real, std: real, variance: real)
    requires std > 0.0 && std * std == variance
    ensures (if deviation < 0.0 then -deviation else deviation) / std > ZScoreLimit
            <==> BeyondThreeSigma(deviation, variance)
  {
    assert variance == std * std > 0.0;
    var d := if deviation < 0.0 then -deviation else deviation;
    assert d * d == deviation * deviation;
    assert d / std > ZScoreLimit <==> d > ZScoreLimit * std;
    if d > ZScoreLimit * std {
      assert d * d > (ZScoreLimit * std) * (ZScoreLimit * std);
    } else {
      assert d * d <= (ZScoreLimit * std) * (ZScoreLimit * std);
    }
  }

  /** The statistical rule for one channel. */
  function StatisticalRule(values: seq<real>, c: Channel): seq<Anomaly>
    requires |values| >= 2
  {
    if IsOutlier(values) then [StatisticalAnomaly(c, values[|values| - 1])] else []
  }

  /** The statistical rule over some channels, in order. Every anomaly it
      reports is statistical, of severity INFO, for one of those channels and
      quotes that channel's newest value. */
  function StatisticalRulesOver(h: History, cs: seq<Channel>): (a: seq<Anomaly>)
    requires WellFormed(h) && |h.moisture| >= 2
    ensures |a| <= |cs|
    ensures forall x :: x in a ==>
              && x.StatisticalAnomaly? && x.channel in cs && x.Severity() == Info
              && x.value == h.Get(x.channel)[|h.moisture| - 1]
    decreases |cs|
  {
    if cs == [] then []
    else
      var c := cs[|cs| - 1];
      StatisticalRulesOver(h, cs[..|cs| - 1]) + StatisticalRule(h.Get(c), c)
  }

  /** The rule over one more channel of the list. */
  lemma StatisticalRulesOverStep(h: History, cs: seq<Channel>, i: nat)
    requires WellFormed(h) && |h.moisture| >= 2
    requires i < |cs|
    ensures StatisticalRulesOver(h, cs[..i + 1]) == StatisticalRulesOver(h, cs[..i]) + StatisticalRule(h.Get(cs[i]), cs[i])
  {
    assert cs[..i + 1][..i] == cs[..i];
  }

  /** Rule 5: only once the history holds at least ten readings. */
  function StatisticalRules(h: History): (a: seq<Anomaly>)
    requires WellFormed(h)
    ensures |h.moisture| < StatisticalMinReadings ==> a == []
    ensures |a| <= 3
    ensures forall x :: x in a ==> x.StatisticalAnomaly? && x.channel != Light && x.Severity() == Info
  {
    if |h.moisture| >= StatisticalMinReadings then StatisticalRulesOver(h, StatisticalChannels) else []
  }

  /** The rule over moisture alone. */
  lemma StatisticalRulesOverMoisture(h: History)
    requires WellFormed(h) && |h.moisture| >= 2
    ensures StatisticalRulesOver(h, StatisticalChannels[..1]) == StatisticalRule(h.moisture, Moisture)
  {
    assert StatisticalChannels[..1][..0] == [];
  }

  /** The rule over moisture, then temperature. */
  lemma StatisticalRulesOverTemperature(h: History)
    requires WellFormed(h) && |h.moisture| >= 2
    ensures StatisticalRulesOver(h, StatisticalChannels[..2])
            == StatisticalRule(h.moisture, Moisture) + StatisticalRule(h.temperature, Temperature)
  {
    StatisticalRulesOverStep(h, StatisticalChannels, 1);
    StatisticalRulesOverMoisture(h);
  }

  /** From ten readings on, rule 5 is the per-channel rule for moisture, then
      temperature, then humidity. */
  lemma StatisticalRulesUnfold(h: History)
    requires WellFormed(h) && |h.moisture| >= StatisticalMinReadings
    ensures StatisticalRules(h) == StatisticalRule(h.moisture, Moisture)
                                   + StatisticalRule(h.temperature, Temperature)
                                   + StatisticalRule(h.humidity, Humidity)
  {
    StatisticalRulesOverStep(h, StatisticalChannels, 2);
    StatisticalRulesOverTemperature(h);
    assert StatisticalChannels[..3] == StatisticalChannels;
  }

  /** The per-channel rule reports the channel's newest value exactly when it
      is an outlier. */
  lemma StatisticalRuleMembers(values: seq<real>, c: Channel, x: Anomaly)
    requires |values| >= 2
    ensures x in StatisticalRule(values, c) <==> IsOutlier(values) && x == StatisticalAnomaly(c, values[|values| - 1])
  {
  }

  /** From ten readings on, rule 5 reports the newest value of each of
      moisture, temperature and humidity exactly when it is an outlier. */
  lemma StatisticalRulesCases(h: History, x: Anomaly)
    requires WellFormed(h) && |h.moisture| >= StatisticalMinReadings
    ensures var n := |h.moisture|;
            x in StatisticalRules(h) <==>
              || (IsOutlier(h.moisture) && x == StatisticalAnomaly(Moisture, h.moisture[n - 1]))
              || (IsOutlier(h.temperature) && x == StatisticalAnomaly(Temperature, h.temperature[n - 1]))
              || (IsOutlier(h.humidity) && x == StatisticalAnomaly(Humidity, h.humidity[n - 1]))
  {
    StatisticalRulesUnfold(h);
    StatisticalRuleMembers(h.moisture, Moisture, x);
    StatisticalRuleMembers(h.temperature, Temperature, x);
    StatisticalRuleMembers(h.humidity, Humidity, x);
  }

  /** From ten readings on, a channel is reported exactly when it is one of
      moisture, temperature and humidity and its newest value is an outlier;
      the anomaly quotes that value. */
  lemma {:induction false} StatisticalRulesMembers(h: History, x: Anomaly)
    requires WellFormed(h) && |h.moisture| >= StatisticalMinReadings
    ensures x in StatisticalRules(h) <==>
              && x.StatisticalAnomaly?
              && x.channel in StatisticalChannels
              && x.value == h.Get(x.channel)[|h.moisture| - 1]
              && IsOutlier(h.Get(x.channel))
  {
    StatisticalRulesCases(h, x);
  }

  /** The channel of the k-th anomaly of rule 5: entries from the moisture
      rule come first, then temperature, then humidity. */
  lemma StatisticalEntryChannel(h: History, k: nat)
    requires WellFormed(h) && |h.moisture| >= StatisticalMinReadings
    requires k < |StatisticalRules(h)|
    ensures var m := StatisticalRule(h.moisture, Moisture);
            var t := StatisticalRule(h.temperature, Temperature);
            && |m| <= 1 && |t| <= 1
            && StatisticalRules(h)[k].StatisticalAnomaly?
            && StatisticalRules(h)[k].channel.Index() == (if k < |m| then 0 else if k < |m| + |t| then 1 else 2)
  {
    StatisticalRulesUnfold(h);
    var m := StatisticalRule(h.moisture, Moisture);
    var t := StatisticalRule(h.temperature, Temperature);
    var u := StatisticalRule(h.humidity, Humidity);
    var a := StatisticalRules(h);
    if k < |m| {
      assert a[k] == m[k];
    } else if k < |m| + |t| {
      assert a[k] == t[k - |m|];
    } else {
      assert a[k] == u[k - |m| - |t|];
    }
  }

  /** Rule 5 reports at most one anomaly per channel, in channel order:
      moisture, temperature, humidity. */
  lemma StatisticalRulesInChannelOrder(h: History)
    requires WellFormed(h)
    ensures var a := StatisticalRules(h);
            forall i, j :: 0 <= i < j < |a| ==>
              && a[i].StatisticalAnomaly? && a[j].StatisticalAnomaly?
              && a[i].channel.Index() < a[j].channel.Index()
  {
    var a := StatisticalRules(h);
    if |h.moisture| >= StatisticalMinReadings {
      forall i, j | 0 <= i < j < |a|
        ensures a[i].StatisticalAnomaly? && a[j].StatisticalAnomaly?
        ensures a[i].channel.Index() < a[j].channel.Index()
      {
        StatisticalEntryChannel(h, i);
        StatisticalEntryChannel(h, j);
      }
    }
  }

  lemma {:induction false} SumOfConstant(s: seq<real>, x: real)
    requires forall i :: 0 <= i < |s| ==> s[i] == x
    ensures Sum(s) == (|s| as real) * x
    decreases |s|
  {
    if s != [] {
      SumOfConstant(s[..|s| - 1], x);
      assert ((|s| - 1) as real) * x + x == (|s| as real) * x;
    }
  }

  lemma {:induction false} DeviationsOfConstant(s: seq<real>, x: real)
    requires forall i :: 0 <= i < |s| ==> s[i] == x
    ensures SquaredDeviations(s, x) == 0.0
    decreases |s|
  {
    if s != [] {
      DeviationsOfConstant(s[..|s| - 1], x);
    }
  }

  /** A channel whose earlier values are all equal has no spread, so the
      statistical rule skips it whatever the newest value is. */
  lemma ConstantChannelSkipped(values: seq<real>, c: Channel)
    requires |values| >= 2
    requires forall i :: 0 <= i < |values| - 1 ==> values[i] == values[0]
    ensures StatisticalRule(values, c) == []
  {
    var prior := values[..|values| - 1];
    SumOfConstant(prior, values[0]);
    var n := |prior| as real;
    assert Mean(prior) == n * values[0] / n == values[0];
    DeviationsOfConstant(prior, values[0]);
  }

  // ---- All rules ----

  /** The anomalies reported for reading `r`, given the history that already
      includes it: rule 1, then the threshold rules, then rule 5. */
  function Detected(h: History, r: Reading): seq<Anomaly>
    requires WellFormed(h)
  {
    SuddenLossRule(h.moisture, r.moisture) + ThresholdRules(r) + StatisticalRules(h)
  }

  /** The only CRITICAL anomaly is a sudden moisture loss and it is reported at
      most once, ahead of everything else. */
  lemma {:induction false} CriticalOnlyForSuddenLoss(h: History, r: Reading)
    requires WellFormed(h)
    ensures forall x :: x in Detected(h, r) ==> (x.Severity() == Critical <==> x.SuddenMoistureLoss?)
    ensures forall i :: 0 < i < |Detected(h, r)| ==> Detected(h, r)[i].Severity() != Critical
  {
    var s := SuddenLossRule(h.moisture, r.moisture);
    var t := ThresholdRules(r);
    var z := StatisticalRules(h);
    ThresholdRulesExclusive(r);
    assert Detected(h, r) == s + (t + z);
    OnlyFirstCritical(s, t + z);
  }

  /** A list of at most one anomaly followed by anomalies that are not
      CRITICAL has no CRITICAL entry after the first. */
  lemma OnlyFirstCritical(s: seq<Anomaly>, rest: seq<Anomaly>)
    requires |s| <= 1
    requires forall x :: x in rest ==> x.Severity() != Critical
    ensures forall i :: 0 < i < |s + rest| ==> (s + rest)[i].Severity() != Critical
  {
    forall i | 0 < i < |s + rest|
      ensures (s + rest)[i].Severity() != Critical
    {
      assert (s + rest)[i] == rest[i - |s|];
    }
  }

  /** Rules 2 to 4 as the detector runs them: one `if` per threshold on the
      newest reading. */
  method ThresholdChecks(r: Reading) returns (found: seq<Anomaly>)
    ensures found == ThresholdRules(r)
  {
    found := [];
    if r.temperature > TemperatureExtreme {
      found := found + [ExtremeHighTemperature(r.temperature)];
    }
    ghost var fired := RL.When(r.temperature > TemperatureExtreme, ExtremeHighTemperature(r.temperature));
    assert found == fired;
    if r.temperature < TemperatureLow {
      found := found + [ExtremeLowTemperature(r.temperature)];
    }
    fired := fired + RL.When(r.temperature < TemperatureLow, ExtremeLowTemperature(r.temperature));
    assert found == fired;
    if r.humidity > HumidityHigh {
      found := found + [HighHumidity(r.humidity)];
    }
    fired := fired + RL.When(r.humidity > HumidityHigh, HighHumidity(r.humidity));
    assert found == fired;
    if r.humidity < HumidityLow {
      found := found + [LowHumidity(r.humidity)];
    }
    fired := fired + RL.When(r.humidity < HumidityLow, LowHumidity(r.humidity));
    assert found == fired;
    if r.light < LightLow {
      found := found + [LowLightIntensity(r.light)];
    }
    fired := fired + RL.When(r.light < LightLow, LowLightIntensity(r.light));
  }

  /** The body of the z-score loop for one channel: the mean and population
      variance of the earlier values, and an anomaly when the newest value
      deviates by more than three standard deviations. */
  method ChannelOutlier(values: seq<real>, channel: Channel) returns (found: seq<Anomaly>)
    requires |values| >= 2
    ensures found == StatisticalRule(values, channel)
  {
    found := [];
    var prior := values[..|values| - 1];
    var mean := Mean(prior);
    var variance := Variance(prior);
    if variance > 0.0 {
      var deviation := values[|values| - 1] - mean;
      if BeyondThreeSigma(deviation, variance) {
        found := [StatisticalAnomaly(channel, values[|values| - 1])];
      }
    }
  }

  /** The z-score loop of rule 5 over moisture, temperature and humidity. */
  method StatisticalScan(h: History) returns (outliers: seq<Anomaly>)
    requires WellFormed(h) && |h.moisture| >= StatisticalMinReadings
    ensures outliers == StatisticalRules(h)
  {
    outliers := [];
    for i := 0 to |StatisticalChannels|
      invariant outliers == StatisticalRulesOver(h, StatisticalChannels[..i])
    {
      var channel := StatisticalChannels[i];
      StatisticalRulesOverStep(h, StatisticalChannels, i);
      var found := ChannelOutlier(h.Get(channel), channel);
      outliers := outliers + found;
    }
    assert StatisticalChannels[..3] == StatisticalChannels;
  }

  /** The detector: its history is the only state it changes. */
  class AnomalyDetectionModel {
    var history: History

    predicate Valid()
      reads this
    {
      WellFormed(history)
    }

    constructor ()
      ensures Valid()
      ensures history == EmptyHistory
    {
      history := EmptyHistory;
    }

    /** Appends the reading to every channel, then trims every channel that
        has grown past the cap to its last 100 entries. */
    method AddReading(r: Reading)
      requires Valid()
      modifies this
      ensures Valid()
      ensures history == Advance(old(history), r)
    {
      history := history.Set(Moisture, history.moisture + [r.moisture]);
      history := history.Set(Temperature, history.temperature + [r.temperature]);
      history := history.Set(Humidity, history.humidity + [r.humidity]);
      history := history.Set(Light, history.light + [r.light]);
      ghost var appended := history;
      for i := 0 to |Channels|
        invariant history == TrimmedUpTo(appended, i)
      {
        var key := Channels[i];
        TrimNextChannel(appended, i);
        if |history.Get(key)| > HistoryCap {
          history := history.Set(key, history.Get(key)[|history.Get(key)| - HistoryCap..]);
        } else {
          SetUnchanged(history, key);
        }
      }
    }

    /** Records the reading, then reports the anomalies of `Detected` on the
        updated history, in rule order. */
    method DetectAnomalies(r: Reading) returns (anomalies: seq<Anomaly>)
      requires Valid()
      modifies this
      ensures Valid()
      ensures history == Advance(old(history), r)
      ensures anomalies == Detected(history, r)
    {
      anomalies := [];
      AddReading(r);

      var moistureHistory := history.moisture;
      if |moistureHistory| >= 2 {
        var previous := moistureHistory[|moistureHistory| - 2];
        if previous - r.moisture > MoistureSuddenDrop {
          anomalies := anomalies + [SuddenMoistureLoss(previous, r.moisture)];
        }
      }

      assert anomalies == SuddenLossRule(history.moisture, r.moisture);

      var thresholds := ThresholdChecks(r);
      anomalies := anomalies + thresholds;

      var outliers := [];
      if |history.moisture| >= StatisticalMinReadings {
        outliers := StatisticalScan(history);
      }
      assert outliers == StatisticalRules(history);
      anomalies := anomalies + outliers;
    }
  }
}
