/** The risk scorer (services/riskCalculator.ts): a capped history sub-score
    plus three fixed weight tables, floored at 0, and a seven-way threshold
    classifier over the resulting score. */
module RiskCalculator {
  import opened Types
  import Constants

  // ---------------------------------------------------------------------
  // Weight tables and constants
  // ---------------------------------------------------------------------

  function GeographyWeight(g: Geography): int {
    match g
    case Delta => 25
    case CoastalPlain => 20
    case Mountain => 15
    case HighGround => 5
  }

  function WeatherWeight(s: WeatherStatus): int {
    match s
    case StormWarning => 15
    case AboveAverage => 10
    case Normal => 0
  }

  /** The only table with a negative entry: resilient infrastructure is a discount. */
  function InfrastructureWeight(i: Infrastructure): int {
    match i
    case Advanced => -10
    case Standard => 0
    case Developing => 5
  }

  /** Riskier terrain and weather weigh more; better infrastructure weighs less. */
  lemma WeightsOrdered()
    ensures GeographyWeight(HighGround) < GeographyWeight(Mountain) < GeographyWeight(CoastalPlain) < GeographyWeight(Delta)
    ensures WeatherWeight(Normal) < WeatherWeight(AboveAverage) < WeatherWeight(StormWarning)
    ensures InfrastructureWeight(Advanced) < InfrastructureWeight(Standard) < InfrastructureWeight(Developing)
  {
  }

  const HistoryMaxScore: int := 50

  /** Upper score of Safe, Low, Medium, High, VeryHigh and Alarm, in that order. */
  const Thresholds: seq<int> := [14, 28, 42, 56, 70, 84]

  // ---------------------------------------------------------------------
  // History sub-score
  // ---------------------------------------------------------------------

  function Max(a: int, b: int): int { if a < b then b else a }
  function Min(a: int, b: int): int { if a < b then a else b }

  /** Floods two to five years ago; a non-cumulative record is clamped to 0. */
  function Floods2to5Years(h: History): (r: int)
    ensures r >= 0
    ensures h.last5Years < h.lastYear ==> r == 0
    ensures h.lastYear <= h.last5Years ==> h.lastYear + r == h.last5Years
  {
    Max(0, h.last5Years - h.lastYear)
  }

  /** Floods six to ten years ago; a non-cumulative record is clamped to 0. */
  function Floods6to10Years(h: History): (r: int)
    ensures r >= 0
    ensures h.last10Years < h.last5Years ==> r == 0
    ensures h.last5Years <= h.last10Years ==> h.last5Years + r == h.last10Years
  {
    Max(0, h.last10Years - h.last5Years)
  }

  /** 5 points per flood last year, 3 per flood two to five years ago,
      1 per flood six to ten years ago, capped at HistoryMaxScore. */
  function HistoryScore(h: History): (r: int)
    ensures r <= HistoryMaxScore
    ensures h.lastYear >= 0 ==> 0 <= r
  {
    var score := h.lastYear * 5 + Floods2to5Years(h) * 3 + Floods6to10Years(h) * 1;
    Min(score, HistoryMaxScore)
  }

  /** For a cumulative record the buckets telescope: the score is
      min(50, 2 * lastYear + 2 * last5Years + last10Years). */
  lemma CumulativeHistoryScore(h: History)
    requires h.lastYear <= h.last5Years <= h.last10Years
    ensures HistoryScore(h) == Min(2 * h.lastYear + 2 * h.last5Years + h.last10Years, HistoryMaxScore)
  {
  }

  /** A record whose five-year count is below its one-year count scores only
      the last year and the six-to-ten bucket. */
  lemma NonCumulativeHistoryScore(h: History)
    requires h.last5Years < h.lastYear
    ensures HistoryScore(h) == Min(h.lastYear * 5 + Floods6to10Years(h), HistoryMaxScore)
  {
  }

  // ---------------------------------------------------------------------
  // Total score
  // ---------------------------------------------------------------------

  /** The sum of the four contributions, before the floor at 0. */
  function RawScore(f: RiskFactors): int {
    HistoryScore(f.history)
      + GeographyWeight(f.geography)
      + WeatherWeight(f.weather.status)
      + InfrastructureWeight(f.infrastructure)
  }

  /** The integer score of one unit. `Math.round` is the identity on the
      integer sum, so only the floor at 0 remains. */
  function RiskScore(f: RiskFactors): (r: int)
    ensures 0 <= r <= 95
    ensures r > 0 ==> r == RawScore(f)
    ensures RawScore(f) >= 0 ==> r == RawScore(f)
  {
    Max(0, RawScore(f))
  }

  // ---------------------------------------------------------------------
  // Level classification
  // ---------------------------------------------------------------------

  /** The level for a score: the first threshold the score does not exceed. */
  function GetRiskLevel(score: int): RiskLevel {
    if score <= Thresholds[0] then Safe
    else if score <= Thresholds[1] then Low
    else if score <= Thresholds[2] then Medium
    else if score <= Thresholds[3] then High
    else if score <= Thresholds[4] then VeryHigh
    else if score <= Thresholds[5] then Alarm
    else Critical
  }

  /** How many entries of `ts` lie strictly below `s`. */
  function CountBelow(ts: seq<int>, s: int): (n: nat)
    ensures n <= |ts|
  {
    if |ts| == 0 then 0
    else (if ts[0] < s then 1 else 0) + CountBelow(ts[1..], s)
  }

  lemma {:induction false} CountBelowMonotone(ts: seq<int>, s1: int, s2: int)
    requires s1 <= s2
    ensures CountBelow(ts, s1) <= CountBelow(ts, s2)
  {
    if |ts| > 0 {
      CountBelowMonotone(ts[1..], s1, s2);
    }
  }

  /** An independent reading of the classifier: the position of a score's
      level in RISK_LEVELS_ORDER is the number of thresholds the score
      exceeds, so the thresholds partition the integers with no gap. */
  lemma LevelIndexCountsThresholds(s: int)
    ensures Constants.LevelIndex(GetRiskLevel(s)) == CountBelow(Thresholds, s)
  {
    Constants.RiskLevelsOrderLists();
    var t0 := Thresholds;
    var t1, t2, t3, t4, t5, t6 := t0[1..], t0[2..], t0[3..], t0[4..], t0[5..], t0[6..];
    assert t1[1..] == t2 && t2[1..] == t3 && t3[1..] == t4 && t4[1..] == t5 && t5[1..] == t6;
    assert CountBelow(t6, s) == 0;
    assert CountBelow(t5, s) == (if 84 < s then 1 else 0);
    assert CountBelow(t4, s) == (if 70 < s then 1 else 0) + CountBelow(t5, s);
    assert CountBelow(t3, s) == (if 56 < s then 1 else 0) + CountBelow(t4, s);
    assert CountBelow(t2, s) == (if 42 < s then 1 else 0) + CountBelow(t3, s);
    assert CountBelow(t1, s) == (if 28 < s then 1 else 0) + CountBelow(t2, s);
    assert CountBelow(t0, s) == (if 14 < s then 1 else 0) + CountBelow(t1, s);
  }

  /** A higher score never gets a lower level in RISK_LEVELS_ORDER. */
  lemma GetRiskLevelMonotone(s1: int, s2: int)
    requires s1 <= s2
    ensures Constants.LevelIndex(GetRiskLevel(s1)) <= Constants.LevelIndex(GetRiskLevel(s2))
  {
    LevelIndexCountsThresholds(s1);
    LevelIndexCountsThresholds(s2);
    CountBelowMonotone(Thresholds, s1, s2);
  }

  /** Scores at and just above each threshold. */
  lemma ThresholdBoundaries()
    ensures GetRiskLevel(14) == Safe && GetRiskLevel(15) == Low
    ensures GetRiskLevel(28) == Low && GetRiskLevel(29) == Medium
    ensures GetRiskLevel(42) == Medium && GetRiskLevel(43) == High
    ensures GetRiskLevel(56) == High && GetRiskLevel(57) == VeryHigh
    ensures GetRiskLevel(70) == VeryHigh && GetRiskLevel(71) == Alarm
    ensures GetRiskLevel(84) == Alarm && GetRiskLevel(85) == Critical
  {
  }

  // ---------------------------------------------------------------------
  // Whole data set
  // ---------------------------------------------------------------------

  /** One raw record extended with its score and level. */
  function Score(p: ProvinceRawData): (q: Province)
    ensures q.Raw() == p
    ensures q.riskLevel == GetRiskLevel(q.riskScore)
    ensures q.riskScore == RiskScore(p.riskFactors)
  {
    var riskScore := RiskScore(p.riskFactors);
    Province(p.id, p.name, p.riskFactors, p.riskClarification, GetRiskLevel(riskScore), riskScore)
  }

  /** Scores every record, keeping length, order and every input field. */
  function CalculateAllProvinces(rawData: seq<ProvinceRawData>): (r: seq<Province>)
    ensures |r| == |rawData|
    ensures forall i :: 0 <= i < |r| ==> r[i].Raw() == rawData[i]
    ensures forall i :: 0 <= i < |r| ==> 0 <= r[i].riskScore <= 95
    ensures forall i :: 0 <= i < |r| ==> r[i].riskScore == RiskScore(rawData[i].riskFactors)
    ensures forall i :: 0 <= i < |r| ==> r[i].riskLevel == GetRiskLevel(r[i].riskScore)
  {
    seq(|rawData|, i requires 0 <= i < |rawData| => Score(rawData[i]))
  }

  /** Dropping the derived fields gives back the input. */
  function RawOf(ps: seq<Province>): (r: seq<ProvinceRawData>)
    ensures |r| == |ps|
    ensures forall i :: 0 <= i < |r| ==> r[i] == ps[i].Raw()
  {
    seq(|ps|, i requires 0 <= i < |ps| => ps[i].Raw())
  }

  lemma CalculateAllProvincesRoundTrip(rawData: seq<ProvinceRawData>)
    ensures RawOf(CalculateAllProvinces(rawData)) == rawData
  {
  }

  // ---------------------------------------------------------------------
  // Per-factor breakdown
  // ---------------------------------------------------------------------

  /** The factor names accepted by getFactorScore, in the order the info
      panel lists them. */
  datatype Factor = HistoryFactor | GeographyFactor | WeatherFactor | InfrastructureFactor

  const AllFactors: seq<Factor> := [HistoryFactor, GeographyFactor, WeatherFactor, InfrastructureFactor]

  /** One factor's own contribution to the score. */
  function GetFactorScore(factor: Factor, f: RiskFactors): (r: int)
    ensures factor == HistoryFactor ==> r <= HistoryMaxScore
    ensures factor == GeographyFactor ==> 5 <= r <= 25
    ensures factor == WeatherFactor ==> 0 <= r <= 15
    ensures factor == InfrastructureFactor ==> -10 <= r <= 5
    ensures r < 0 ==> factor == HistoryFactor || factor == InfrastructureFactor
  {
    match factor
    case HistoryFactor => HistoryScore(f.history)
    case GeographyFactor => GeographyWeight(f.geography)
    case WeatherFactor => WeatherWeight(f.weather.status)
    case InfrastructureFactor => InfrastructureWeight(f.infrastructure)
  }

  function SumFactorScores(factors: seq<Factor>, f: RiskFactors): int {
    if |factors| == 0 then 0
    else GetFactorScore(factors[0], f) + SumFactorScores(factors[1..], f)
  }

  /** The breakdown shown to the viewer adds up to the total score. */
  lemma BreakdownConsistent(f: RiskFactors)
    ensures Max(0, SumFactorScores(AllFactors, f)) == RiskScore(f)
  {
    var f0 := AllFactors;
    var f1, f2, f3, f4 := f0[1..], f0[2..], f0[3..], f0[4..];
    assert f1[1..] == f2 && f2[1..] == f3 && f3[1..] == f4;
    assert SumFactorScores(f4, f) == 0;
    assert SumFactorScores(f3, f) == GetFactorScore(InfrastructureFactor, f);
    assert SumFactorScores(f2, f) == GetFactorScore(WeatherFactor, f) + SumFactorScores(f3, f);
    assert SumFactorScores(f1, f) == GetFactorScore(GeographyFactor, f) + SumFactorScores(f2, f);
    assert SumFactorScores(f0, f) == GetFactorScore(HistoryFactor, f) + SumFactorScores(f1, f);
  }

  // ---------------------------------------------------------------------
  // Worked examples
  // ---------------------------------------------------------------------

  lemma ScoringExamples()
    ensures var f := RiskFactors(History(0, 2, 5, ""), Delta, WeatherForecast("", "", 0, Normal, ""), Advanced);
      RiskScore(f) == 24 && GetRiskLevel(RiskScore(f)) == Low
    ensures var f := RiskFactors(History(4, 15, 25, ""), CoastalPlain, WeatherForecast("", "", 0, AboveAverage, ""), Standard);
      HistoryScore(f.history) == HistoryMaxScore && RiskScore(f) == 80 && GetRiskLevel(RiskScore(f)) == Alarm
  {
  }
}
