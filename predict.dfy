/**
 * The response assembler behind the `/predict` route: index, tier, forecast
 * base (`risk_score`), the shared seed, both series and the confidence.
 */
module Predict {
  import opened Numeric
  import opened Metrics
  import opened Risk
  import opened Series

  /** The part of the tier entry the response repeats under `risk`. */
  datatype RiskSummary = RiskSummary(tierLabel: string, level: string, pill: string)

  datatype ScoreResponse = ScoreResponse(
    mri: int,
    risk: RiskSummary,
    forecastLabel: string,
    confidence: real,
    forecast: seq<int>,
    weekly: Weekly,
    coachTip: string,
    recoveryNow: string)

  /** The forecast base: the index inverted and shifted by three metrics, in [0, 100]. */
  function RiskScore(mri: int, contextSwitching: real, recoveryBreaks: real, overloadHours: real): (r: real)
    ensures 0.0 <= r <= 100.0
    ensures var raw := 100.0 - mri as real + contextSwitching * 0.12 + overloadHours * 0.18 - recoveryBreaks * 0.1;
      0.0 <= raw <= 100.0 ==> r == raw
  {
    Clamp(100.0 - mri as real + contextSwitching * 0.12 + overloadHours * 0.18 - recoveryBreaks * 0.1, 0.0, 100.0)
  }

  /** The forecast seed: `int(mri + risk_score + stress)`, truncated toward zero. */
  function ForecastSeed(mri: int, riskScore: real, stress: real): (s: int)
    ensures var sum := mri as real + riskScore + stress;
      0.0 <= sum ==> s as real <= sum < s as real + 1.0
    ensures var sum := mri as real + riskScore + stress;
      sum < 0.0 ==> s as real - 1.0 < sum <= s as real
  {
    Trunc(mri as real + riskScore + stress)
  }

  /** The weekly series is seeded 7 past the forecast. */
  function WeeklySeed(forecastSeed: int): int
  {
    forecastSeed + 7
  }

  /** The unclamped confidence `0.7 + (mri / 100) * 0.25`. */
  function RawConfidence(mri: int): real
  {
    0.7 + (mri as real / 100.0) * 0.25
  }

  /** Python's `round(x, 2)`: the nearest hundredth, ties to an even last digit. */
  function RoundCents(x: real): (r: real)
    ensures r * 100.0 == (r * 100.0).Floor as real
    ensures NearestEven(x * 100.0, (r * 100.0).Floor)
  {
    RoundHalfEven(x * 100.0) as real / 100.0
  }

  /** `round(clamp(0.7 + (mri / 100) * 0.25, 0.7, 0.95), 2)`, always in [0.7, 0.95]. */
  function Confidence(mri: int): (c: real)
    ensures 0.7 <= c <= 0.95
  {
    var clamped := Clamp(RawConfidence(mri), 0.7, 0.95);
    RoundCentsWithin(clamped, 70, 95);
    RoundCents(clamped)
  }

  /** Rounding to hundredths keeps a value inside a range whose ends are whole hundredths. */
  lemma RoundCentsWithin(x: real, lo: int, hi: int)
    requires lo as real / 100.0 <= x <= hi as real / 100.0
    ensures lo as real / 100.0 <= RoundCents(x) <= hi as real / 100.0
  {
    RoundMonotone(lo as real, x * 100.0);
    RoundMonotone(x * 100.0, hi as real);
    RoundOfInteger(lo);
    RoundOfInteger(hi);
  }

  /**
   * For every index in [0, 100] the clamp on the confidence never bites:
   * the raw value already lies in [0.7, 0.95].
   */
  lemma ConfidenceClampInactive(mri: int)
    requires 0 <= mri <= 100
    ensures 0.7 <= RawConfidence(mri) <= 0.95
    ensures Clamp(RawConfidence(mri), 0.7, 0.95) == RawConfidence(mri)
  {
  }

  /** The forecast seed a payload leads to; the weekly seed is this plus 7. */
  function PayloadSeed(payload: Payload): int
  {
    var m := Extract(payload);
    var mri := ComputeMri(payload);
    ForecastSeed(mri, RiskScore(mri, m.contextSwitching, m.recoveryBreaks, m.overloadHours), m.stress)
  }

  /**
   * The forecast `predict` answers with: the risk score as base, drawn from
   * the stream of the forecast seed.
   */
  function ForecastOf(mri: int, m: Metrics, rng: Rng): (f: seq<int>)
    ensures |f| == Days
    ensures forall d :: 0 <= d < Days ==> 0 <= f[d] <= 100
  {
    var riskScore := RiskScore(mri, m.contextSwitching, m.recoveryBreaks, m.overloadHours);
    ForecastSpec(riskScore, ForecastSeed(mri, riskScore, m.stress),
                 m.contextSwitching, m.recoveryBreaks, m.overloadHours, rng)
  }

  /**
   * The weekly series `predict` answers with: drawn from the stream of the
   * forecast seed plus 7.
   */
  function WeeklyOf(mri: int, m: Metrics, rng: Rng): (w: Weekly)
    ensures w.labels == DayLabels
    ensures |w.mri| == Days && |w.load| == Days
    ensures forall d :: 0 <= d < Days ==> 0 <= w.mri[d] <= 100 && 0 <= w.load[d] <= 100
  {
    var riskScore := RiskScore(mri, m.contextSwitching, m.recoveryBreaks, m.overloadHours);
    WeeklySpec(mri, WeeklySeed(ForecastSeed(mri, riskScore, m.stress)), m.deepWork,
               m.contextSwitching, m.recoveryBreaks, m.overloadHours, rng)
  }

  /**
   * `resp` is the response `predict` gives for index `mri` and metrics `m`:
   * the tier's text, the rounded confidence, and both series.
   */
  predicate IsResponse(resp: ScoreResponse, mri: int, m: Metrics, rng: Rng)
  {
    var info := RiskPackage(mri);
    && resp.mri == mri
    && resp.risk == RiskSummary(info.tierLabel, info.level, info.pill)
    && resp.forecastLabel == info.forecastLabel
    && resp.coachTip == info.coachTip
    && resp.recoveryNow == info.recoveryNow
    && resp.confidence == Confidence(mri)
    && resp.forecast == ForecastOf(mri, m, rng)
    && resp.weekly == WeeklyOf(mri, m, rng)
  }

  /**
   * Everything `predict` builds once the index is known: the tier's text, a
   * confidence in [0.7, 0.95], the forecast drawn from the seed's stream with
   * the risk score as base, and the weekly series drawn from the stream of
   * the seed plus 7; both series have one value in [0, 100] per day.
   */
  method Respond(mri: int, m: Metrics, rng: Rng) returns (resp: ScoreResponse)
    ensures IsResponse(resp, mri, m, rng)
    ensures 0.7 <= resp.confidence <= 0.95
    ensures |resp.forecast| == Days
    ensures forall d :: 0 <= d < Days ==> 0 <= resp.forecast[d] <= 100
    ensures resp.weekly.labels == DayLabels
    ensures |resp.weekly.mri| == Days && |resp.weekly.load| == Days
    ensures forall d :: 0 <= d < Days ==> 0 <= resp.weekly.mri[d] <= 100 && 0 <= resp.weekly.load[d] <= 100
  {
    var risk := RiskPackage(mri);
    var riskScore := RiskScore(mri, m.contextSwitching, m.recoveryBreaks, m.overloadHours);
    var seed := ForecastSeed(mri, riskScore, m.stress);
    var forecast := BuildForecast(riskScore, seed, m.contextSwitching, m.recoveryBreaks, m.overloadHours, rng);
    var weekly := WeeklySeries(mri, WeeklySeed(seed), m.deepWork, m.contextSwitching, m.recoveryBreaks, m.overloadHours, rng);
    var confidence := Confidence(mri);

    resp := ScoreResponse(
      mri,
      RiskSummary(risk.tierLabel, risk.level, risk.pill),
      risk.forecastLabel,
      confidence,
      forecast,
      weekly,
      risk.coachTip,
      risk.recoveryNow);
  }

  /**
   * `predict`: the index of the payload, in [0, 100], and the response for
   * that index and the payload's metrics.
   */
  method Predict(payload: Payload, rng: Rng) returns (resp: ScoreResponse)
    ensures 0 <= resp.mri <= 100
    ensures IsResponse(resp, ComputeMri(payload), Extract(payload), rng)
  {
    var mri := ComputeMri(payload);
    resp := Respond(mri, Extract(payload), rng);
  }

  /**
   * Every response has a confidence in [0.7, 0.95], seven forecast values and
   * seven weekly index and load values, all in [0, 100], under the day labels.
   */
  lemma ResponseWithinBounds(resp: ScoreResponse, mri: int, m: Metrics, rng: Rng)
    requires IsResponse(resp, mri, m, rng)
    ensures 0.7 <= resp.confidence <= 0.95
    ensures |resp.forecast| == Days
    ensures forall d :: 0 <= d < Days ==> 0 <= resp.forecast[d] <= 100
    ensures resp.weekly.labels == DayLabels
    ensures |resp.weekly.mri| == Days && |resp.weekly.load| == Days
    ensures forall d :: 0 <= d < Days ==> 0 <= resp.weekly.mri[d] <= 100 && 0 <= resp.weekly.load[d] <= 100
  {
  }

  /**
   * The empty payload: index 61, the at-risk tier, risk score 50, seed
   * 61 + 50 + 5 = 116, and confidence 0.85 (0.8525 rounded).
   */
  lemma EmptyPayloadResponse()
    ensures ComputeMri(map[]) == 61
    ensures RiskPackage(61) == Info(AtRisk)
    ensures RiskScore(61, 50.0, 40.0, 50.0) == 50.0
    ensures PayloadSeed(map[]) == 116
    ensures Confidence(61) == 0.85
  {
    EmptyPayloadBaseline();
    RiskPackageByBand(61);
  }

  /** The low-strain sample payload scores above 100 before clamping and is healthy. */
  lemma LowStrainPayloadIsHealthy()
    ensures var p := map["sleep" := 8.0, "switching" := 2.0, "stress" := 2.0, "workload" := 3.0,
                         "hrv" := 7.0, "deep_work" := 60.0, "deep_work_hours" := 5.0,
                         "context_switching" := 20.0, "context_hours" := 1.0,
                         "recovery_breaks" := 70.0, "recovery_hours" := 3.0,
                         "overload_hours" := 10.0, "overload_hours_count" := 1.0];
      && Score(Extract(p)) == 149.4
      && ComputeMri(p) == 100
      && RiskPackage(ComputeMri(p)) == Info(Healthy)
  {
    RiskPackageByBand(100);
  }
}
