/**
 * The metric extractor and the index calculator (`compute_mri`): a loosely
 * filled payload becomes thirteen metrics, each taking a documented default
 * when its key is absent, and the metrics combine linearly into the mental
 * resource index (MRI), an integer in [0, 100].
 */
module Metrics {
  import opened Numeric

  /** A request payload: metric name to numeric value. */
  type Payload = map<string, real>

  datatype Metrics = Metrics(
    sleep: real,
    switching: real,
    stress: real,
    workload: real,
    hrv: real,
    deepWork: real,
    deepWorkHours: real,
    contextSwitching: real,
    contextHours: real,
    recoveryBreaks: real,
    recoveryHours: real,
    overloadHours: real,
    overloadHoursCount: real)

  /** The recognised metric keys and their documented defaults. */
  const Defaults: map<string, real> := map[
    "sleep" := 5.0,
    "switching" := 5.0,
    "stress" := 5.0,
    "workload" := 5.0,
    "hrv" := 5.0,
    "deep_work" := 50.0,
    "deep_work_hours" := 4.0,
    "context_switching" := 50.0,
    "context_hours" := 3.0,
    "recovery_breaks" := 40.0,
    "recovery_hours" := 2.0,
    "overload_hours" := 50.0,
    "overload_hours_count" := 4.0]

  /** `payload.get(key, default)`. */
  function Get(payload: Payload, key: string, default: real): real
  {
    if key in payload then payload[key] else default
  }

  /** The metric a recognised key names. */
  function Field(m: Metrics, key: string): real
    requires key in Defaults
  {
    match key
    case "sleep" => m.sleep
    case "switching" => m.switching
    case "stress" => m.stress
    case "workload" => m.workload
    case "hrv" => m.hrv
    case "deep_work" => m.deepWork
    case "deep_work_hours" => m.deepWorkHours
    case "context_switching" => m.contextSwitching
    case "context_hours" => m.contextHours
    case "recovery_breaks" => m.recoveryBreaks
    case "recovery_hours" => m.recoveryHours
    case "overload_hours" => m.overloadHours
    case _ => m.overloadHoursCount
  }

  /**
   * Reads the thirteen metrics: every recognised key takes the payload's
   * value when present and its documented default otherwise.
   */
  function Extract(payload: Payload): Metrics
  {
    Metrics(
      sleep := Get(payload, "sleep", 5.0),
      switching := Get(payload, "switching", 5.0),
      stress := Get(payload, "stress", 5.0),
      workload := Get(payload, "workload", 5.0),
      hrv := Get(payload, "hrv", 5.0),
      deepWork := Get(payload, "deep_work", 50.0),
      deepWorkHours := Get(payload, "deep_work_hours", 4.0),
      contextSwitching := Get(payload, "context_switching", 50.0),
      contextHours := Get(payload, "context_hours", 3.0),
      recoveryBreaks := Get(payload, "recovery_breaks", 40.0),
      recoveryHours := Get(payload, "recovery_hours", 2.0),
      overloadHours := Get(payload, "overload_hours", 50.0),
      overloadHoursCount := Get(payload, "overload_hours_count", 4.0))
  }

  /** The unrounded weighted score, before rounding and clamping. */
  function Score(m: Metrics): real
  {
    var s := 100.0 - (m.switching * 4.0 + m.stress * 5.0 + m.workload * 4.0) + (m.sleep * 5.0 + m.hrv * 3.0);
    var s := s + (m.deepWork * 0.1 + m.deepWorkHours * 1.5);
    var s := s - (m.contextSwitching * 0.15 + m.contextHours * 2.0);
    var s := s + (m.recoveryBreaks * 0.12 + m.recoveryHours * 2.0);
    s - (m.overloadHours * 0.2 + m.overloadHoursCount * 2.5)
  }

  /**
   * `compute_mri`: the score rounded half to even, then clamped to [0, 100]
   * and made an integer.
   */
  function ComputeMri(payload: Payload): (r: int)
    ensures 0 <= r <= 100
  {
    var s := Score(Extract(payload));
    RoundWithinPercent(s);
    Trunc(Clamp(RoundHalfEven(s) as real, 0.0, 100.0))
  }

  /**
   * The index is the score rounded to the nearest integer (ties to even)
   * when the score lies in [0, 100], and 0 or 100 when it lies below or above.
   */
  lemma ComputeMriRoundsScore(payload: Payload)
    ensures var s := Score(Extract(payload));
      && (s <= 0.0 ==> ComputeMri(payload) == 0)
      && (100.0 <= s ==> ComputeMri(payload) == 100)
      && (0.0 <= s <= 100.0 ==> NearestEven(s, ComputeMri(payload)))
  {
    RoundWithinPercent(Score(Extract(payload)));
  }

  /**
   * Every recognised metric is the payload's value when its key is present
   * and its documented default otherwise.
   */
  lemma ExtractReadsKey(payload: Payload, key: string)
    requires key in Defaults
    ensures Field(Extract(payload), key) == if key in payload then payload[key] else Defaults[key]
  {
  }

  /** A recognised key that is absent acts exactly as if its default were sent. */
  lemma MissingKeyActsAsDefault(payload: Payload, key: string)
    requires key in Defaults && key !in payload
    ensures Extract(payload[key := Defaults[key]]) == Extract(payload)
    ensures ComputeMri(payload[key := Defaults[key]]) == ComputeMri(payload)
  {
  }

  /** Keys outside the recognised thirteen have no effect on the index. */
  lemma UnknownKeyIgnored(payload: Payload, key: string, v: real)
    requires key !in Defaults
    ensures ComputeMri(payload[key := v]) == ComputeMri(payload)
  {
    assert Extract(payload[key := v]) == Extract(payload);
  }

  /** An empty payload scores 61.3 on the defaults and so has index 61. */
  lemma EmptyPayloadBaseline()
    ensures Score(Extract(map[])) == 61.3
    ensures ComputeMri(map[]) == 61
  {
  }
}
