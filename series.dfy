/**
 * The forecast generator (`build_forecast`) and the weekly series generator
 * (`weekly_series`). Both reseed Python's global generator and then draw from
 * it day by day; here the generator is the explicit stream `rng`, where
 * `rng(s, k)` is the k-th value `random.random()` returns after
 * `random.seed(s)`, and `random.uniform(a, b)` is `Uniform(a, b, rng(s, k))`.
 */
module Series {
  import opened Numeric

  /** `rng(s, k)`: the k-th unit-interval draw after seeding with `s`. */
  type Rng = (int, nat) -> real

  /** Days in a forecast and in a weekly series. */
  const Days := 7

  /** The weekly series' fixed day labels. */
  const DayLabels: seq<string> := ["Mon", "Tue", "Wed", "Thu", "Fri", "Sat", "Sun"]

  /** The per-day shift of the forecast, the same on every day. */
  function Adjust(contextSwitching: real, recoveryBreaks: real, overloadHours: real): real
  {
    contextSwitching * 0.08 + overloadHours * 0.1 - recoveryBreaks * 0.06
  }

  /** The forecast before clamping, given the day's jitter. */
  function RawForecast(base: real, day: nat, jitter: real, adjust: real): real
  {
    base + (day * 3) as real + jitter + adjust
  }

  /**
   * Forecast day `day` (from 0): the raw value clamped to [0, 100] and
   * truncated, so its floor when in range, 0 below and 100 above.
   */
  function ForecastDay(base: real, seed: int, contextSwitching: real, recoveryBreaks: real,
                       overloadHours: real, rng: Rng, day: nat): (v: int)
    ensures 0 <= v <= 100
    ensures var raw := RawForecast(base, day, Uniform(-4.0, 4.0, rng(seed, day)),
                                   Adjust(contextSwitching, recoveryBreaks, overloadHours));
      && (0.0 <= raw <= 100.0 ==> v == raw.Floor)
      && (raw <= 0.0 ==> v == 0)
      && (100.0 <= raw ==> v == 100)
  {
    var jitter := Uniform(-4.0, 4.0, rng(seed, day));
    var adjust := Adjust(contextSwitching, recoveryBreaks, overloadHours);
    Trunc(Clamp(RawForecast(base, day, jitter, adjust), 0.0, 100.0))
  }

  /** The seven forecast days, each in [0, 100]. */
  function ForecastSpec(base: real, seed: int, contextSwitching: real, recoveryBreaks: real,
                        overloadHours: real, rng: Rng): (f: seq<int>)
    ensures |f| == Days
    ensures forall d :: 0 <= d < Days ==> 0 <= f[d] <= 100
  {
    seq(Days, d requires 0 <= d => ForecastDay(base, seed, contextSwitching, recoveryBreaks, overloadHours, rng, d))
  }

  /**
   * `build_forecast`: seven days, each the clamped, truncated sum of the base,
   * three points per day, the day's jitter in [-4, 4] and the shared shift.
   */
  method BuildForecast(base: real, seed: int, contextSwitching: real, recoveryBreaks: real,
                       overloadHours: real, rng: Rng) returns (forecast: seq<int>)
    ensures |forecast| == Days
    ensures forall d :: 0 <= d < Days ==> 0 <= forecast[d] <= 100
    ensures forecast == ForecastSpec(base, seed, contextSwitching, recoveryBreaks, overloadHours, rng)
  {
    forecast := [];
    var draws: nat := 0;
    var day: nat := 0;
    while day < Days
      invariant day <= Days && |forecast| == day && draws == day
      invariant forall d :: 0 <= d < day ==>
        forecast[d] == ForecastDay(base, seed, contextSwitching, recoveryBreaks, overloadHours, rng, d)
    {
      var jitter := Uniform(-4.0, 4.0, rng(seed, draws));
      draws := draws + 1;
      var adjust := contextSwitching * 0.08 + overloadHours * 0.1 - recoveryBreaks * 0.06;
      forecast := forecast + [Trunc(Clamp(base + (day * 3) as real + jitter + adjust, 0.0, 100.0))];
      day := day + 1;
    }
    assert forall d :: 0 <= d < Days ==>
      forecast[d] == ForecastSpec(base, seed, contextSwitching, recoveryBreaks, overloadHours, rng)[d];
  }

  /**
   * Whatever the day's draw, the forecast lies between the values the two
   * extreme jitters -4 and +4 would give.
   */
  lemma ForecastWithinJitterBand(base: real, seed: int, contextSwitching: real, recoveryBreaks: real,
                                 overloadHours: real, rng: Rng, day: nat)
    requires 0.0 <= rng(seed, day) <= 1.0
    ensures var adjust := Adjust(contextSwitching, recoveryBreaks, overloadHours);
      && Trunc(Clamp(RawForecast(base, day, -4.0, adjust), 0.0, 100.0))
         <= ForecastDay(base, seed, contextSwitching, recoveryBreaks, overloadHours, rng, day)
      && ForecastDay(base, seed, contextSwitching, recoveryBreaks, overloadHours, rng, day)
         <= Trunc(Clamp(RawForecast(base, day, 4.0, adjust), 0.0, 100.0))
  {
  }

  /**
   * The forecast depends on the generator only through the seed's first
   * seven draws: the same draws give the same forecast.
   */
  lemma ForecastDeterminedByDraws(base: real, seed: int, contextSwitching: real, recoveryBreaks: real,
                                  overloadHours: real, rng1: Rng, rng2: Rng)
    requires forall k :: 0 <= k < Days ==> rng1(seed, k) == rng2(seed, k)
    ensures ForecastSpec(base, seed, contextSwitching, recoveryBreaks, overloadHours, rng1)
         == ForecastSpec(base, seed, contextSwitching, recoveryBreaks, overloadHours, rng2)
  {
    var f1 := ForecastSpec(base, seed, contextSwitching, recoveryBreaks, overloadHours, rng1);
    var f2 := ForecastSpec(base, seed, contextSwitching, recoveryBreaks, overloadHours, rng2);
    forall d | 0 <= d < Days
      ensures f1[d] == f2[d]
    {
      assert rng1(seed, d) == rng2(seed, d);
    }
  }

  /** The weekly series: labels with parallel index and load values. */
  datatype Weekly = Weekly(labels: seq<string>, mri: seq<int>, load: seq<int>)

  /**
   * The clamped, unfloored index of weekly day `day`; its drift is the day's
   * first draw, number 2 * day of the stream.
   */
  function WeeklyDayMri(mri: int, seed: int, deepWork: real, contextSwitching: real,
                        recoveryBreaks: real, overloadHours: real, rng: Rng, day: nat): (v: real)
    ensures 0.0 <= v <= 100.0
  {
    var drift := Uniform(-6.0, 6.0, rng(seed, 2 * day));
    Clamp(mri as real + drift + deepWork * 0.04 - contextSwitching * 0.05
          + recoveryBreaks * 0.03 - overloadHours * 0.06, 0.0, 100.0)
  }

  /**
   * The load of weekly day `day`, computed from the unfloored day index; its
   * jitter is the day's second draw, number 2 * day + 1 of the stream.
   */
  function WeeklyLoad(mri: int, seed: int, deepWork: real, contextSwitching: real,
                      recoveryBreaks: real, overloadHours: real, rng: Rng, day: nat): (v: int)
    ensures 0 <= v <= 100
  {
    var dayMri := WeeklyDayMri(mri, seed, deepWork, contextSwitching, recoveryBreaks, overloadHours, rng, day);
    Trunc(Clamp(100.0 - dayMri + overloadHours * 0.2 + contextSwitching * 0.15 - recoveryBreaks * 0.1
                + Uniform(-5.0, 5.0, rng(seed, 2 * day + 1)), 0.0, 100.0))
  }

  /** The weekly series: the fixed labels, the floored day indices and the loads. */
  function WeeklySpec(mri: int, seed: int, deepWork: real, contextSwitching: real,
                      recoveryBreaks: real, overloadHours: real, rng: Rng): (w: Weekly)
    ensures w.labels == DayLabels
    ensures |w.mri| == Days && |w.load| == Days
    ensures forall d :: 0 <= d < Days ==> 0 <= w.mri[d] <= 100 && 0 <= w.load[d] <= 100
  {
    Weekly(
      DayLabels,
      seq(Days, d requires 0 <= d =>
        WeeklyDayMri(mri, seed, deepWork, contextSwitching, recoveryBreaks, overloadHours, rng, d).Floor),
      seq(Days, d requires 0 <= d =>
        WeeklyLoad(mri, seed, deepWork, contextSwitching, recoveryBreaks, overloadHours, rng, d)))
  }

  /**
   * `weekly_series`: the fixed labels and, per label, the floored day index
   * and the day's load, both in [0, 100].
   */
  method WeeklySeries(mri: int, seed: int, deepWork: real, contextSwitching: real,
                      recoveryBreaks: real, overloadHours: real, rng: Rng) returns (w: Weekly)
    ensures w.labels == DayLabels
    ensures |w.mri| == Days && |w.load| == Days
    ensures forall d :: 0 <= d < Days ==> 0 <= w.mri[d] <= 100 && 0 <= w.load[d] <= 100
    ensures w == WeeklySpec(mri, seed, deepWork, contextSwitching, recoveryBreaks, overloadHours, rng)
  {
    var labels := DayLabels;
    var mriSeries: seq<int> := [];
    var loadSeries: seq<int> := [];
    var draws: nat := 0;
    for day := 0 to |labels|
      invariant |mriSeries| == day && |loadSeries| == day && draws == 2 * day
      invariant forall d :: 0 <= d < day ==>
        mriSeries[d] == WeeklyDayMri(mri, seed, deepWork, contextSwitching, recoveryBreaks, overloadHours, rng, d).Floor
      invariant forall d :: 0 <= d < day ==>
        loadSeries[d] == WeeklyLoad(mri, seed, deepWork, contextSwitching, recoveryBreaks, overloadHours, rng, d)
    {
      var drift := Uniform(-6.0, 6.0, rng(seed, draws));
      draws := draws + 1;
      var dayMri := Clamp(mri as real + drift + deepWork * 0.04 - contextSwitching * 0.05
                          + recoveryBreaks * 0.03 - overloadHours * 0.06, 0.0, 100.0);
      mriSeries := mriSeries + [Trunc(dayMri)];
      var loadJitter := Uniform(-5.0, 5.0, rng(seed, draws));
      draws := draws + 1;
      loadSeries := loadSeries + [Trunc(Clamp(100.0 - dayMri + overloadHours * 0.2 + contextSwitching * 0.15
                                              - recoveryBreaks * 0.1 + loadJitter, 0.0, 100.0))];
    }
    w := Weekly(labels, mriSeries, loadSeries);
    ghost var spec := WeeklySpec(mri, seed, deepWork, contextSwitching, recoveryBreaks, overloadHours, rng);
    assert forall d :: 0 <= d < Days ==> w.mri[d] == spec.mri[d] && w.load[d] == spec.load[d];
  }

  /**
   * The index series depends only on each day's first draw: two streams
   * that agree on the even-numbered draws give the same index series.
   */
  lemma WeeklyIndexUsesFirstDrawOfDay(mri: int, seed: int, deepWork: real, contextSwitching: real,
                                      recoveryBreaks: real, overloadHours: real, rng1: Rng, rng2: Rng)
    requires forall d :: 0 <= d < Days ==> rng1(seed, 2 * d) == rng2(seed, 2 * d)
    ensures forall d :: 0 <= d < Days ==>
      WeeklyDayMri(mri, seed, deepWork, contextSwitching, recoveryBreaks, overloadHours, rng1, d)
      == WeeklyDayMri(mri, seed, deepWork, contextSwitching, recoveryBreaks, overloadHours, rng2, d)
  {
  }

  /**
   * The weekly series depends on the generator only through the seed's
   * first fourteen draws: the same draws give the same series.
   */
  lemma WeeklyDeterminedByDraws(mri: int, seed: int, deepWork: real, contextSwitching: real,
                                recoveryBreaks: real, overloadHours: real, rng1: Rng, rng2: Rng)
    requires forall k :: 0 <= k < 2 * Days ==> rng1(seed, k) == rng2(seed, k)
    ensures WeeklySpec(mri, seed, deepWork, contextSwitching, recoveryBreaks, overloadHours, rng1)
         == WeeklySpec(mri, seed, deepWork, contextSwitching, recoveryBreaks, overloadHours, rng2)
  {
    var w1 := WeeklySpec(mri, seed, deepWork, contextSwitching, recoveryBreaks, overloadHours, rng1);
    var w2 := WeeklySpec(mri, seed, deepWork, contextSwitching, recoveryBreaks, overloadHours, rng2);
    forall d | 0 <= d < Days
      ensures w1.mri[d] == w2.mri[d] && w1.load[d] == w2.load[d]
    {
      assert rng1(seed, 2 * d) == rng2(seed, 2 * d);
      assert rng1(seed, 2 * d + 1) == rng2(seed, 2 * d + 1);
    }
  }

  /**
   * The load is computed from the unfloored day index: with no drift, no
   * jitter and a day index of 50.5, the index entry is 50 but the load is
   * 49, not 100 - 50.
   */
  lemma LoadUsesUnflooredDayMri()
    ensures var rng: Rng := (s, k) => 0.5;
      && WeeklyDayMri(50, 0, 12.5, 0.0, 0.0, 0.0, rng, 0) == 50.5
      && WeeklyDayMri(50, 0, 12.5, 0.0, 0.0, 0.0, rng, 0).Floor == 50
      && WeeklyLoad(50, 0, 12.5, 0.0, 0.0, 0.0, rng, 0) == 49
  {
  }
}
