/**
 * The matrix-series indicator: option defaults and the `calculate` pipeline
 * that turns candles into synthetic trend candles, up/down lines and
 * support/resistance lines. The pipeline only maps and reduces, so it is a
 * function; the series transforms it uses live in module SeriesTransforms.
 */
module MatrixSeries {
  import opened Wrappers
  import opened Candles
  import opened SeriesTransforms

  // ---------------------------------------------------------------- options

  /** The constructor's `options` object; an absent key is `None`. */
  datatype Options = Options(
    smoother: Option<nat>,
    supResPeriod: Option<nat>,
    supResPercentage: Option<real>,
    pricePeriod: Option<nat>,
    ob: Option<real>,
    os: Option<real>,
    showObOs: Option<bool>,
    dynamic: Option<bool>,
    trendThreshold: Option<real>)

  /** `new MatrixSeries()` with no options. */
  const NoOptions := Options(None, None, None, None, None, None, None, None, None)

  /** The parameters an instance holds after construction. */
  datatype Config = Config(
    smoother: nat,
    supResPeriod: nat,
    supResPercentage: real,
    pricePeriod: nat,
    ob: real,
    os: real,
    showObOs: bool,
    dynamic: bool,
    trendThreshold: real)

  /** JavaScript `x || d` on a count: an absent or zero option falls back to the default. */
  function OrNat(x: Option<nat>, d: nat): nat
  {
    if x.Some? && x.value != 0 then x.value else d
  }

  /** JavaScript `x || d` on a number. */
  function OrReal(x: Option<real>, d: real): real
  {
    if x.Some? && x.value != 0.0 then x.value else d
  }

  /** JavaScript `x || d` on a flag: an absent or false option falls back to the default. */
  function OrBool(x: Option<bool>, d: bool): bool
  {
    if x.Some? && x.value then true else d
  }

  /**
   * The constructor's defaults. Because every option goes through `||`, a
   * zero never survives, and `dynamic || true` is true whatever was passed.
   */
  function NewConfig(opts: Options): (c: Config)
    ensures c.dynamic
    ensures c.smoother >= 1 && c.supResPeriod >= 1 && c.pricePeriod >= 1
    ensures c.supResPercentage != 0.0 && c.ob != 0.0 && c.os != 0.0 && c.trendThreshold != 0.0
    ensures c.showObOs <==> opts.showObOs == Some(true)
    ensures opts.smoother.Some? && opts.smoother.value != 0 ==> c.smoother == opts.smoother.value
    ensures opts.supResPeriod.Some? && opts.supResPeriod.value != 0 ==> c.supResPeriod == opts.supResPeriod.value
    ensures opts.pricePeriod.Some? && opts.pricePeriod.value != 0 ==> c.pricePeriod == opts.pricePeriod.value
    ensures opts.ob.Some? && opts.ob.value != 0.0 ==> c.ob == opts.ob.value
    ensures opts.os.Some? && opts.os.value != 0.0 ==> c.os == opts.os.value
    ensures opts.supResPercentage.Some? && opts.supResPercentage.value != 0.0 ==>
      c.supResPercentage == opts.supResPercentage.value
    ensures opts.trendThreshold.Some? && opts.trendThreshold.value != 0.0 ==>
      c.trendThreshold == opts.trendThreshold.value
    ensures opts.smoother.None? || opts.smoother == Some(0) ==> c.smoother == 5
    ensures opts.supResPeriod.None? || opts.supResPeriod == Some(0) ==> c.supResPeriod == 50
    ensures opts.supResPercentage.None? || opts.supResPercentage == Some(0.0) ==> c.supResPercentage == 100.0
    ensures opts.pricePeriod.None? || opts.pricePeriod == Some(0) ==> c.pricePeriod == 16
    ensures opts.ob.None? || opts.ob == Some(0.0) ==> c.ob == 200.0
    ensures opts.os.None? || opts.os == Some(0.0) ==> c.os == -200.0
    ensures opts.trendThreshold.None? || opts.trendThreshold == Some(0.0) ==> c.trendThreshold == 0.05
    ensures opts == NoOptions ==> c == Config(5, 50, 100.0, 16, 200.0, -200.0, false, true, 0.05)
  {
    Config(
      OrNat(opts.smoother, 5),
      OrNat(opts.supResPeriod, 50),
      OrReal(opts.supResPercentage, 100.0),
      OrNat(opts.pricePeriod, 16),
      OrReal(opts.ob, 200.0),
      OrReal(opts.os, -200.0),
      OrBool(opts.showObOs, false),
      OrBool(opts.dynamic, true),
      OrReal(opts.trendThreshold, 0.05))
  }

  // ---------------------------------------------------------------- arithmetic

  function Abs(x: real): real
  {
    if x < 0.0 then -x else x
  }

  /** `Math.min(a, b)`. */
  function MinReal(a: real, b: real): real
  {
    if a <= b then a else b
  }

  /** `Math.max(a, b)`. */
  function MaxReal(a: real, b: real): real
  {
    if a >= b then a else b
  }

  /** The arithmetic mean, `reduce(+) / length`. */
  function Mean(s: seq<real>): real
    requires |s| > 0
  {
    Sum(s) / |s| as real
  }

  // ---------------------------------------------------------------- trend

  /** The weighted price (high + low + 2 close) / 4. */
  function Composite(c: Candle): real
  {
    (c.high + c.low + c.close * 2.0) / 4.0
  }

  function Composites(candles: seq<Candle>): (r: seq<real>)
    ensures |r| == |candles|
    ensures forall i :: 0 <= i < |candles| ==> r[i] == Composite(candles[i])
  {
    seq(|candles|, i requires 0 <= i < |candles| => Composite(candles[i]))
  }

  /**
   * The relative gap between the up and down lines, measured against their
   * mean magnitude: zero when both lines are zero, bounded by 2 in size and
   * of the same sign as up - down.
   */
  function TrendStrength(up: real, down: real): (t: real)
    ensures Abs(up) + Abs(down) == 0.0 ==> t == 0.0
    ensures -2.0 <= t <= 2.0
    ensures t > 0.0 <==> up > down
    ensures t < 0.0 <==> up < down
  {
    var denominator := (Abs(up) + Abs(down)) / 2.0;
    if denominator != 0.0 then
      QuotientBounds(up - down, denominator);
      (up - down) / denominator
    else 0.0
  }

  /** A quotient by a positive number keeps the sign of the dividend and its bound. */
  lemma QuotientBounds(x: real, d: real)
    requires d > 0.0 && -2.0 * d <= x <= 2.0 * d
    ensures -2.0 <= x / d <= 2.0
    ensures x / d > 0.0 <==> x > 0.0
    ensures x / d < 0.0 <==> x < 0.0
  {
    var q := x / d;
    assert q * d == x;
    assert (2.0 - q) * d == 2.0 * d - x;
    assert (q + 2.0) * d == x + 2.0 * d;
  }

  /** An up-trend: the up line is above the down line and the trend is strong. */
  predicate IsUptrend(up: real, down: real, threshold: real)
  {
    up > down && Abs(TrendStrength(up, down)) > threshold
  }

  const UP_COLOR: string := "#4CAF50"
  const DOWN_COLOR: string := "#FF5252"

  /** One bar of the candlestick series the indicator draws. */
  datatype MatrixCandle = MatrixCandle(time: Time, open: real, high: real, low: real, close: real, color: string)

  /** The wicks enclose the body. */
  predicate WellFormed(c: MatrixCandle)
  {
    c.low <= MinReal(c.open, c.close) && MaxReal(c.open, c.close) <= c.high
  }

  /**
   * The synthetic candle spanned by the up and down values: a rising green
   * body in an up-trend, a falling red one otherwise, with wicks of a tenth
   * of the body on each side.
   */
  function SyntheticCandle(time: Time, up: real, down: real, threshold: real): (c: MatrixCandle)
    ensures c.time == time
    ensures WellFormed(c)
    ensures {c.open, c.close} == {up, down}
    ensures c.high - c.low == 1.2 * (MaxReal(up, down) - MinReal(up, down))
    ensures c.open < c.close <==> IsUptrend(up, down, threshold)
    ensures IsUptrend(up, down, threshold) ==> up > down
    ensures c.color == (if c.open < c.close then UP_COLOR else DOWN_COLOR)
  {
    var uptrend := IsUptrend(up, down, threshold);
    var minVal := MinReal(up, down);
    var maxVal := MaxReal(up, down);
    var wick := (maxVal - minVal) * 0.1;
    MatrixCandle(
      time,
      if uptrend then minVal else maxVal,
      maxVal + wick,
      minVal - wick,
      if uptrend then maxVal else minVal,
      if uptrend then UP_COLOR else DOWN_COLOR)
  }

  // ---------------------------------------------------------------- pipeline

  /**
   * `rk5`: each composite price's distance from its EMA, scaled by 200 over
   * the rolling standard deviation floored at a ten-thousandth of the mean price.
   */
  function Normalized(comp: seq<real>, smoother: nat, sqrt: SqrtFn): (rk5: seq<real>)
    requires smoother >= 1
    requires |comp| > 0 && Mean(comp) > 0.0
    ensures |rk5| == |comp|
  {
    var rk3 := EmaSeries(comp, Alpha(smoother));
    var rk4 := Stddev(comp, smoother, sqrt);
    var minStd := Mean(comp) * 0.0001;
    seq(|comp|, i requires 0 <= i < |comp| => (comp[i] - rk3[i]) * 200.0 / MaxReal(rk4[i], minStd))
  }

  /** The window function of `osc`: the sum of deviations from the mean over the floored standard deviation. */
  function OscWindow(w: seq<real>, sqrt: SqrtFn): real
    requires |w| > 0
  {
    var mean := Sum(w) / |w| as real;
    var diffs := Deviations(w, mean);
    var variance := SqDevSum(w, mean) / |w| as real;
    Sum(diffs) / MaxReal(sqrt(variance), 0.0001)
  }

  /** The price oscillator: `rolling(closes, pricePeriod, OscWindow)`. */
  function Osc(closes: seq<real>, pricePeriod: nat, sqrt: SqrtFn): seq<Option<real>>
    requires pricePeriod >= 1
  {
    Rolling(closes, pricePeriod, (w: seq<real>) requires |w| > 0 => OscWindow(w, sqrt))
  }

  /** Support and resistance lines, each `null` where either rolling extreme is. */
  datatype Lines = Lines(support: seq<Option<real>>, resistance: seq<Option<real>>)

  /**
   * One index of the support/resistance band from the rolling maximum and
   * minimum there (`value2`, `value3`): the resistance sits `percentage`% of
   * the range above the minimum, the support as far below the maximum. Both
   * are null unless both extremes are defined, and their gap is
   * (2 percentage / 100 - 1) times the range.
   */
  function Band(max: Option<real>, min: Option<real>, percentage: real): (b: (Option<real>, Option<real>))
    ensures b.0.Some? == b.1.Some? == (max.Some? && min.Some?)
    ensures b.0.Some? ==>
      b.1.value - b.0.value == (2.0 * percentage / 100.0 - 1.0) * (max.value - min.value)
    ensures b.0.Some? && percentage >= 50.0 && min.value <= max.value ==> b.0.value <= b.1.value
  {
    var value5 := if max.Some? && min.Some? then Some((max.value - min.value) * (percentage / 100.0)) else None;
    var support := if max.Some? && value5.Some? then Some(max.value - value5.value) else None;
    var resistance := if min.Some? && value5.Some? then Some(min.value + value5.value) else None;
    if support.Some? && percentage >= 50.0 && min.value <= max.value then
      assert (2.0 * percentage / 100.0 - 1.0) * (max.value - min.value) >= 0.0;
      (support, resistance)
    else (support, resistance)
  }

  /**
   * The support and resistance lines from the rolling extremes of the
   * oscillator: null exactly during the warm-up, separated by
   * (2 percentage / 100 - 1) times the rolling range, and in order whenever
   * the percentage is at least 50.
   */
  function SupportResistance(osc: seq<Option<real>>, period: nat, percentage: real): (r: Lines)
    requires period >= 1
    ensures |r.support| == |r.resistance| == |osc|
    ensures forall i :: 0 <= i < |osc| ==> (r.support[i].None? <==> i < period - 1)
    ensures forall i :: 0 <= i < |osc| ==> (r.resistance[i].None? <==> i < period - 1)
    ensures forall i :: period - 1 <= i < |osc| ==>
      r.resistance[i].value - r.support[i].value
        == (2.0 * percentage / 100.0 - 1.0) * (RollingMax(osc, period)[i].value - RollingMin(osc, period)[i].value)
    ensures percentage >= 50.0 ==>
      forall i :: period - 1 <= i < |osc| ==> r.support[i].value <= r.resistance[i].value
  {
    var value2 := RollingMax(osc, period);
    var value3 := RollingMin(osc, period);
    RollingMinAtMostMax(osc, period);
    Lines(
      seq(|osc|, i requires 0 <= i < |osc| => Band(value2[i], value3[i], percentage).0),
      seq(|osc|, i requires 0 <= i < |osc| => Band(value2[i], value3[i], percentage).1))
  }

  /** What `calculate` returns. */
  datatype Output = Output(
    matrix: seq<MatrixCandle>,
    upLine: seq<LinePoint>,
    downLine: seq<LinePoint>,
    supportLine: seq<Option<real>>,
    resistanceLine: seq<Option<real>>,
    ob: real,
    os: real)

  /** The inputs `calculate` can evaluate without dividing by zero. */
  predicate Computable(cfg: Config, candles: seq<Candle>)
  {
    && cfg.smoother >= 1 && cfg.supResPeriod >= 1 && cfg.pricePeriod >= 1
    && (|candles| == 0 || Mean(Composites(candles)) > 0.0)
  }

  /** The up and down lines: the EMA of the normalised price smoothed twice more, and once more again. */
  function UpDown(candles: seq<Candle>, smoother: nat, sqrt: SqrtFn): (r: (seq<real>, seq<real>))
    requires smoother >= 1
    requires |candles| > 0 && Mean(Composites(candles)) > 0.0
    ensures |r.0| == |r.1| == |candles|
  {
    var alpha := Alpha(smoother);
    var rk6 := EmaSeries(Normalized(Composites(candles), smoother, sqrt), alpha);
    var up := EmaSeries(rk6, alpha);
    (up, EmaSeries(up, alpha))
  }

  /** The synthetic candle series, index-aligned with the input candles. */
  function TrendCandles(candles: seq<Candle>, up: seq<real>, down: seq<real>, threshold: real): (m: seq<MatrixCandle>)
    requires |up| == |down| == |candles|
    ensures |m| == |candles|
    ensures forall i :: 0 <= i < |candles| ==> m[i] == SyntheticCandle(candles[i].time, up[i], down[i], threshold)
  {
    seq(|candles|, i requires 0 <= i < |candles| => SyntheticCandle(candles[i].time, up[i], down[i], threshold))
  }

  /** A line series pairing each input candle's time with a value. */
  function TimedLine(candles: seq<Candle>, values: seq<real>): (l: seq<LinePoint>)
    requires |values| == |candles|
    ensures |l| == |candles|
    ensures forall i :: 0 <= i < |candles| ==> l[i] == LinePoint(candles[i].time, values[i])
  {
    seq(|candles|, i requires 0 <= i < |candles| => LinePoint(candles[i].time, values[i]))
  }

  /**
   * `calculate(candles)`: index-aligned synthetic candles and up/down lines
   * carrying each input candle's time, and support/resistance lines that are
   * returned whenever `dynamic` is set.
   */
  function Calculate(cfg: Config, candles: seq<Candle>, sqrt: SqrtFn): (r: Output)
    requires Computable(cfg, candles)
    ensures |r.matrix| == |r.upLine| == |r.downLine| == |candles|
    ensures forall i :: 0 <= i < |candles| ==>
      r.matrix[i].time == r.upLine[i].time == r.downLine[i].time == candles[i].time
    ensures forall i :: 0 <= i < |candles| ==> WellFormed(r.matrix[i])
    ensures forall i :: 0 <= i < |candles| ==>
      (r.matrix[i].open < r.matrix[i].close <==> IsUptrend(r.upLine[i].value, r.downLine[i].value, cfg.trendThreshold))
    ensures forall i :: 0 <= i < |candles| && r.matrix[i].open < r.matrix[i].close ==>
      r.upLine[i].value > r.downLine[i].value && r.matrix[i].color == UP_COLOR
    ensures cfg.dynamic ==>
      Lines(r.supportLine, r.resistanceLine)
        == SupportResistance(Osc(Closes(candles), cfg.pricePeriod, sqrt), cfg.supResPeriod, cfg.supResPercentage)
    ensures !cfg.dynamic ==> r.supportLine == [] && r.resistanceLine == []
    ensures r.ob == cfg.ob && r.os == cfg.os
  {
    var lines := SupportResistance(Osc(Closes(candles), cfg.pricePeriod, sqrt), cfg.supResPeriod, cfg.supResPercentage);
    var support := if cfg.dynamic then lines.support else [];
    var resistance := if cfg.dynamic then lines.resistance else [];
    if |candles| == 0 then
      Output([], [], [], support, resistance, cfg.ob, cfg.os)
    else
      var (up, down) := UpDown(candles, cfg.smoother, sqrt);
      Output(
        TrendCandles(candles, up, down, cfg.trendThreshold),
        TimedLine(candles, up),
        TimedLine(candles, down),
        support, resistance, cfg.ob, cfg.os)
  }

  // ---------------------------------------------------------------- the oscillator is flat

  /** The deviations of a window from a fixed value. */
  function Deviations(w: seq<real>, m: real): (d: seq<real>)
    ensures |d| == |w|
    ensures forall k :: 0 <= k < |w| ==> d[k] == w[k] - m
  {
    seq(|w|, k requires 0 <= k < |w| => w[k] - m)
  }

  lemma {:induction false} SumOfDeviations(w: seq<real>, m: real)
    ensures Sum(Deviations(w, m)) == Sum(w) - |w| as real * m
    decreases |w|
  {
    if |w| > 0 {
      var n := |w|;
      assert Deviations(w, m)[..n - 1] == Deviations(w[..n - 1], m);
      SumOfDeviations(w[..n - 1], m);
    }
  }

  /**
   * Over the reals the oscillator's numerator, the sum of a window's
   * deviations from its own mean, is zero, so every window evaluates to 0.
   */
  lemma OscWindowIsZero(w: seq<real>, sqrt: SqrtFn)
    requires |w| > 0
    ensures OscWindow(w, sqrt) == 0.0
  {
    var mean := Sum(w) / |w| as real;
    var spread := MaxReal(sqrt(SqDevSum(w, mean) / |w| as real), 0.0001);
    DeviationsFromMean(w);
    ZeroQuotient(spread);
  }

  lemma ZeroQuotient(d: real)
    requires d > 0.0
    ensures 0.0 / d == 0.0
  {
  }

  /** The deviations of a window from its own mean sum to zero. */
  lemma DeviationsFromMean(w: seq<real>)
    requires |w| > 0
    ensures Sum(Deviations(w, Sum(w) / |w| as real)) == 0.0
  {
    var n := |w| as real;
    var mean := Sum(w) / n;
    assert n * mean == Sum(w);
    SumOfDeviations(w, mean);
  }

  /** The oscillator is null during its warm-up and 0 everywhere after it. */
  lemma OscIsZero(closes: seq<real>, pricePeriod: nat, sqrt: SqrtFn)
    requires pricePeriod >= 1
    ensures |Osc(closes, pricePeriod, sqrt)| == |closes|
    ensures forall i :: 0 <= i < |closes| ==>
      Osc(closes, pricePeriod, sqrt)[i] == if i < pricePeriod - 1 then None else Some(0.0)
  {
    forall i | pricePeriod - 1 <= i < |closes|
      ensures Osc(closes, pricePeriod, sqrt)[i] == Some(0.0)
    {
      OscWindowIsZero(Window(closes, pricePeriod, i), sqrt);
    }
  }

  /** A window of nulls and zeros has minimum and maximum 0. */
  lemma ZeroWindowExtremes(w: seq<Option<real>>)
    requires |w| > 0
    requires forall k :: 0 <= k < |w| ==> w[k] == None || w[k] == Some(0.0)
    ensures WindowMin(w) == 0.0 && WindowMax(w) == 0.0
  {
    assert forall k :: 0 <= k < |w| ==> AsNumber(w[k]) == 0.0;
  }

  /** Over an oscillator of nulls and zeros, the band is 0 wherever it is defined. */
  lemma FlatBand(osc: seq<Option<real>>, period: nat, percentage: real)
    requires period >= 1
    requires forall i :: 0 <= i < |osc| ==> osc[i] == None || osc[i] == Some(0.0)
    ensures var r := SupportResistance(osc, period, percentage);
      forall i :: period - 1 <= i < |osc| ==> r.support[i] == Some(0.0) && r.resistance[i] == Some(0.0)
  {
    forall i | period - 1 <= i < |osc|
      ensures RollingMax(osc, period)[i] == Some(0.0)
      ensures RollingMin(osc, period)[i] == Some(0.0)
    {
      ZeroWindowExtremes(Window(osc, period, i));
    }
  }

  /**
   * Because the oscillator is flat, the support and resistance lines that
   * `calculate` returns are 0 at every index past the warm-up, whatever the
   * candles and the percentage.
   */
  lemma SupportResistanceAreZero(cfg: Config, candles: seq<Candle>, sqrt: SqrtFn)
    requires Computable(cfg, candles) && cfg.dynamic
    ensures var r := Calculate(cfg, candles, sqrt);
      forall i :: cfg.supResPeriod - 1 <= i < |candles| ==>
        r.supportLine[i] == Some(0.0) && r.resistanceLine[i] == Some(0.0)
  {
    var osc := Osc(Closes(candles), cfg.pricePeriod, sqrt);
    OscIsZero(Closes(candles), cfg.pricePeriod, sqrt);
    assert |osc| == |candles|;
    FlatBand(osc, cfg.supResPeriod, cfg.supResPercentage);
    var r := Calculate(cfg, candles, sqrt);
    assert r.supportLine == SupportResistance(osc, cfg.supResPeriod, cfg.supResPercentage).support;
    assert r.resistanceLine == SupportResistance(osc, cfg.supResPeriod, cfg.supResPercentage).resistance;
  }
}
