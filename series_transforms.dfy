/**
 * The series transforms of the matrix-series indicator: exponential and
 * simple moving averages, a rolling standard deviation and a generic
 * trailing-window reducer with its minimum and maximum instances. Each is a
 * specification function on values and a loop method proved equal to it.
 */
module SeriesTransforms {
  import opened Wrappers

  /** `Math.sqrt`, left abstract: any function that is non-negative on non-negative input. */
  type SqrtFn = f: real -> real | forall x :: 0.0 <= x ==> 0.0 <= f(x) witness (x: real) => 0.0

  /** `reduce((a, b) => a + b, 0)`: the left-to-right sum. */
  function Sum(s: seq<real>): real
  {
    if |s| == 0 then 0.0 else Sum(s[..|s| - 1]) + s[|s| - 1]
  }

  lemma {:induction false} SumPrepend(x: real, s: seq<real>)
    ensures Sum([x] + s) == x + Sum(s)
    decreases |s|
  {
    if |s| > 0 {
      assert ([x] + s)[..|s|] == [x] + s[..|s| - 1];
      SumPrepend(x, s[..|s| - 1]);
    }
  }

  /** The trailing window of length `period` that ends at index `i`: `data.slice(i - period + 1, i + 1)`. */
  function Window<T>(data: seq<T>, period: nat, i: nat): (w: seq<T>)
    requires 1 <= period <= i + 1 <= |data|
    ensures |w| == period
    ensures forall k :: 0 <= k < period ==> w[k] == data[i - period + 1 + k]
  {
    data[i - period + 1 .. i + 1]
  }

  // ---------------------------------------------------------------- ema

  /** The smoothing factor 2 / (period + 1). */
  function Alpha(period: nat): real
  {
    2.0 / (period as real + 1.0)
  }

  /** The exponential moving average of a non-empty series, seeded with its first element. */
  function EmaSeries(data: seq<real>, alpha: real): (r: seq<real>)
    requires |data| > 0
    ensures |r| == |data| && r[0] == data[0]
    decreases |data|
  {
    if |data| == 1 then [data[0]]
    else
      var prev := EmaSeries(data[..|data| - 1], alpha);
      prev + [alpha * data[|data| - 1] + (1.0 - alpha) * prev[|prev| - 1]]
  }

  /** `ema(data, period)`; on empty input the source returns `[data[0]]`, a single `undefined`. */
  function Ema(data: seq<real>, period: nat): seq<Option<real>>
  {
    if |data| == 0 then [None]
    else
      var r := EmaSeries(data, Alpha(period));
      seq(|data|, i requires 0 <= i < |data| => Some(r[i]))
  }

  lemma {:induction false} EmaSeriesPrefix(data: seq<real>, alpha: real, n: nat)
    requires 1 <= n <= |data|
    ensures EmaSeries(data[..n], alpha) == EmaSeries(data, alpha)[..n]
    decreases |data|
  {
    if n < |data| {
      assert data[..|data| - 1][..n] == data[..n];
      EmaSeriesPrefix(data[..|data| - 1], alpha, n);
    } else {
      assert data[..n] == data;
    }
  }

  /** Each EMA element after the first blends the input with the previous element. */
  lemma EmaSeriesStep(data: seq<real>, alpha: real, i: nat)
    requires 1 <= i < |data|
    ensures EmaSeries(data, alpha)[i] == alpha * data[i] + (1.0 - alpha) * EmaSeries(data, alpha)[i - 1]
  {
    EmaSeriesPrefix(data, alpha, i + 1);
    assert data[..i + 1][..i] == data[..i];
  }

  /**
   * The EMA keeps the input's length, starts at the first input and follows
   * result[i] = alpha * data[i] + (1 - alpha) * result[i-1]; empty input
   * gives one undefined element.
   */
  lemma EmaRecurrence(data: seq<real>, period: nat)
    ensures |data| == 0 ==> Ema(data, period) == [None]
    ensures |data| > 0 ==>
      var r := Ema(data, period);
      && |r| == |data|
      && (forall i :: 0 <= i < |r| ==> r[i].Some?)
      && r[0] == Some(data[0])
      && forall i :: 1 <= i < |r| ==>
           r[i].value == Alpha(period) * data[i] + (1.0 - Alpha(period)) * r[i - 1].value
  {
    if |data| > 0 {
      var r := Ema(data, period);
      forall i | 1 <= i < |r|
        ensures r[i].value == Alpha(period) * data[i] + (1.0 - Alpha(period)) * r[i - 1].value
      {
        EmaStep(data, period, i);
      }
    }
  }

  lemma EmaStep(data: seq<real>, period: nat, i: nat)
    requires 1 <= i < |data|
    ensures Ema(data, period)[i].value == Alpha(period) * data[i] + (1.0 - Alpha(period)) * Ema(data, period)[i - 1].value
  {
    var alpha := Alpha(period);
    var s := EmaSeries(data, alpha);
    EmaSeriesStep(data, alpha, i);
    assert Ema(data, period)[i] == Some(s[i]) && Ema(data, period)[i - 1] == Some(s[i - 1]);
  }

  method ComputeEma(data: seq<real>, period: nat) returns (result: seq<Option<real>>)
    ensures result == Ema(data, period)
  {
    var alpha := 2.0 / (period as real + 1.0);
    if |data| == 0 {
      return [None];
    }
    ghost var spec := EmaSeries(data, alpha);
    result := [Some(data[0])];
    var i := 1;
    while i < |data|
      invariant 1 <= i <= |data|
      invariant |result| == i
      invariant forall k :: 0 <= k < i ==> result[k] == Some(spec[k])
    {
      EmaSeriesStep(data, alpha, i);
      var next := alpha * data[i] + (1.0 - alpha) * result[i - 1].value;
      assert next == spec[i];
      result := result + [Some(next)];
      i := i + 1;
    }
  }

  // ---------------------------------------------------------------- sma

  /** Element `i` of `sma(data, period)`: null during the warm-up, then the mean of the trailing window. */
  function SmaAt(data: seq<real>, period: nat, i: nat): Option<real>
    requires period >= 1 && i < |data|
  {
    if i < period - 1 then None else Some(Sum(Window(data, period, i)) / period as real)
  }

  /** `sma(data, period)`. */
  function Sma(data: seq<real>, period: nat): seq<Option<real>>
    requires period >= 1
  {
    seq(|data|, i requires 0 <= i < |data| => SmaAt(data, period, i))
  }

  method ComputeSma(data: seq<real>, period: nat) returns (result: seq<Option<real>>)
    requires period >= 1
    ensures result == Sma(data, period)
    ensures |result| == |data|
    ensures forall i :: 0 <= i < |data| ==> (result[i].None? <==> i < period - 1)
    ensures forall i :: period - 1 <= i < |data| ==>
      result[i] == Some(Sum(data[i - period + 1 .. i + 1]) / period as real)
  {
    result := [];
    for i := 0 to |data|
      invariant |result| == i
      invariant forall k :: 0 <= k < i ==> result[k] == SmaAt(data, period, k)
    {
      if i < period - 1 {
        result := result + [None];
        continue;
      }
      var sum := 0.0;
      for j := 0 to period
        invariant sum == Sum(data[i - j + 1 .. i + 1])
      {
        assert data[i - j .. i + 1] == [data[i - j]] + data[i - j + 1 .. i + 1];
        SumPrepend(data[i - j], data[i - j + 1 .. i + 1]);
        sum := sum + data[i - j];
      }
      result := result + [Some(sum / period as real)];
    }
  }

  // ---------------------------------------------------------------- stddev

  /** `reduce((a, b) => a + Math.pow(b - mean, 2), 0)`: the sum of squared deviations. */
  function SqDevSum(w: seq<real>, mean: real): real
  {
    if |w| == 0 then 0.0 else SqDevSum(w[..|w| - 1], mean) + (w[|w| - 1] - mean) * (w[|w| - 1] - mean)
  }

  lemma {:induction false} SqDevSumNonNegative(w: seq<real>, mean: real)
    ensures SqDevSum(w, mean) >= 0.0
    decreases |w|
  {
    if |w| > 0 {
      SqDevSumNonNegative(w[..|w| - 1], mean);
    }
  }

  /** The population variance of one window of length `period`. */
  function WindowVariance(w: seq<real>, period: nat): (v: real)
    requires period >= 1
    ensures v >= 0.0
  {
    SqDevSumNonNegative(w, Sum(w) / period as real);
    SqDevSum(w, Sum(w) / period as real) / period as real
  }

  /** Element `i` of `stddev(data, period)`: 0 (not null) during the warm-up, then the population standard deviation of the window. */
  function StddevAt(data: seq<real>, period: nat, sqrt: SqrtFn, i: nat): real
    requires period >= 1 && i < |data|
  {
    if i < period - 1 then 0.0 else sqrt(WindowVariance(Window(data, period, i), period))
  }

  /** `stddev(data, period)`. */
  function Stddev(data: seq<real>, period: nat, sqrt: SqrtFn): seq<real>
    requires period >= 1
  {
    seq(|data|, i requires 0 <= i < |data| => StddevAt(data, period, sqrt, i))
  }

  method ComputeStddev(data: seq<real>, period: nat, sqrt: SqrtFn) returns (result: seq<real>)
    requires period >= 1
    ensures result == Stddev(data, period, sqrt)
    ensures |result| == |data|
    ensures forall i :: 0 <= i < |data| && i < period - 1 ==> result[i] == 0.0
    ensures forall i :: 0 <= i < |data| ==> result[i] >= 0.0
  {
    result := [];
    for i := 0 to |data|
      invariant |result| == i
      invariant forall k :: 0 <= k < i ==> result[k] == StddevAt(data, period, sqrt, k)
      invariant forall k :: 0 <= k < i ==> result[k] >= 0.0
    {
      if i < period - 1 {
        result := result + [0.0];
        continue;
      }
      var slice := data[i - period + 1 .. i + 1];
      var mean := Sum(slice) / period as real;
      var variance := SqDevSum(slice, mean) / period as real;
      assert variance == WindowVariance(Window(data, period, i), period);
      result := result + [sqrt(variance)];
    }
    assert forall k :: 0 <= k < |data| ==> result[k] == Stddev(data, period, sqrt)[k];
  }

  // ---------------------------------------------------------------- rolling

  /** Element `i` of `rolling(data, period, fn)`: null during the warm-up, then `fn` of the trailing window. */
  function RollingAt<T(!new), R>(data: seq<T>, period: nat, fn: seq<T> --> R, i: nat): Option<R>
    requires period >= 1 && i < |data|
    requires forall w: seq<T> :: |w| == period ==> fn.requires(w)
  {
    if i < period - 1 then None else Some(fn(Window(data, period, i)))
  }

  /** `rolling(data, period, fn)`. */
  function Rolling<T(!new), R>(data: seq<T>, period: nat, fn: seq<T> --> R): seq<Option<R>>
    requires period >= 1
    requires forall w: seq<T> :: |w| == period ==> fn.requires(w)
  {
    seq(|data|, i requires 0 <= i < |data| => RollingAt(data, period, fn, i))
  }

  method ComputeRolling<T(!new), R>(data: seq<T>, period: nat, fn: seq<T> --> R) returns (result: seq<Option<R>>)
    requires period >= 1
    requires forall w: seq<T> :: |w| == period ==> fn.requires(w)
    ensures result == Rolling(data, period, fn)
    ensures |result| == |data|
    ensures forall i :: 0 <= i < |data| ==> (result[i].None? <==> i < period - 1)
    ensures forall i :: period - 1 <= i < |data| ==> result[i] == Some(fn(data[i - period + 1 .. i + 1]))
  {
    result := [];
    for i := 0 to |data|
      invariant |result| == i
      invariant forall k :: 0 <= k < i ==> result[k] == RollingAt(data, period, fn, k)
    {
      if i < period - 1 {
        result := result + [None];
        continue;
      }
      var slice := data[i - period + 1 .. i + 1];
      assert slice == Window(data, period, i);
      result := result + [Some(fn(slice))];
    }
    assert forall k :: 0 <= k < |data| ==> result[k] == Rolling(data, period, fn)[k];
  }

  /** How `Math.min`/`Math.max` read an element: `null` counts as 0. */
  function AsNumber(v: Option<real>): real
  {
    match v
    case Some(x) => x
    case None => 0.0
  }

  /** `Math.min(...w)` on a non-empty window. */
  function WindowMin(w: seq<Option<real>>): (m: real)
    requires |w| > 0
    ensures forall k :: 0 <= k < |w| ==> m <= AsNumber(w[k])
    ensures exists k :: 0 <= k < |w| && m == AsNumber(w[k])
    decreases |w|
  {
    if |w| == 1 then AsNumber(w[0])
    else
      var rest := WindowMin(w[..|w| - 1]);
      assert forall k :: 0 <= k < |w| - 1 ==> w[..|w| - 1][k] == w[k];
      if AsNumber(w[|w| - 1]) < rest then AsNumber(w[|w| - 1]) else rest
  }

  /** `Math.max(...w)` on a non-empty window. */
  function WindowMax(w: seq<Option<real>>): (m: real)
    requires |w| > 0
    ensures forall k :: 0 <= k < |w| ==> AsNumber(w[k]) <= m
    ensures exists k :: 0 <= k < |w| && m == AsNumber(w[k])
    decreases |w|
  {
    if |w| == 1 then AsNumber(w[0])
    else
      var rest := WindowMax(w[..|w| - 1]);
      assert forall k :: 0 <= k < |w| - 1 ==> w[..|w| - 1][k] == w[k];
      if AsNumber(w[|w| - 1]) > rest then AsNumber(w[|w| - 1]) else rest
  }

  /** `rollingMin(data, period)`. */
  function RollingMin(data: seq<Option<real>>, period: nat): seq<Option<real>>
    requires period >= 1
  {
    Rolling(data, period, WindowMin)
  }

  /** `rollingMax(data, period)`. */
  function RollingMax(data: seq<Option<real>>, period: nat): seq<Option<real>>
    requires period >= 1
  {
    Rolling(data, period, WindowMax)
  }

  /** Where both are defined, the rolling minimum never exceeds the rolling maximum. */
  lemma RollingMinAtMostMax(data: seq<Option<real>>, period: nat)
    requires period >= 1
    ensures |RollingMin(data, period)| == |RollingMax(data, period)| == |data|
    ensures forall i :: 0 <= i < |data| ==>
      (RollingMin(data, period)[i].None? <==> RollingMax(data, period)[i].None?)
    ensures forall i :: 0 <= i < |data| && RollingMin(data, period)[i].Some? ==>
      RollingMin(data, period)[i].value <= RollingMax(data, period)[i].value
  {
    forall i | 0 <= i < |data| && RollingMin(data, period)[i].Some?
      ensures RollingMin(data, period)[i].value <= RollingMax(data, period)[i].value
    {
      var w := Window(data, period, i);
      assert WindowMin(w) <= AsNumber(w[0]) <= WindowMax(w);
    }
  }

  method ComputeRollingMin(data: seq<Option<real>>, period: nat) returns (result: seq<Option<real>>)
    requires period >= 1
    ensures result == RollingMin(data, period)
  {
    result := ComputeRolling(data, period, WindowMin);
  }

  method ComputeRollingMax(data: seq<Option<real>>, period: nat) returns (result: seq<Option<real>>)
    requires period >= 1
    ensures result == RollingMax(data, period)
  {
    result := ComputeRolling(data, period, WindowMax);
  }
}
