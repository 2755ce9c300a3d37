/**
 * The streaming relative-strength-index calculator: an object that is fed
 * one candle at a time and emits nothing while it is still accumulating,
 * a seed value built from simple averages on the (period+1)-th candle, and
 * Wilder-smoothed values afterwards.
 */
module Rsi {
  import opened Wrappers
  import opened Candles

  /** The period used when the constructor is called without one. */
  const DEFAULT_PERIOD: nat := 14

  /** The upward part of a price change. */
  function Gain(change: real): real
  {
    if change > 0.0 then change else 0.0
  }

  /** The downward part of a price change, as a non-negative amount. */
  function Loss(change: real): real
  {
    if change < 0.0 then -change else 0.0
  }

  /** Sum of the gains of the price changes 1..n (change i is prices[i] - prices[i-1]). */
  function SumGains(prices: seq<real>, n: nat): real
    requires n < |prices|
  {
    if n == 0 then 0.0 else SumGains(prices, n - 1) + Gain(prices[n] - prices[n - 1])
  }

  /** Sum of the losses of the price changes 1..n. */
  function SumLosses(prices: seq<real>, n: nat): real
    requires n < |prices|
  {
    if n == 0 then 0.0 else SumLosses(prices, n - 1) + Loss(prices[n] - prices[n - 1])
  }

  /** Wilder smoothing of a running average by one new observation. */
  function Smooth(prev: real, x: real, period: nat): real
    requires period >= 1
  {
    (prev * (period - 1) as real + x) / period as real
  }

  /** The pair of running averages the calculator keeps. */
  datatype Averages = Averages(gain: real, loss: real)

  /**
   * The averages held after the whole price history `prices` was fed in:
   * simple averages of the first `period` changes, then one Wilder step per
   * later change.
   */
  function AveragesOf(prices: seq<real>, period: nat): (a: Averages)
    requires period >= 1 && |prices| > period
    ensures a.gain >= 0.0 && a.loss >= 0.0
    decreases |prices|
  {
    if |prices| == period + 1 then
      SumsNonNegative(prices, period);
      Averages(SumGains(prices, period) / period as real, SumLosses(prices, period) / period as real)
    else
      var prev := AveragesOf(prices[..|prices| - 1], period);
      var change := prices[|prices| - 1] - prices[|prices| - 2];
      SmoothNonNegative(prev.gain, Gain(change), period);
      SmoothNonNegative(prev.loss, Loss(change), period);
      Averages(Smooth(prev.gain, Gain(change), period), Smooth(prev.loss, Loss(change), period))
  }

  /** The index value for a pair of averages; 100 when there was no average loss. */
  function RsiValue(a: Averages): real
    requires a.gain >= 0.0 && a.loss >= 0.0
  {
    if a.loss == 0.0 then 100.0 else 100.0 - 100.0 / (1.0 + a.gain / a.loss)
  }

  /**
   * What a cold calculation over `candles` returns: one point per candle from
   * index `period` on, valued from the prices seen up to and including it.
   */
  function RsiSeries(candles: seq<Candle>, period: nat): seq<LinePoint>
    requires period >= 1
  {
    var n := if |candles| > period then |candles| - period else 0;
    seq(n, k requires 0 <= k < n =>
      LinePoint(candles[period + k].time, RsiValue(AveragesOf(Closes(candles)[..period + 1 + k], period))))
  }

  lemma {:induction false} SumsNonNegative(prices: seq<real>, n: nat)
    requires n < |prices|
    ensures SumGains(prices, n) >= 0.0 && SumLosses(prices, n) >= 0.0
  {
    if n > 0 {
      SumsNonNegative(prices, n - 1);
    }
  }

  lemma SmoothNonNegative(prev: real, x: real, period: nat)
    requires period >= 1 && prev >= 0.0 && x >= 0.0
    ensures Smooth(prev, x, period) >= 0.0
  {
    assert prev * (period - 1) as real >= 0.0;
  }

  /** With non-negative averages the index lies in [0, 100], and is 100 exactly when the average loss is 0. */
  lemma RsiValueInRange(a: Averages)
    requires a.gain >= 0.0 && a.loss >= 0.0
    ensures 0.0 <= RsiValue(a) <= 100.0
    ensures RsiValue(a) == 100.0 <==> a.loss == 0.0
  {
    if a.loss != 0.0 {
      var rs := a.gain / a.loss;
      assert rs >= 0.0;
      var q := 100.0 / (1.0 + rs);
      assert 0.0 < q by {
        assert 1.0 + rs > 0.0;
      }
      assert q <= 100.0 by {
        assert q * (1.0 + rs) == 100.0;
        assert q * rs >= 0.0;
      }
    }
  }

  /** Every value a cold calculation emits lies in [0, 100]. */
  lemma RsiSeriesInRange(candles: seq<Candle>, period: nat)
    requires period >= 1
    ensures forall k :: 0 <= k < |RsiSeries(candles, period)| ==>
      0.0 <= RsiSeries(candles, period)[k].value <= 100.0
  {
    var s := RsiSeries(candles, period);
    forall k | 0 <= k < |s|
      ensures 0.0 <= s[k].value <= 100.0
    {
      RsiValueInRange(AveragesOf(Closes(candles)[..period + 1 + k], period));
    }
  }

  /** A price history that never falls. */
  ghost predicate NeverFalls(prices: seq<real>)
  {
    forall i :: 1 <= i < |prices| ==> prices[i - 1] <= prices[i]
  }

  /** A price history that falls at every step. */
  ghost predicate AlwaysFalls(prices: seq<real>)
  {
    forall i :: 1 <= i < |prices| ==> prices[i - 1] > prices[i]
  }

  lemma {:induction false} NoLossesWhenNeverFalling(prices: seq<real>, n: nat)
    requires n < |prices| && NeverFalls(prices)
    ensures SumLosses(prices, n) == 0.0
  {
    if n > 0 {
      NoLossesWhenNeverFalling(prices, n - 1);
    }
  }

  /** Over a price history that never falls, the average loss stays 0 and the index is 100. */
  lemma {:induction false} NeverFallingGivesHundred(prices: seq<real>, period: nat)
    requires period >= 1 && |prices| > period && NeverFalls(prices)
    ensures AveragesOf(prices, period).loss == 0.0
    ensures RsiValue(AveragesOf(prices, period)) == 100.0
    decreases |prices|
  {
    if |prices| == period + 1 {
      NoLossesWhenNeverFalling(prices, period);
    } else {
      NeverFallingGivesHundred(prices[..|prices| - 1], period);
    }
  }

  lemma {:induction false} FallingSums(prices: seq<real>, n: nat)
    requires n < |prices| && AlwaysFalls(prices)
    ensures SumGains(prices, n) == 0.0
    ensures n > 0 ==> SumLosses(prices, n) > 0.0
  {
    if n > 0 {
      FallingSums(prices, n - 1);
      SumsNonNegative(prices, n - 1);
    }
  }

  /** Over a price history that falls at every step, the average gain stays 0, the average loss positive, and the index is 0. */
  lemma {:induction false} AlwaysFallingGivesZero(prices: seq<real>, period: nat)
    requires period >= 1 && |prices| > period && AlwaysFalls(prices)
    ensures AveragesOf(prices, period).gain == 0.0 && AveragesOf(prices, period).loss > 0.0
    ensures RsiValue(AveragesOf(prices, period)) == 0.0
    decreases |prices|
  {
    if |prices| == period + 1 {
      FallingSums(prices, period);
    } else {
      var prefix := prices[..|prices| - 1];
      AlwaysFallingGivesZero(prefix, period);
      var prev := AveragesOf(prefix, period);
      var change := prices[|prices| - 1] - prices[|prices| - 2];
      SmoothPositive(prev.loss, Loss(change), period);
    }
    NoGainGivesZero(AveragesOf(prices, period));
  }

  lemma SmoothPositive(prev: real, x: real, period: nat)
    requires period >= 1 && prev >= 0.0 && x > 0.0
    ensures Smooth(prev, x, period) > 0.0
  {
    assert prev * (period - 1) as real >= 0.0;
  }

  /** No average gain against some average loss gives an index of 0. */
  lemma NoGainGivesZero(a: Averages)
    requires a.gain == 0.0 && a.loss > 0.0
    ensures RsiValue(a) == 0.0
  {
    assert a.gain / a.loss == 0.0;
  }

  /** If all closes are equal, every emitted value is 100. */
  lemma ConstantClosesGiveHundred(candles: seq<Candle>, period: nat)
    requires period >= 1
    requires forall i, j :: 0 <= i < |candles| && 0 <= j < |candles| ==> candles[i].close == candles[j].close
    ensures forall k :: 0 <= k < |RsiSeries(candles, period)| ==> RsiSeries(candles, period)[k].value == 100.0
  {
    var s := RsiSeries(candles, period);
    forall k | 0 <= k < |s|
      ensures s[k].value == 100.0
    {
      var prices := Closes(candles)[..period + 1 + k];
      assert NeverFalls(prices) by {
        forall i | 1 <= i < |prices|
          ensures prices[i - 1] <= prices[i]
        {
          assert prices[i - 1] == candles[i - 1].close && prices[i] == candles[i].close;
        }
      }
      NeverFallingGivesHundred(prices, period);
    }
  }

  lemma ClosesPrefix(candles: seq<Candle>, m: nat, j: nat)
    requires j <= m <= |candles|
    ensures Closes(candles[..m])[..j] == Closes(candles)[..j]
  {
  }

  /** A point a cold calculation emitted stays the same when one more candle is fed. */
  lemma RsiSeriesKeepsPoint(candles: seq<Candle>, i: nat, period: nat, k: nat)
    requires period >= 1 && i < |candles| && period + k < i
    ensures k < |RsiSeries(candles[..i], period)| && k < |RsiSeries(candles[..i + 1], period)|
    ensures RsiSeries(candles[..i + 1], period)[k] == RsiSeries(candles[..i], period)[k]
  {
    ClosesPrefix(candles, i + 1, period + 1 + k);
    ClosesPrefix(candles, i, period + 1 + k);
  }

  /** A cold calculation over one more candle emits what it emitted before, plus one point once the period is filled. */
  lemma RsiSeriesStep(candles: seq<Candle>, i: nat, period: nat)
    requires period >= 1 && i < |candles|
    ensures RsiSeries(candles[..i + 1], period) ==
      if i + 1 > period then
        RsiSeries(candles[..i], period) + [LinePoint(candles[i].time, RsiValue(AveragesOf(Closes(candles[..i + 1]), period)))]
      else []
  {
    var longer := RsiSeries(candles[..i + 1], period);
    var shorter := RsiSeries(candles[..i], period);
    if i + 1 > period {
      var point := LinePoint(candles[i].time, RsiValue(AveragesOf(Closes(candles[..i + 1]), period)));
      forall k | 0 <= k < |shorter|
        ensures longer[k] == shorter[k]
      {
        RsiSeriesKeepsPoint(candles, i, period, k);
      }
      assert Closes(candles[..i + 1])[..period + 1 + |shorter|] == Closes(candles[..i + 1]);
      assert longer[|shorter|] == point;
      assert longer == shorter + [point];
    }
  }

  /** What one `update` call adds to the collected points is the next stretch of the whole-series definition. */
  lemma SeriesAfterUpdate(candles: seq<Candle>, i: nat, period: nat, before: seq<LinePoint>, after: seq<LinePoint>, r: Option<LinePoint>)
    requires period >= 1 && i < |candles|
    requires before == RsiSeries(candles[..i], period)
    requires r.None? <==> i + 1 <= period
    requires r.None? ==> after == before
    requires r.Some? ==> after == before + [r.value] && r.value.time == candles[i].time
    requires r.Some? ==> r.value.value == RsiValue(AveragesOf(Closes(candles[..i + 1]), period))
    ensures after == RsiSeries(candles[..i + 1], period)
  {
    RsiSeriesStep(candles, i, period);
  }

  /** One more price moves the averages by one Wilder step on its change. */
  lemma AveragesStep(prices: seq<real>, x: real, period: nat)
    requires period >= 1 && |prices| > period
    ensures var prev := AveragesOf(prices, period);
      var change := x - prices[|prices| - 1];
      AveragesOf(prices + [x], period) == Averages(Smooth(prev.gain, Gain(change), period), Smooth(prev.loss, Loss(change), period))
  {
    assert (prices + [x])[..|prices|] == prices;
  }

  /** Every emitted point carries the RSI of the prices seen up to its own candle. */
  ghost predicate PointsMatch(results: seq<LinePoint>, prices: seq<real>, period: nat)
    requires period >= 1 && (|results| == 0 || |results| + period <= |prices|)
  {
    forall k :: 0 <= k < |results| ==> results[k].value == RsiValue(AveragesOf(prices[..period + 1 + k], period))
  }

  /** Appending one price and the point valued from it keeps every earlier point valued from its own prefix. */
  lemma ResultsExtend(prices: seq<real>, results: seq<LinePoint>, period: nat, x: real, point: LinePoint)
    requires period >= 1 && |prices| >= period && |results| == |prices| - period
    requires PointsMatch(results, prices, period)
    requires point.value == RsiValue(AveragesOf(prices + [x], period))
    ensures PointsMatch(results + [point], prices + [x], period)
  {
    forall k | 0 <= k < |results| + 1
      ensures (results + [point])[k].value == RsiValue(AveragesOf((prices + [x])[..period + 1 + k], period))
    {
      if k < |results| {
        assert (prices + [x])[..period + 1 + k] == prices[..period + 1 + k];
      } else {
        assert (prices + [x])[..period + 1 + k] == prices + [x];
      }
    }
  }

  /** The calculator object: the price history, the emitted points and the running averages. */
  class RSIIndicator {
    const period: nat
    var prevGain: real
    var prevLoss: real
    var prices: seq<real>
    var results: seq<LinePoint>
    var initialized: bool

    /**
     * The object invariant: the calculator is initialized exactly when more
     * than `period` prices were seen, the averages are those of the price
     * history, and one point was emitted per price beyond the period.
     */
    ghost predicate Valid()
      reads this
    {
      && period >= 1
      && initialized == (|prices| > period)
      && (if initialized then Averages(prevGain, prevLoss) == AveragesOf(prices, period)
          else prevGain == 0.0 && prevLoss == 0.0)
      && |results| == (if initialized then |prices| - period else 0)
      && PointsMatch(results, prices, period)
    }

    constructor(period: nat)
      requires period >= 1
      ensures Valid() && this.period == period
      ensures prices == [] && results == [] && !initialized
    {
      this.period := period;
      prevGain, prevLoss := 0.0, 0.0;
      prices, results := [], [];
      initialized := false;
    }

    /** `new RSIIndicator()`: the default period of 14. */
    constructor WithDefaultPeriod()
      ensures Valid() && period == DEFAULT_PERIOD
      ensures prices == [] && results == [] && !initialized
    {
      period := DEFAULT_PERIOD;
      prevGain, prevLoss := 0.0, 0.0;
      prices, results := [], [];
      initialized := false;
    }

    /** Feeds one candle; emits a point once more than `period` closes were seen. */
    method Update(candle: Candle) returns (r: Option<LinePoint>)
      requires Valid()
      modifies this
      ensures Valid()
      ensures prices == old(prices) + [candle.close]
      ensures r.None? <==> |prices| <= period
      ensures r.None? ==> results == old(results) && prevGain == old(prevGain) && prevLoss == old(prevLoss)
      ensures r.Some? ==> results == old(results) + [r.value] && r.value.time == candle.time
      ensures r.Some? ==> r.value.value == RsiValue(AveragesOf(prices, period))
      ensures r.Some? ==> 0.0 <= r.value.value <= 100.0
      ensures r.Some? && old(initialized) ==>
        var change := candle.close - old(prices)[|old(prices)| - 1];
        prevGain == Smooth(old(prevGain), Gain(change), period) &&
        prevLoss == Smooth(old(prevLoss), Loss(change), period)
    {
      ghost var before := prices;
      prices := prices + [candle.close];
      if |prices| <= period {
        return None;
      }
      var point;
      if !initialized {
        point := Initialize(candle.time);
        assert prices[..period + 1] == prices;
      } else {
        assert prices[..|prices| - 1] == before;
        point := Advance(candle.time);
      }
      ResultsExtend(before, old(results), period, candle.close, point);
      RsiValueInRange(AveragesOf(prices, period));
      r := Some(point);
    }

    /**
     * The rest of `update` once the averages are seeded: one Wilder step on
     * the newest price change, and the point it gives.
     */
    method Advance(time: Time) returns (result: LinePoint)
      requires period >= 1 && |prices| > period + 1
      requires Averages(prevGain, prevLoss) == AveragesOf(prices[..|prices| - 1], period)
      modifies this
      ensures prices == old(prices) && initialized == old(initialized)
      ensures var change := prices[|prices| - 1] - prices[|prices| - 2];
        prevGain == Smooth(old(prevGain), Gain(change), period) &&
        prevLoss == Smooth(old(prevLoss), Loss(change), period)
      ensures Averages(prevGain, prevLoss) == AveragesOf(prices, period)
      ensures result == LinePoint(time, RsiValue(AveragesOf(prices, period)))
      ensures results == old(results) + [result]
    {
      var change := prices[|prices| - 1] - prices[|prices| - 2];
      var gain := if change > 0.0 then change else 0.0;
      var loss := if change < 0.0 then -change else 0.0;
      var avgGain := Smooth(prevGain, gain, period);
      var avgLoss := Smooth(prevLoss, loss, period);
      ghost var before := prices[..|prices| - 1];
      AveragesStep(before, prices[|prices| - 1], period);
      assert before + [prices[|prices| - 1]] == prices;
      prevGain := avgGain;
      prevLoss := avgLoss;
      var rsi;
      if avgLoss == 0.0 {
        rsi := 100.0;
      } else {
        var rs := avgGain / avgLoss;
        rsi := 100.0 - (100.0 / (1.0 + rs));
      }
      result := LinePoint(time, rsi);
      results := results + [result];
    }

    /** Seeds the averages from the first `period` price changes and emits the first point. */
    method Initialize(time: Time) returns (r: LinePoint)
      requires period >= 1 && |prices| > period
      modifies this
      ensures prices == old(prices) && initialized
      ensures prevGain == SumGains(prices, period) / period as real
      ensures prevLoss == SumLosses(prices, period) / period as real
      ensures prevGain >= 0.0 && prevLoss >= 0.0
      ensures r == LinePoint(time, RsiValue(Averages(prevGain, prevLoss)))
      ensures results == old(results) + [r]
    {
      var sumGain := 0.0;
      var sumLoss := 0.0;
      for i := 1 to period + 1
        invariant sumGain == SumGains(prices, i - 1)
        invariant sumLoss == SumLosses(prices, i - 1)
      {
        var change := prices[i] - prices[i - 1];
        sumGain := sumGain + (if change > 0.0 then change else 0.0);
        sumLoss := sumLoss + (if change < 0.0 then -change else 0.0);
      }
      SumsNonNegative(prices, period);
      prevGain := sumGain / period as real;
      prevLoss := sumLoss / period as real;
      var rsi;
      if prevLoss == 0.0 {
        rsi := 100.0;
      } else {
        var rs := prevGain / prevLoss;
        rsi := 100.0 - (100.0 / (1.0 + rs));
      }
      initialized := true;
      r := LinePoint(time, rsi);
      results := results + [r];
    }

    /** Resets all state, feeds every candle in order and collects the emitted points. */
    method Calculate(candles: seq<Candle>) returns (rsiData: seq<LinePoint>)
      requires period >= 1
      modifies this
      ensures Valid()
      ensures prices == Closes(candles) && results == rsiData
      ensures rsiData == RsiSeries(candles, period)
      ensures |rsiData| == if |candles| > period then |candles| - period else 0
    {
      prices := [];
      results := [];
      initialized := false;
      prevGain := 0.0;
      prevLoss := 0.0;
      rsiData := [];
      for i := 0 to |candles|
        invariant Valid()
        invariant prices == Closes(candles[..i])
        invariant rsiData == results
        invariant rsiData == RsiSeries(candles[..i], period)
      {
        ghost var before := results;
        var rsi := Update(candles[i]);
        assert Closes(candles[..i + 1]) == Closes(candles[..i]) + [candles[i].close];
        SeriesAfterUpdate(candles, i, period, before, results, rsi);
        if rsi.Some? {
          rsiData := rsiData + [rsi.value];
        }
      }
      assert candles[..|candles|] == candles;
    }
  }
}
