/** The value shapes shared by the indicator calculators. */
module Candles {

  /** Timestamps are carried through untouched; the chart library passes them as strings. */
  type Time = string

  /** One OHLC bar of the input series. */
  datatype Candle = Candle(time: Time, open: real, high: real, low: real, close: real)

  /** One point of an indicator line: `{time, value}`. */
  datatype LinePoint = LinePoint(time: Time, value: real)

  /** The closing prices of a candle series, index-aligned with it. */
  function Closes(cs: seq<Candle>): (r: seq<real>)
    ensures |r| == |cs|
    ensures forall i :: 0 <= i < |cs| ==> r[i] == cs[i].close
  {
    seq(|cs|, i requires 0 <= i < |cs| => cs[i].close)
  }
}
