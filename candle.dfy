/**
 * The `Candle` record of include/candle.h: one bar of price data. Its time
 * is a `LocalTimePoint` in seconds (see the Times module); prices are
 * `real`, the volume an integer.
 */
module Candles {
  import Times

  datatype Candle = Candle(datetime: int, open: real, high: real, low: real, close: real, volume: int)

  /** A value-initialised `Candle{}`: the epoch and zeros everywhere. */
  const Empty: Candle := Candle(0, 0.0, 0.0, 0.0, 0.0, 0)

  /** `day()` formats the date as "%F"; two candles have the same such string
      exactly when they fall on the same calendar day. */
  function Day(c: Candle): int { Times.DayOf(c.datetime) }

  /** `price()` is the close. */
  function Price(c: Candle): real { c.close }
}
