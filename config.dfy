/** The trading configuration: an immutable record of named thresholds with
    the defaults of the `TradingConfig` dataclass. Floats are `real`s that the
    modelled code only copies. */
module Config {

  datatype TradingConfig = TradingConfig(
    analysisPeriodDays: int,
    tradingWindowDays: int,
    rsiOversold: real,
    rsiOverbought: real,
    macdSignalThreshold: real,
    volumeThresholdPercentile: real,
    minDailyChangePercent: real,
    maxDailyChangePercent: real,
    lookbackPeriod: int,
    stopLossPercent: real,
    takeProfitPercent: real,
    minPrice: real,
    maxPrice: real,
    minMarketCapMillions: real,
    rsiWeight: real)

  /** `TradingConfig()` with every field at its default. */
  const DEFAULT: TradingConfig := TradingConfig(
    analysisPeriodDays := 60,
    tradingWindowDays := 7,
    rsiOversold := 30.0,
    rsiOverbought := 70.0,
    macdSignalThreshold := 0.5,
    volumeThresholdPercentile := 75.0,
    minDailyChangePercent := 0.5,
    maxDailyChangePercent := 15.0,
    lookbackPeriod := 20,
    stopLossPercent := 2.0,
    takeProfitPercent := 5.0,
    minPrice := 5.0,
    maxPrice := 500.0,
    minMarketCapMillions := 1000.0,
    rsiWeight := 0.25)

  /** The defaults are the dataclass's field defaults, and they are coherent:
      the oversold level lies below the overbought one, the volatility and
      price bands are non-empty, and the periods are positive. */
  lemma DefaultsAreDataclassDefaults()
    ensures DEFAULT.analysisPeriodDays == 60 && DEFAULT.tradingWindowDays == 7
    ensures DEFAULT.rsiOversold == 30.0 && DEFAULT.rsiOverbought == 70.0
    ensures DEFAULT.macdSignalThreshold == 0.5 && DEFAULT.volumeThresholdPercentile == 75.0
    ensures DEFAULT.minDailyChangePercent == 0.5 && DEFAULT.maxDailyChangePercent == 15.0
    ensures DEFAULT.lookbackPeriod == 20
    ensures DEFAULT.stopLossPercent == 2.0 && DEFAULT.takeProfitPercent == 5.0
    ensures DEFAULT.minPrice == 5.0 && DEFAULT.maxPrice == 500.0
    ensures DEFAULT.minMarketCapMillions == 1000.0 && DEFAULT.rsiWeight == 0.25
    ensures DEFAULT.rsiOversold < DEFAULT.rsiOverbought
    ensures DEFAULT.minDailyChangePercent < DEFAULT.maxDailyChangePercent
    ensures 0.0 < DEFAULT.minPrice < DEFAULT.maxPrice
    ensures DEFAULT.analysisPeriodDays > 0 && DEFAULT.tradingWindowDays > 0 && DEFAULT.lookbackPeriod > 0
  {
  }
}
