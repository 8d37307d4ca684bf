/** The values the scanner passes between its stages: instruments, quotes,
    daily bars, the volume-at-price profile, the scan conditions and the
    signal record that a qualifying instrument produces. */
module Market {

  datatype Option<T> = None | Some(value: T)

  /** One entry of the fixed instrument universe. */
  datatype Instrument = Instrument(code: string, name: string, sector: string)

  /** A daily bar as the history provider hands it to the scanner. Prices are
      whole currency units (rounded or parsed as integers by the provider). */
  datatype Bar = Bar(open: int, high: int, low: int, close: int, volume: nat)

  /** The current quote of one instrument; `priceChange` is the percentage
      change from the previous close. */
  datatype Quote = Quote(currentPrice: int, priceChange: real, volume: nat, tradeValue: int)

  /** One price bin of width 100 and the volume traded in it. */
  datatype Bucket = Bucket(price: int, volume: nat)

  /** The point of control and the buckets, highest price first. */
  datatype Profile = Profile(poc: int, buckets: seq<Bucket>)

  /** Thresholds supplied by the caller for one scan. */
  datatype Conditions = Conditions(
    pocTolerance: real,
    bounceStrength: real,
    volumeMultiplier: real,
    minPrice: real,
    maxPrice: real,
    minTradeValue: real)

  /** The values the handler uses for every query parameter that is absent. */
  const DefaultConditions := Conditions(2.0, 1.0, 1.5, 5000.0, 100000.0, 1000.0)

  datatype Signal = Buy | Sell

  /** The human-readable reasons of a verdict, as tags: POC support with a
      bounce, above-average volume, POC resistance with a decline, and
      resistance on high volume. */
  datatype Reason = BuySupport | BuyVolume | SellResist | SellVolume

  /** The absolute value of a floating-point quotient: a finite value, an
      infinity (non-zero over zero) or NaN (zero over zero). */
  datatype Quotient = Finite(value: real) | Infinite | Undefined {

    /** `q <= bound` under IEEE-754 comparison (false for infinity and NaN). */
    predicate AtMost(bound: real) {
      Finite? && value <= bound
    }

    /** `q < bound` under IEEE-754 comparison (false for infinity and NaN). */
    predicate Below(bound: real) {
      Finite? && value < bound
    }

    /** `q > bound` under IEEE-754 comparison (true for infinity, false for NaN). */
    predicate Above(bound: real) {
      Infinite? || (Finite? && value > bound)
    }
  }

  /** The record the evaluator returns for an instrument with a verdict. */
  datatype Analysis = Analysis(
    stock: Instrument,
    signal: Signal,
    currentPrice: int,
    poc: int,
    priceChange: real,
    volume: nat,
    avgVolume: int,
    volumeRatio: Quotient,
    tradeValue: int,
    reasons: seq<Reason>,
    signalStrength: real,
    topBuckets: seq<Bucket>)

  function Abs(x: real): real {
    if x < 0.0 then -x else x
  }

  function Min(x: real, y: real): real {
    if x <= y then x else y
  }

  /** Math.round: the nearest integer, halves rounded up. */
  function Round(x: real): (n: int)
    ensures x - 0.5 < n as real <= x + 0.5
  {
    (x + 0.5).Floor
  }
}
