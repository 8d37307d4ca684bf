/** The signal evaluator (analyzeSignal): three filter gates, then a BUY rule
    and a SELL rule whose verdict, when both fire, is SELL's. */
module SignalEvaluator {
  import opened Market
  import VolumeProfile

  /** How many buckets the result carries. */
  const TopBucketCount := 10

  /** `|n / d|` as floating-point division produces it: finite when `d` is
      non-zero, infinite for a non-zero numerator over zero, NaN for zero over
      zero. */
  function AbsQuotient(n: real, d: real): (q: Quotient)
    ensures q.Finite? <==> d != 0.0
    ensures q.Finite? ==> q.value >= 0.0 && q.value * Abs(d) == Abs(n)
    ensures q.Infinite? <==> d == 0.0 && n != 0.0
  {
    if d != 0.0 then Finite(Abs(n / d))
    else if n != 0.0 then Infinite
    else Undefined
  }

  /** Mean bucket volume over the whole profile: total volume divided by the
      number of buckets, not by the number of bars. */
  function AverageVolume(buckets: seq<Bucket>): real
    requires buckets != []
  {
    VolumeProfile.SumVolumes(buckets) as real / |buckets| as real
  }

  /** volume / avgVolume. */
  function VolumeRatio(volume: nat, buckets: seq<Bucket>): Quotient
    requires buckets != []
  {
    AbsQuotient(volume as real, AverageVolume(buckets))
  }

  /** |((price - poc) / poc) * 100|, with the same value as |100 (price - poc) / poc|. */
  function PriceDiffPct(price: int, poc: int): Quotient
  {
    AbsQuotient(100.0 * (price - poc) as real, poc as real)
  }

  /** Gate a: the current price lies in [minPrice, maxPrice]. */
  predicate InPriceBand(price: int, c: Conditions)
  {
    c.minPrice <= price as real <= c.maxPrice
  }

  /** Gate b: traded value reaches minTradeValue, given in millions. */
  predicate TradeValueMet(tradeValue: int, c: Conditions)
  {
    tradeValue as real >= c.minTradeValue * 1000000.0
  }

  /** Gate c fails when the volume ratio is below the multiplier. */
  predicate VolumeRatioTooLow(q: Quote, p: Profile, c: Conditions)
    requires p.buckets != []
  {
    VolumeRatio(q.volume, p.buckets).Below(c.volumeMultiplier)
  }

  /** All three gates pass. */
  predicate PassesGates(q: Quote, p: Profile, c: Conditions)
    requires p.buckets != []
  {
    InPriceBand(q.currentPrice, c) && TradeValueMet(q.tradeValue, c) && !VolumeRatioTooLow(q, p, c)
  }

  /** BUY: near the POC (within pocTolerance percent), not more than 2% under
      it, and bouncing by more than bounceStrength percent. */
  predicate BuyFires(q: Quote, p: Profile, c: Conditions)
  {
    && PriceDiffPct(q.currentPrice, p.poc).AtMost(c.pocTolerance)
    && q.currentPrice as real >= p.poc as real * 0.98
    && q.priceChange > c.bounceStrength
  }

  /** SELL: more than 1% above the POC but within 3%, falling by more than 1%,
      on a volume ratio above 1.2 times the multiplier. */
  predicate SellFires(q: Quote, p: Profile, c: Conditions)
    requires p.buckets != []
  {
    && q.currentPrice as real > p.poc as real * 1.01
    && PriceDiffPct(q.currentPrice, p.poc).AtMost(3.0)
    && q.priceChange < -1.0
    && VolumeRatio(q.volume, p.buckets).Above(c.volumeMultiplier * 1.2)
  }

  function BuyStrength(priceChange: real): real
  {
    60.0 + Min(priceChange * 5.0, 30.0)
  }

  function SellStrength(priceChange: real): real
  {
    50.0 + Min(Abs(priceChange) * 5.0, 30.0)
  }

  /** The ten highest-price buckets of a descending profile. */
  function TopBuckets(buckets: seq<Bucket>): (top: seq<Bucket>)
    ensures |top| == if |buckets| < TopBucketCount then |buckets| else TopBucketCount
    ensures top == buckets[..|top|]
  {
    if |buckets| <= TopBucketCount then buckets else buckets[..TopBucketCount]
  }

  /** The evaluator's verdict stated declaratively: absent inputs and failed
      gates give None; otherwise the verdict is SELL when the SELL rule
      holds and BUY when only the BUY rule does, the strength is the winning
      rule's, and the reasons are BUY's pair followed by SELL's pair, each
      present when its rule holds. */
  function Evaluate(stock: Instrument, current: Option<Quote>, pocData: Option<Profile>, c: Conditions): Option<Analysis>
    requires pocData.Some? ==> pocData.value.buckets != []
  {
    if current.None? || pocData.None? then None
    else
      var q, p := current.value, pocData.value;
      if !PassesGates(q, p, c) then None
      else
        var buy, sell := BuyFires(q, p, c), SellFires(q, p, c);
        if !buy && !sell then None
        else
          Some(Analysis(
            stock,
            if sell then Sell else Buy,
            q.currentPrice,
            p.poc,
            q.priceChange,
            q.volume,
            Round(AverageVolume(p.buckets)),
            VolumeRatio(q.volume, p.buckets),
            Round(q.tradeValue as real / 1000000.0),
            (if buy then [BuySupport, BuyVolume] else []) + (if sell then [SellResist, SellVolume] else []),
            if sell then SellStrength(q.priceChange) else BuyStrength(q.priceChange),
            TopBuckets(p.buckets)))
  }

  /** analyzeSignal: the gates in order, then the BUY rule and the SELL rule,
      each overwriting `signal` and `signalStrength` and pushing its reasons. */
  method AnalyzeSignal(stock: Instrument, current: Option<Quote>, pocData: Option<Profile>, c: Conditions)
    returns (r: Option<Analysis>)
    requires pocData.Some? ==> pocData.value.buckets != []
    ensures r == Evaluate(stock, current, pocData, c)
  {
    if current.None? || pocData.None? {
      return None;
    }
    var q, p := current.value, pocData.value;

    if q.currentPrice as real < c.minPrice || q.currentPrice as real > c.maxPrice {
      return None;
    }
    if q.tradeValue as real < c.minTradeValue * 1000000.0 {
      return None;
    }
    var avgVolume := AverageVolume(p.buckets);
    var volumeRatio := AbsQuotient(q.volume as real, avgVolume);
    if volumeRatio.Below(c.volumeMultiplier) {
      return None;
    }

    var priceDiffFromPoc := AbsQuotient(100.0 * (q.currentPrice - p.poc) as real, p.poc as real);
    var signal: Option<Signal> := None;
    var reasons: seq<Reason> := [];
    var signalStrength: real := 0.0;

    if priceDiffFromPoc.AtMost(c.pocTolerance) {
      if q.currentPrice as real >= p.poc as real * 0.98 && q.priceChange > c.bounceStrength {
        signal := Some(Buy);
        reasons := reasons + [BuySupport];
        reasons := reasons + [BuyVolume];
        signalStrength := 60.0 + Min(q.priceChange * 5.0, 30.0);
      }
    }

    if q.currentPrice as real > p.poc as real * 1.01 && priceDiffFromPoc.AtMost(3.0) {
      if q.priceChange < -1.0 && volumeRatio.Above(c.volumeMultiplier * 1.2) {
        signal := Some(Sell);
        reasons := reasons + [SellResist];
        reasons := reasons + [SellVolume];
        signalStrength := 50.0 + Min(Abs(q.priceChange) * 5.0, 30.0);
      }
    }

    ghost var buy, sell := BuyFires(q, p, c), SellFires(q, p, c);
    assert reasons == (if buy then [BuySupport, BuyVolume] else []) + (if sell then [SellResist, SellVolume] else []);
    assert signal.None? <==> !buy && !sell;
    assert signal.Some? ==> signal.value == if sell then Sell else Buy;
    assert signal.Some? ==> signalStrength == if sell then SellStrength(q.priceChange) else BuyStrength(q.priceChange);
    if signal.None? {
      return None;
    }
    r := Some(Analysis(
      stock, signal.value, q.currentPrice, p.poc, q.priceChange, q.volume,
      Round(avgVolume), volumeRatio, Round(q.tradeValue as real / 1000000.0),
      reasons, signalStrength, TopBuckets(p.buckets)));
  }

  // ---------------------------------------------------------------------------
  // Properties of the verdict

  /** A verdict exists exactly when both inputs are present, every gate
      passes and at least one rule fires; gates are checked before rules, so
      a failing gate means None whatever the rules say. */
  lemma VerdictExactlyWhen(stock: Instrument, q: Quote, p: Profile, c: Conditions)
    requires p.buckets != []
    ensures Evaluate(stock, Some(q), Some(p), c).Some? <==>
              PassesGates(q, p, c) && (BuyFires(q, p, c) || SellFires(q, p, c))
  {
  }

  /** Absent quote or profile: no verdict. */
  lemma MissingInputNoVerdict(stock: Instrument, current: Option<Quote>, pocData: Option<Profile>, c: Conditions)
    requires pocData.Some? ==> pocData.value.buckets != []
    requires current.None? || pocData.None?
    ensures Evaluate(stock, current, pocData, c).None?
  {
  }

  /** A price outside [minPrice, maxPrice] gives no verdict, whatever the
      other fields are. */
  lemma OutOfBandNoVerdict(stock: Instrument, q: Quote, p: Profile, c: Conditions)
    requires p.buckets != []
    requires q.currentPrice as real < c.minPrice || q.currentPrice as real > c.maxPrice
    ensures Evaluate(stock, Some(q), Some(p), c).None?
  {
  }

  /** Traded value under minTradeValue million gives no verdict. */
  lemma LowTradeValueNoVerdict(stock: Instrument, q: Quote, p: Profile, c: Conditions)
    requires p.buckets != []
    requires q.tradeValue as real < c.minTradeValue * 1000000.0
    ensures Evaluate(stock, Some(q), Some(p), c).None?
  {
  }

  /** A finite volume ratio below the multiplier gives no verdict. */
  lemma LowVolumeRatioNoVerdict(stock: Instrument, q: Quote, p: Profile, c: Conditions)
    requires p.buckets != []
    requires VolumeProfile.SumVolumes(p.buckets) > 0
    requires q.volume as real / AverageVolume(p.buckets) < c.volumeMultiplier
    ensures Evaluate(stock, Some(q), Some(p), c).None?
  {
    var avg := AverageVolume(p.buckets);
    assert avg > 0.0 by {
      PositiveOverPositive(VolumeProfile.SumVolumes(p.buckets) as real, |p.buckets| as real);
    }
    assert q.volume as real / avg >= 0.0 by {
      NonNegativeOverPositive(q.volume as real, avg);
    }
  }

  lemma PositiveOverPositive(x: real, y: real)
    requires x > 0.0 && y > 0.0
    ensures x / y > 0.0
  {
  }

  lemma NonNegativeOverPositive(x: real, y: real)
    requires x >= 0.0 && y > 0.0
    ensures x / y >= 0.0
  {
  }

  /** With POC 0 the percentage distance is infinite or NaN, so neither
      rule fires and there is never a verdict. */
  lemma ZeroPocNoVerdict(stock: Instrument, q: Quote, p: Profile, c: Conditions)
    requires p.buckets != [] && p.poc == 0
    ensures Evaluate(stock, Some(q), Some(p), c).None?
  {
  }

  /** The verdict names the rule that decides it: SELL exactly when the SELL
      rule fires (it overwrites BUY), BUY exactly when only the BUY rule does. */
  lemma SellOverridesBuy(stock: Instrument, q: Quote, p: Profile, c: Conditions)
    requires p.buckets != []
    requires Evaluate(stock, Some(q), Some(p), c).Some?
    ensures Evaluate(stock, Some(q), Some(p), c).value.signal == Sell <==> SellFires(q, p, c)
    ensures Evaluate(stock, Some(q), Some(p), c).value.signal == Buy <==> BuyFires(q, p, c) && !SellFires(q, p, c)
  {
  }

  /** When both rules fire, the verdict and the strength are SELL's and the
      four reasons are there in push order. */
  lemma BothRulesFire(stock: Instrument, q: Quote, p: Profile, c: Conditions)
    requires p.buckets != []
    requires PassesGates(q, p, c) && BuyFires(q, p, c) && SellFires(q, p, c)
    ensures var r := Evaluate(stock, Some(q), Some(p), c);
      && r.Some?
      && r.value.signal == Sell
      && r.value.signalStrength == SellStrength(q.priceChange)
      && r.value.reasons == [BuySupport, BuyVolume, SellResist, SellVolume]
  {
  }

  /** The reasons are the winning rules' pairs, in order: two for one rule,
      four when both fire. */
  lemma ReasonsOfVerdict(stock: Instrument, q: Quote, p: Profile, c: Conditions)
    requires p.buckets != []
    requires Evaluate(stock, Some(q), Some(p), c).Some?
    ensures var rs := Evaluate(stock, Some(q), Some(p), c).value.reasons;
      && |rs| == (if BuyFires(q, p, c) then 2 else 0) + (if SellFires(q, p, c) then 2 else 0)
      && (BuyFires(q, p, c) ==> rs[..2] == [BuySupport, BuyVolume])
      && (SellFires(q, p, c) ==> rs[|rs| - 2..] == [SellResist, SellVolume])
  {
  }

  /** BUY strength: at most 90 always, and above 60 when bounceStrength is
      not negative. */
  lemma BuyStrengthBounds(stock: Instrument, q: Quote, p: Profile, c: Conditions)
    requires p.buckets != []
    requires Evaluate(stock, Some(q), Some(p), c).Some?
    requires Evaluate(stock, Some(q), Some(p), c).value.signal == Buy
    ensures Evaluate(stock, Some(q), Some(p), c).value.signalStrength <= 90.0
    ensures c.bounceStrength >= 0.0 ==> Evaluate(stock, Some(q), Some(p), c).value.signalStrength > 60.0
  {
  }

  /** SELL strength lies in (55, 80]: the rule needs a fall of more than 1%. */
  lemma SellStrengthBounds(stock: Instrument, q: Quote, p: Profile, c: Conditions)
    requires p.buckets != []
    requires Evaluate(stock, Some(q), Some(p), c).Some?
    requires Evaluate(stock, Some(q), Some(p), c).value.signal == Sell
    ensures 55.0 < Evaluate(stock, Some(q), Some(p), c).value.signalStrength <= 80.0
  {
  }

  /** The result carries the quote's fields, the rounded average volume, the
      traded value rounded in millions and the first ten buckets of the
      profile, which for a descending profile are the ten highest prices. */
  lemma ResultShape(stock: Instrument, q: Quote, p: Profile, c: Conditions)
    requires p.buckets != []
    requires VolumeProfile.StrictlyDescending(p.buckets)
    requires Evaluate(stock, Some(q), Some(p), c).Some?
    ensures var a := Evaluate(stock, Some(q), Some(p), c).value;
      && a.stock == stock && a.currentPrice == q.currentPrice && a.poc == p.poc
      && a.priceChange == q.priceChange && a.volume == q.volume
      && AverageVolume(p.buckets) - 0.5 < a.avgVolume as real <= AverageVolume(p.buckets) + 0.5
      && q.tradeValue as real / 1000000.0 - 0.5 < a.tradeValue as real <= q.tradeValue as real / 1000000.0 + 0.5
      && |a.topBuckets| <= TopBucketCount
      && (forall i :: 0 <= i < |a.topBuckets| ==> a.topBuckets[i] == p.buckets[i])
      && (forall b, o :: b in a.topBuckets && o in p.buckets[|a.topBuckets|..] ==> b.price > o.price)
  {
    var a := Evaluate(stock, Some(q), Some(p), c).value;
    var n := |a.topBuckets|;
    forall b, o | b in a.topBuckets && o in p.buckets[n..]
      ensures b.price > o.price
    {
      var i :| 0 <= i < n && a.topBuckets[i] == b;
      var j :| 0 <= j < |p.buckets[n..]| && p.buckets[n..][j] == o;
      assert p.buckets[i] == b && p.buckets[n + j] == o;
    }
  }

  /** An example: price 10100 up 2% on volume 900 and traded value
      9,090,000,000 against POC 10000 and average bucket volume 300, under the
      default conditions, is a BUY of strength 70. */
  lemma BuyExample(stock: Instrument)
    ensures var q := Quote(10100, 2.0, 900, 9090000000);
      var p := Profile(10000, [Bucket(10000, 300)]);
      var r := Evaluate(stock, Some(q), Some(p), DefaultConditions);
      r.Some? && r.value.signal == Buy && r.value.signalStrength == 70.0
        && r.value.volumeRatio == Finite(3.0) && r.value.reasons == [BuySupport, BuyVolume]
  {
    var q := Quote(10100, 2.0, 900, 9090000000);
    var p := Profile(10000, [Bucket(10000, 300)]);
    assert [Bucket(10000, 300)][1..] == [];
    assert VolumeProfile.SumVolumes(p.buckets) == 300;
    assert AverageVolume(p.buckets) == 300.0;
    assert VolumeRatio(q.volume, p.buckets) == Finite(3.0);
    assert PriceDiffPct(q.currentPrice, p.poc) == Finite(1.0);
    assert !SellFires(q, p, DefaultConditions);
  }
}
