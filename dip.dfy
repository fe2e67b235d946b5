/** The strategy builder's dip detector: given the token's price history,
    the strategy's lots and the current price, decide whether to buy. It has
    three gates, in this order: enough data, the average-price protection,
    and a drop from the highest recent price of at least the threshold. */
module DipDetector {
  import opened Common
  import opened PriceHistory
  import opened Lots

  /** The outcome of one check, one constructor per exit of the source. */
  datatype DipCheck =
    | InsufficientData                          // fewer than two samples
    | AboveAverage(average: real)               // protection gate: price above the average entry price
    | NoRecentPrices                            // nothing inside the dip window
    | NoDip(highest: real, drop: Option<real>)  // drop below the threshold (or not a finite number)
    | Dip(highest: real, dropPercent: real)     // buy

  /** With a position open, a buy is refused while the price is above the
      average entry price. A non-finite average (open lots holding no tokens)
      never refuses, as a comparison with NaN or +Infinity is false. */
  predicate AboveAverageEntry(lots: seq<Lot>, price: real) {
    AveragePrice(lots).Some? && price > AveragePrice(lots).value
  }

  /** `checkForDipOpportunity`; `now` is the clock reading the window is cut at. */
  function CheckForDip(history: seq<PricePoint>, lots: seq<Lot>, price: real, now: int,
                       dipTimeframe: int, dipThreshold: real): (c: DipCheck)
    ensures |history| < 2 ==> c == InsufficientData
    ensures c.Dip? ==> |history| >= 2 && !AboveAverageEntry(lots, price)
    ensures c.AboveAverage? ==> AveragePrice(lots) == Some(c.average) && price > c.average
    ensures c.Dip? || c.NoDip? ==>
      var w := Window(history, now, dipTimeframe); |w| > 0 && c.highest == Highest(w)
  {
    if |history| < 2 then InsufficientData
    else
      var avg := AveragePrice(lots);
      if avg.Some? && price > avg.value then AboveAverage(avg.value)
      else
        var w := Window(history, now, dipTimeframe);
        if w == [] then NoRecentPrices
        else
          var highest := Highest(w);
          var drop := Percent(highest - price, highest);
          if AtLeast(drop, dipThreshold) then Dip(highest, drop.value) else NoDip(highest, drop)
  }

  /** The price at or below which a drop of `threshold` percent from
      `highest` is reached (the "DIP trigger" the source reports). */
  function DipTriggerPrice(highest: real, threshold: real): real {
    highest * (1.0 - threshold / 100.0)
  }

  /** For a positive high, a drop of at least `threshold` percent is the same
      as a price at or below the trigger price. */
  lemma DropVersusTrigger(highest: real, price: real, threshold: real)
    requires highest > 0.0
    ensures AtLeast(Percent(highest - price, highest), threshold) <==> price <= DipTriggerPrice(highest, threshold)
  {
    var d := (highest - price) / highest;
    assert d * highest == highest - price;
    assert Percent(highest - price, highest) == Some(d * 100.0);
    assert DipTriggerPrice(highest, threshold) == highest - highest * (threshold / 100.0);
    if d * 100.0 >= threshold {
      assert d >= threshold / 100.0;
      assert d * highest >= (threshold / 100.0) * highest;
    }
    if price <= DipTriggerPrice(highest, threshold) {
      assert d * highest >= (threshold / 100.0) * highest;
      assert d >= threshold / 100.0;
    }
  }

  /** The highest price of a window of positive prices is positive. */
  lemma HighestPositive(w: seq<PricePoint>)
    requires |w| > 0
    requires forall i :: 0 <= i < |w| ==> w[i].price > 0.0
    ensures Highest(w) > 0.0
  {
    assert w[0].price <= Highest(w);
  }

  /** When the window's high is positive (as it is when the window's prices
      are, by `HighestPositive`; samples outside the window do not matter): a
      buy happens exactly when there are at least two samples, the price is
      not above the average entry price, the dip window holds a sample, and
      the price is at or below the trigger price computed from the window's
      high (so a drop equal to the threshold buys). */
  lemma DipFiresIff(history: seq<PricePoint>, lots: seq<Lot>, price: real, now: int,
                    dipTimeframe: int, dipThreshold: real)
    requires var w := Window(history, now, dipTimeframe); |w| > 0 ==> Highest(w) > 0.0
    ensures var w := Window(history, now, dipTimeframe);
      CheckForDip(history, lots, price, now, dipTimeframe, dipThreshold).Dip? <==>
        && |history| >= 2
        && !AboveAverageEntry(lots, price)
        && |w| > 0
        && price <= DipTriggerPrice(Highest(w), dipThreshold)
  {
    var w := Window(history, now, dipTimeframe);
    DipIsDropTest(history, lots, price, now, dipTimeframe, dipThreshold);
    if |w| > 0 {
      var h := Highest(w);
      DropVersusTrigger(h, price, dipThreshold);
      var drops := AtLeast(Percent(h - price, h), dipThreshold);
      var below := price <= DipTriggerPrice(h, dipThreshold);
      assert drops == below;
    }
  }

  /** Past the first two gates, the check buys exactly on the drop test. */
  lemma DipIsDropTest(history: seq<PricePoint>, lots: seq<Lot>, price: real, now: int,
                      dipTimeframe: int, dipThreshold: real)
    ensures var w := Window(history, now, dipTimeframe);
      CheckForDip(history, lots, price, now, dipTimeframe, dipThreshold).Dip? <==>
        && |history| >= 2 && !AboveAverageEntry(lots, price) && |w| > 0
        && AtLeast(Percent(Highest(w) - price, Highest(w)), dipThreshold)
  {
  }

  /** A buy means the price fell: some sample inside the dip window is high
      enough that the current price is at or below its trigger price. */
  lemma DipMeansRecentHigh(history: seq<PricePoint>, lots: seq<Lot>, price: real, now: int,
                           dipTimeframe: int, dipThreshold: real)
    requires var w := Window(history, now, dipTimeframe); |w| > 0 ==> Highest(w) > 0.0
    requires CheckForDip(history, lots, price, now, dipTimeframe, dipThreshold).Dip?
    ensures exists p :: (p in history && p.timestamp >= now - dipTimeframe &&
      price <= DipTriggerPrice(p.price, dipThreshold))
  {
    DipFiresIff(history, lots, price, now, dipTimeframe, dipThreshold);
    var w := Window(history, now, dipTimeframe);
    var i :| 0 <= i < |w| && w[i].price == Highest(w);
    assert w[i] in w;
  }
}
