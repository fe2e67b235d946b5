/** `TradingStrategy`: the per-position trading system. Each token has at
    most one position; a position is opened by a buy, watched by a monitor
    that updates its unrealized P&L, high-water mark and trailing stop, and
    closed by a sell triggered by the profit target, the stop loss or the
    trailing stop. The JavaScript Map of positions (token -> position, in
    insertion order) is a sequence of positions with distinct tokens. */
module Trading {
  import opened Common
  import opened Engine
  import DipDetector

  // ---------------------------------------------------------------------
  // Configuration
  // ---------------------------------------------------------------------

  /** The environment settings the configuration is read from. A numeric
      setting is None when it is unset or does not parse (`parseFloat` or
      `parseInt` yields NaN); a flag is the raw string, None when unset. */
  datatype Env = Env(
    profitTarget: Option<real>,
    dipBuyThreshold: Option<real>,
    maxSlippage: Option<real>,
    priceCheckInterval: Option<int>,
    enableDipBuying: Option<string>,
    enableAutoSell: Option<string>,
    maxPositionSize: Option<real>,
    maxOpenPositions: Option<int>,
    stopLossThreshold: Option<real>,
    trailingStop: Option<real>,
    enableTrailingStop: Option<string>,
    minProfitForTrailing: Option<real>)

  datatype Config = Config(
    profitTarget: real,
    dipBuyThreshold: real,
    maxSlippage: real,
    priceCheckInterval: int,
    enableDipBuying: bool,
    enableAutoSell: bool,
    maxPositionSize: real,
    maxOpenPositions: int,
    stopLossThreshold: real,
    trailingStop: real,
    enableTrailingStop: bool,
    minProfitForTrailing: real)

  /** `parseFloat(setting) || d`: NaN and 0 are falsy and give the default. */
  function NumberOr(x: Option<real>, d: real): real {
    if x.Some? && x.value != 0.0 then x.value else d
  }

  function IntOr(x: Option<int>, d: int): int {
    if x.Some? && x.value != 0 then x.value else d
  }

  /** `setting === 'true'`. */
  predicate IsTrue(x: Option<string>) {
    x == Some("true")
  }

  /** The auto-sell flag as written: `setting === 'true' || true`. */
  predicate AutoSellAsWritten(x: Option<string>) {
    IsTrue(x) || true
  }

  /** As written, the auto-sell flag is on whatever the setting says. */
  lemma AutoSellCannotBeDisabled()
    ensures AutoSellAsWritten(Some("false"))
    ensures forall x :: AutoSellAsWritten(x)
  {
  }

  /** The auto-sell flag as evidently intended: on by default, off when the
      setting is `'false'`. */
  predicate AutoSell(x: Option<string>) {
    x != Some("false")
  }

  lemma AutoSellDefaultsOnAndCanBeDisabled()
    ensures AutoSell(None) && AutoSell(Some("true"))
    ensures !AutoSell(Some("false"))
  {
  }

  /** The configuration the constructor builds (with the corrected auto-sell
      flag). */
  function ConfigFrom(e: Env): Config {
    Config(
      profitTarget := NumberOr(e.profitTarget, 1.0),
      dipBuyThreshold := NumberOr(e.dipBuyThreshold, 1.0),
      maxSlippage := NumberOr(e.maxSlippage, 1.0),
      priceCheckInterval := IntOr(e.priceCheckInterval, 5000),
      enableDipBuying := IsTrue(e.enableDipBuying),
      enableAutoSell := AutoSell(e.enableAutoSell),
      maxPositionSize := NumberOr(e.maxPositionSize, 100.0),
      maxOpenPositions := IntOr(e.maxOpenPositions, 5),
      stopLossThreshold := NumberOr(e.stopLossThreshold, -5.0),
      trailingStop := NumberOr(e.trailingStop, 0.5),
      enableTrailingStop := IsTrue(e.enableTrailingStop),
      minProfitForTrailing := NumberOr(e.minProfitForTrailing, 2.0))
  }

  const NoSettings := Env(None, None, None, None, None, None, None, None, None, None, None, None)

  /** With nothing set: 1% target, 1% dip, 1% slippage, a 5 s interval, dip
      buying and trailing stop off, auto-sell on, at most 100 WLD per
      position and 5 positions, a -5% stop loss, a 0.5% trailing stop armed
      from 2% profit. */
  lemma DefaultConfig()
    ensures ConfigFrom(NoSettings)
      == Config(1.0, 1.0, 1.0, 5000, false, true, 100.0, 5, -5.0, 0.5, false, 2.0)
  {
  }

  /** No numeric parameter is ever 0; a non-zero setting is taken as given. */
  lemma ConfigFromSettings(e: Env)
    ensures var c := ConfigFrom(e);
      && c.profitTarget != 0.0 && c.dipBuyThreshold != 0.0 && c.maxSlippage != 0.0
      && c.priceCheckInterval != 0 && c.maxPositionSize != 0.0 && c.maxOpenPositions != 0
      && c.stopLossThreshold != 0.0 && c.trailingStop != 0.0 && c.minProfitForTrailing != 0.0
    ensures e.maxOpenPositions.Some? && e.maxOpenPositions.value != 0 ==>
      ConfigFrom(e).maxOpenPositions == e.maxOpenPositions.value
    ensures e.maxPositionSize.Some? && e.maxPositionSize.value != 0.0 ==>
      ConfigFrom(e).maxPositionSize == e.maxPositionSize.value
    ensures e.stopLossThreshold.Some? && e.stopLossThreshold.value != 0.0 ==>
      ConfigFrom(e).stopLossThreshold == e.stopLossThreshold.value
  {
  }

  // ---------------------------------------------------------------------
  // Positions
  // ---------------------------------------------------------------------

  datatype Status = Open | Closed

  datatype TradeKind = BuyTrade | SellTrade

  /** An entry of a position's trade list (the gas used is not modelled). */
  datatype TradeRecord = TradeRecord(
    kind: TradeKind,
    timestamp: int,
    price: real,
    amountWLD: real,
    amountToken: real,
    txHash: string,
    reason: Option<string>)

  /** The exit fields a close adds to a position. */
  datatype Exit = Exit(
    price: real,
    amountWLD: real,
    timestamp: int,
    txHash: string,
    realizedPnL: real,
    realizedPnLPercent: Option<real>,
    reason: string)

  datatype Position = Position(
    id: string,
    tokenAddress: string,
    walletAddress: string,
    status: Status,
    entryPrice: real,
    entryAmountWLD: real,
    entryAmountToken: real,
    entryTimestamp: int,
    entryTxHash: string,
    currentPrice: real,
    currentValue: real,
    unrealizedPnL: real,
    unrealizedPnLPercent: Option<real>,
    profitTarget: real,
    stopLoss: real,
    highestPrice: real,
    trailingStopPrice: Option<real>,
    trades: seq<TradeRecord>,
    exit: Option<Exit>)

  /** The positions Map holds one position per token. */
  predicate DistinctTokens(ps: seq<Position>) {
    forall i, j :: 0 <= i < j < |ps| ==> ps[i].tokenAddress != ps[j].tokenAddress
  }

  /** Where the Map keeps the position of `token`, if it has one. */
  function Find(ps: seq<Position>, token: string): (r: Option<nat>)
    ensures r.Some? ==> r.value < |ps| && ps[r.value].tokenAddress == token
    ensures r.Some? ==> forall j :: 0 <= j < r.value ==> ps[j].tokenAddress != token
    ensures r.None? ==> forall j :: 0 <= j < |ps| ==> ps[j].tokenAddress != token
  {
    if ps == [] then None
    else if ps[0].tokenAddress == token then Some(0)
    else
      var r := Find(ps[1..], token);
      if r.Some? then Some(r.value + 1) else None
  }

  /** `positions.get(token)`. */
  function Lookup(ps: seq<Position>, token: string): Option<Position> {
    var k := Find(ps, token);
    if k.Some? then Some(ps[k.value]) else None
  }

  /** `positions.set(p.tokenAddress, p)`: an existing entry is replaced in
      place, a new one is added at the end. */
  function Put(ps: seq<Position>, p: Position): (r: seq<Position>)
    ensures |r| == |ps| + (if Find(ps, p.tokenAddress).Some? then 0 else 1)
    ensures forall x :: x in r ==> x == p || x in ps
  {
    var k := Find(ps, p.tokenAddress);
    if k.Some? then ps[k.value := p] else ps + [p]
  }

  lemma FindUpdate(ps: seq<Position>, i: nat, p: Position, t: string)
    requires i < |ps| && ps[i].tokenAddress == p.tokenAddress
    ensures Find(ps[i := p], t) == Find(ps, t)
    decreases |ps|
  {
    if ps[0].tokenAddress != t && i > 0 {
      assert ps[i := p][1..] == ps[1..][i - 1 := p];
      FindUpdate(ps[1..], i - 1, p, t);
    } else if ps[0].tokenAddress != t {
      assert ps[i := p][1..] == ps[1..];
    }
  }

  lemma FindAppend(ps: seq<Position>, p: Position, t: string)
    requires Find(ps, t).Some? || t != p.tokenAddress
    ensures Find(ps + [p], t) == Find(ps, t)
    decreases |ps|
  {
    if ps != [] && ps[0].tokenAddress != t {
      assert (ps + [p])[1..] == ps[1..] + [p];
      FindAppend(ps[1..], p, t);
    }
  }

  lemma {:induction false} FindLast(ps: seq<Position>, p: Position)
    requires Find(ps, p.tokenAddress).None?
    ensures Find(ps + [p], p.tokenAddress) == Some(|ps|)
    decreases |ps|
  {
    if ps != [] {
      assert (ps + [p])[1..] == ps[1..] + [p];
      FindLast(ps[1..], p);
    }
  }

  /** After `positions.set`, the token's entry is the new position and
      every other token's entry is what it was; tokens stay distinct. */
  lemma PutLookup(ps: seq<Position>, p: Position)
    ensures Lookup(Put(ps, p), p.tokenAddress) == Some(p)
    ensures forall t :: t != p.tokenAddress ==> Lookup(Put(ps, p), t) == Lookup(ps, t)
    ensures DistinctTokens(ps) ==> DistinctTokens(Put(ps, p))
  {
    var k := Find(ps, p.tokenAddress);
    if k.Some? {
      FindUpdate(ps, k.value, p, p.tokenAddress);
      forall t | t != p.tokenAddress ensures Lookup(Put(ps, p), t) == Lookup(ps, t) {
        FindUpdate(ps, k.value, p, t);
      }
    } else {
      FindLast(ps, p);
      forall t | t != p.tokenAddress ensures Lookup(Put(ps, p), t) == Lookup(ps, t) {
        FindAppend(ps, p, t);
      }
    }
  }

  /** The number of open positions. */
  function OpenCount(ps: seq<Position>): (n: nat)
    ensures n <= |ps|
  {
    if ps == [] then 0 else (if ps[0].status == Open then 1 else 0) + OpenCount(ps[1..])
  }

  /** The count is 0 exactly when no position is open, and the number of
      positions exactly when all are. */
  lemma {:induction false} OpenCountExtremes(ps: seq<Position>)
    ensures OpenCount(ps) == 0 <==> forall i :: 0 <= i < |ps| ==> ps[i].status != Open
    ensures OpenCount(ps) == |ps| <==> forall i :: 0 <= i < |ps| ==> ps[i].status == Open
  {
    if ps != [] {
      OpenCountExtremes(ps[1..]);
      assert forall i :: 1 <= i < |ps| ==> ps[i] == ps[1..][i - 1];
    }
  }

  function Indicator(b: bool): nat { if b then 1 else 0 }

  lemma {:induction false} OpenCountUpdate(ps: seq<Position>, i: nat, p: Position)
    requires i < |ps|
    ensures OpenCount(ps[i := p]) + Indicator(ps[i].status == Open)
         == OpenCount(ps) + Indicator(p.status == Open)
    decreases |ps|
  {
    if i == 0 {
      assert ps[i := p][1..] == ps[1..];
    } else {
      assert ps[i := p][1..] == ps[1..][i - 1 := p];
      OpenCountUpdate(ps[1..], i - 1, p);
    }
  }

  lemma {:induction false} OpenCountAppend(ps: seq<Position>, p: Position)
    ensures OpenCount(ps + [p]) == OpenCount(ps) + Indicator(p.status == Open)
    decreases |ps|
  {
    if ps != [] {
      assert (ps + [p])[1..] == ps[1..] + [p];
      OpenCountAppend(ps[1..], p);
    }
  }

  /** How `positions.set` changes the number of open positions. */
  lemma PutOpenCount(ps: seq<Position>, p: Position)
    ensures OpenCount(Put(ps, p))
         + (if Lookup(ps, p.tokenAddress).Some? then Indicator(Lookup(ps, p.tokenAddress).value.status == Open) else 0)
         == OpenCount(ps) + Indicator(p.status == Open)
  {
    var k := Find(ps, p.tokenAddress);
    if k.Some? { OpenCountUpdate(ps, k.value, p); } else { OpenCountAppend(ps, p); }
  }

  // ---------------------------------------------------------------------
  // Monitoring one position
  // ---------------------------------------------------------------------

  /** The trailing stop armed at `price`: `trailingStop` percent below it. */
  function TrailingStopFor(price: real, trailingStop: real): real {
    price * (1.0 - trailingStop / 100.0)
  }

  /** Whether a new high at `price` arms the trailing stop. */
  predicate ArmsTrailingStop(c: Config, p: Position, price: real, pnlPercent: Option<real>) {
    price > p.highestPrice && c.enableTrailingStop && AtLeast(pnlPercent, c.minProfitForTrailing)
  }

  /** The position after a price reading: its value and unrealized P&L at
      `price`, the high-water mark raised to a new high, and the trailing
      stop re-armed on a new high when it is enabled and the position is
      profitable enough. Nothing else changes. */
  function Observe(c: Config, p: Position, price: real): (r: Position)
    ensures r.currentPrice == price && r.currentValue == p.entryAmountToken * price
    ensures r.unrealizedPnL + p.entryAmountWLD == r.currentValue
    ensures r.unrealizedPnLPercent == Percent(r.unrealizedPnL, p.entryAmountWLD)
    ensures r.highestPrice >= p.highestPrice && r.highestPrice >= price
    ensures r.highestPrice == p.highestPrice || r.highestPrice == price
    ensures ArmsTrailingStop(c, p, price, r.unrealizedPnLPercent) ==>
      r.trailingStopPrice == Some(TrailingStopFor(price, c.trailingStop))
    ensures !ArmsTrailingStop(c, p, price, r.unrealizedPnLPercent) ==> r.trailingStopPrice == p.trailingStopPrice
    ensures r == p.(currentPrice := r.currentPrice, currentValue := r.currentValue,
                    unrealizedPnL := r.unrealizedPnL, unrealizedPnLPercent := r.unrealizedPnLPercent,
                    highestPrice := r.highestPrice, trailingStopPrice := r.trailingStopPrice)
  {
    var value := p.entryAmountToken * price;
    var pnl := value - p.entryAmountWLD;
    var pct := Percent(pnl, p.entryAmountWLD);
    var q := p.(currentPrice := price, currentValue := value, unrealizedPnL := pnl, unrealizedPnLPercent := pct);
    if price > p.highestPrice then
      q.(highestPrice := price,
         trailingStopPrice := if ArmsTrailingStop(c, p, price, pct) then Some(TrailingStopFor(price, c.trailingStop))
                              else p.trailingStopPrice)
    else q
  }

  /** The unrealized P&L percentage is non-negative exactly when the
      position is worth at least what it cost (for a positive cost). */
  lemma PnLPercentSign(c: Config, p: Position, price: real)
    requires p.entryAmountWLD > 0.0
    ensures var r := Observe(c, p, price);
      AtLeast(r.unrealizedPnLPercent, 0.0) <==> r.currentValue >= p.entryAmountWLD
  {
    var r := Observe(c, p, price);
    var q := r.unrealizedPnL / p.entryAmountWLD;
    assert q * p.entryAmountWLD == r.unrealizedPnL;
    assert r.unrealizedPnLPercent == Some(q * 100.0);
  }

  /** A run of price readings. */
  function ObserveAll(c: Config, p: Position, prices: seq<real>): Position
    decreases |prices|
  {
    if prices == [] then p else ObserveAll(c, Observe(c, p, prices[0]), prices[1..])
  }

  /** The high-water mark after a run of readings is the highest of the
      starting mark and every reading. */
  lemma {:induction false} HighestIsRunningMaximum(c: Config, p: Position, prices: seq<real>)
    ensures var r := ObserveAll(c, p, prices);
      && r.highestPrice >= p.highestPrice
      && (forall i :: 0 <= i < |prices| ==> r.highestPrice >= prices[i])
      && (r.highestPrice == p.highestPrice || r.highestPrice in prices)
    decreases |prices|
  {
    if prices != [] {
      var q := Observe(c, p, prices[0]);
      HighestIsRunningMaximum(c, q, prices[1..]);
      var r := ObserveAll(c, q, prices[1..]);
      assert r == ObserveAll(c, p, prices);
      forall i | 0 <= i < |prices| ensures r.highestPrice >= prices[i] {
        if i > 0 { assert prices[i] == prices[1..][i - 1]; }
      }
      if r.highestPrice != q.highestPrice {
        assert r.highestPrice in prices[1..];
      }
    }
  }

  /** A trailing stop armed at a positive price with a positive trailing
      percentage lies strictly below that price, so it cannot fire on the
      reading that armed it. */
  lemma FreshStopBelowPrice(c: Config, p: Position, price: real)
    requires price > 0.0 && c.trailingStop > 0.0
    requires ArmsTrailingStop(c, p, price, Observe(c, p, price).unrealizedPnLPercent)
    ensures !Holds(c, Observe(c, p, price), TrailingStop)
  {
    var f := c.trailingStop / 100.0;
    assert f > 0.0;
    assert price * f > 0.0;
    assert TrailingStopFor(price, c.trailingStop) == price - price * f;
  }

  /** A point of a token's price history. */
  datatype HistoryPoint = HistoryPoint(timestamp: int, price: real, value: real, pnlPercent: Option<real>)

  const HISTORY_LIMIT: nat := 1000

  /** The last `n` entries of `h` (all of them when there are fewer). */
  function KeepLast<T>(h: seq<T>, n: nat): (r: seq<T>)
    ensures |r| == if |h| <= n then |h| else n
    ensures r == h[|h| - |r|..]
  {
    if |h| > n then h[|h| - n..] else h
  }

  /** The history after a reading: the point is appended and the oldest
      points beyond the limit are dropped. */
  function Record(h: seq<HistoryPoint>, pt: HistoryPoint): (r: seq<HistoryPoint>)
    ensures 0 < |r| <= HISTORY_LIMIT && |r| <= |h| + 1 && r[|r| - 1] == pt
    ensures r == (h + [pt])[|h| + 1 - |r|..]
    ensures |h| < HISTORY_LIMIT ==> r == h + [pt]
  {
    KeepLast(h + [pt], HISTORY_LIMIT)
  }

  // ---------------------------------------------------------------------
  // The exit decision and the dip signal
  // ---------------------------------------------------------------------

  datatype Reason = ProfitTarget | StopLoss | TrailingStop

  /** The reason recorded on the closed position. */
  function ReasonName(r: Reason): string {
    match r
    case ProfitTarget => "profit_target"
    case StopLoss => "stop_loss"
    case TrailingStop => "trailing_stop"
  }

  /** The priority of a reason: lower is checked first. */
  function Rank(r: Reason): nat {
    match r
    case ProfitTarget => 0
    case StopLoss => 1
    case TrailingStop => 2
  }

  /** Whether the condition behind `r` holds for the position. A trailing
      stop that is unset, or 0, is falsy and never fires. */
  predicate Holds(c: Config, p: Position, r: Reason) {
    match r
    case ProfitTarget => c.enableAutoSell && AtLeast(p.unrealizedPnLPercent, c.profitTarget)
    case StopLoss => AtMost(p.unrealizedPnLPercent, c.stopLossThreshold)
    case TrailingStop =>
      c.enableTrailingStop && p.trailingStopPrice.Some? && p.trailingStopPrice.value != 0.0
      && p.currentPrice <= p.trailingStopPrice.value
  }

  datatype Decision = SellFor(reason: Reason) | LookForDip | Hold

  /** `checkTradingConditions`: the first condition that holds sells;
      otherwise the dip check runs when dip buying is enabled. */
  function Decide(c: Config, p: Position): Decision {
    if Holds(c, p, ProfitTarget) then SellFor(ProfitTarget)
    else if Holds(c, p, StopLoss) then SellFor(StopLoss)
    else if Holds(c, p, TrailingStop) then SellFor(TrailingStop)
    else if c.enableDipBuying then LookForDip
    else Hold
  }

  /** At most one sell, for the highest-priority condition that holds, and
      a sell whenever any holds; the dip check only when none holds. */
  lemma DecideTakesFirstReason(c: Config, p: Position)
    ensures Decide(c, p).SellFor? <==> exists r :: Holds(c, p, r)
    ensures Decide(c, p).SellFor? ==>
      Holds(c, p, Decide(c, p).reason) && forall r :: Holds(c, p, r) ==> Rank(Decide(c, p).reason) <= Rank(r)
    ensures Decide(c, p) == LookForDip <==> c.enableDipBuying && forall r :: !Holds(c, p, r)
  {
    if exists r :: Holds(c, p, r) {
      var r :| Holds(c, p, r);
      assert Decide(c, p).SellFor?;
    }
  }

  /** What `checkDipBuyingOpportunity` reports (the `dipOpportunity` event). */
  datatype DipOpportunity = DipOpportunity(currentPrice: real, avgPrice: real, dipPercent: real)

  const DIP_WINDOW: nat := 10

  function SumPrices(h: seq<HistoryPoint>): real {
    if h == [] then 0.0 else SumPrices(h[..|h| - 1]) + h[|h| - 1].price
  }

  /** The mean price of the last ten points. */
  function RecentMean(h: seq<HistoryPoint>): real
    requires |h| >= DIP_WINDOW
  {
    SumPrices(h[|h| - DIP_WINDOW..]) / (DIP_WINDOW as real)
  }

  /** `checkDipBuyingOpportunity`: with at least ten points, a dip is a
      latest price at least `threshold` percent below the mean of the last
      ten (a mean of 0 gives NaN or Infinity, never a dip here). */
  function DipSignal(h: seq<HistoryPoint>, threshold: real): (r: Option<DipOpportunity>)
    ensures r.Some? ==>
      |h| >= DIP_WINDOW && r.value.currentPrice == h[|h| - 1].price
      && r.value.avgPrice == RecentMean(h) && r.value.dipPercent >= threshold
  {
    if |h| < DIP_WINDOW then None
    else
      var avg := RecentMean(h);
      var current := h[|h| - 1].price;
      var dip := Percent(avg - current, avg);
      if AtLeast(dip, threshold) then Some(DipOpportunity(current, avg, dip.value)) else None
  }

  lemma {:induction false} SumPositive(h: seq<HistoryPoint>)
    requires |h| > 0 && forall i :: 0 <= i < |h| ==> h[i].price > 0.0
    ensures SumPrices(h) > 0.0
    decreases |h|
  {
    if |h| > 1 { SumPositive(h[..|h| - 1]); }
    else { assert h[..0] == []; }
  }

  /** Positive prices in the last ten points give a positive mean; older
      points, and their zero readings, do not matter. */
  lemma RecentMeanPositive(h: seq<HistoryPoint>)
    requires |h| >= DIP_WINDOW
    requires forall i :: |h| - DIP_WINDOW <= i < |h| ==> h[i].price > 0.0
    ensures RecentMean(h) > 0.0
  {
    var w := h[|h| - DIP_WINDOW..];
    forall i | 0 <= i < |w| ensures w[i].price > 0.0 {
      assert w[i] == h[|h| - DIP_WINDOW + i];
    }
    SumPositive(w);
  }

  /** When the mean of the last ten points is positive, a dip is signalled
      exactly when there are ten points and the latest price is at or below
      the trigger price computed from their mean (a drop equal to the
      threshold signals). */
  lemma DipSignalIff(h: seq<HistoryPoint>, threshold: real)
    requires |h| >= DIP_WINDOW ==> RecentMean(h) > 0.0
    ensures DipSignal(h, threshold).Some? <==>
      |h| >= DIP_WINDOW && h[|h| - 1].price <= DipDetector.DipTriggerPrice(RecentMean(h), threshold)
  {
    if |h| >= DIP_WINDOW {
      DipDetector.DropVersusTrigger(RecentMean(h), h[|h| - 1].price, threshold);
    }
  }

  /** Only the last ten points matter. */
  lemma DipSignalReadsLastTen(h: seq<HistoryPoint>, h': seq<HistoryPoint>, threshold: real)
    requires |h| >= DIP_WINDOW && |h'| >= DIP_WINDOW
    requires h[|h| - DIP_WINDOW..] == h'[|h'| - DIP_WINDOW..]
    ensures DipSignal(h, threshold) == DipSignal(h', threshold)
  {
    assert h[|h| - 1] == h[|h| - DIP_WINDOW..][DIP_WINDOW - 1];
    assert h'[|h'| - 1] == h'[|h'| - DIP_WINDOW..][DIP_WINDOW - 1];
  }

  /** `calculateSlippage`: how far below the expected price the actual one
      is, in percent of the expected price. */
  function Slippage(expected: real, actual: real): (r: Option<real>)
    ensures r.None? <==> expected == 0.0
  {
    Percent(expected - actual, expected)
  }

  lemma SlippageSign(expected: real, actual: real)
    requires expected > 0.0
    ensures Slippage(expected, actual) == Some(0.0) <==> actual == expected
    ensures AtLeast(Slippage(expected, actual), 0.0) <==> actual <= expected
  {
    var q := (expected - actual) / expected;
    assert q * expected == expected - actual;
  }

  function Abs(x: real): real { if x < 0.0 then -x else x }

  /** `Math.abs(slippage) > maxSlippage`. When the expected price is 0 the
      slippage is an infinity when the actual price is not 0, which exceeds
      any limit, and NaN otherwise, which exceeds none. */
  predicate SlippageTooHigh(expected: real, actual: real, maxSlippage: real) {
    if expected == 0.0 then actual != 0.0 else Abs(Slippage(expected, actual).value) > maxSlippage
  }

  // ---------------------------------------------------------------------
  // The strategy's state and its transitions
  // ---------------------------------------------------------------------

  /** How a buy reaches the exchange. The enhanced engine checks slippage
      itself; the standard one is given the market price (used when the
      caller passed none) and the quote's expected price. */
  datatype Route = Enhanced | Standard(marketPrice: real, expectedPrice: real)

  datatype TradeError =
    | TooManyPositions(maxOpen: int)
    | PositionTooLarge(amount: real, maxSize: real)
    | SlippageExceeded(slippage: Option<real>)
    | SwapFailed
    | NoOpenPosition
    | ExitPriceUndefined

  datatype Result<T> = Ok(value: T) | Err(error: TradeError)

  /** The fields of a `TradingStrategy` that its operations change; the
      monitoring intervals are the set of monitored tokens. */
  datatype Book = Book(
    positions: seq<Position>,
    priceHistory: map<string, seq<HistoryPoint>>,
    monitored: set<string>,
    isRunning: bool,
    totalProfit: real,
    totalTrades: int,
    successfulTrades: int)

  datatype Outcome<T> = Outcome(book: Book, result: Result<T>)

  /** A closed position carries its exit record. */
  predicate Settled(p: Position) {
    p.status == Closed ==> p.exit.Some?
  }

  /** What every operation keeps: one position per token, exit records on
      closed positions, and the counters: every open position and every
      profitable close was paid for by a distinct buy. */
  ghost predicate Sound(b: Book) {
    && DistinctTokens(b.positions)
    && (forall x :: x in b.positions ==> Settled(x))
    && 0 <= b.successfulTrades
    && b.successfulTrades + OpenCount(b.positions) <= b.totalTrades
  }

  /** The price a buy goes on with: the caller's, or the market price that
      the standard route fetches when the caller gave none. */
  function EntryQuote(given: real, route: Route): real {
    if given == 0.0 && route.Standard? then route.marketPrice else given
  }

  /** `currentPrice || tokensSpent / tokensReceived || 0`. */
  function CalculatedPrice(price: real, r: SwapResult): real {
    if price != 0.0 then price
    else if r.tokensReceived != 0.0 && r.tokensSpent != 0.0 then r.tokensSpent / r.tokensReceived
    else 0.0
  }

  /** The position record a buy creates. */
  function NewPosition(c: Config, id: string, wallet: string, token: string, amountWLD: real,
                       price: real, r: SwapResult, now: int): Position {
    Position(id, token, wallet, Open, price, amountWLD, AmountOutFirst(r), now, r.txHash,
             price, amountWLD, 0.0, Some(0.0), c.profitTarget, c.stopLossThreshold, price, None,
             [TradeRecord(BuyTrade, now, price, amountWLD, AmountOutFirst(r), r.txHash, None)], None)
  }

  /** `executeBuyTrade`. `swap` is the engine's answer (None: the call
      threw); `id` and `now` stand for the generated id and the clock. */
  function Buy(c: Config, b: Book, wallet: string, token: string, amountWLD: real, givenPrice: real,
               route: Route, swap: Option<SwapResult>, id: string, now: int): (o: Outcome<Position>)
    ensures |b.positions| >= c.maxOpenPositions ==> o == Outcome(b, Err(TooManyPositions(c.maxOpenPositions)))
    ensures |b.positions| < c.maxOpenPositions && amountWLD > c.maxPositionSize ==>
      o == Outcome(b, Err(PositionTooLarge(amountWLD, c.maxPositionSize)))
    ensures o.result.Err? ==> o.book == b
    ensures (swap.None? || !swap.value.success) ==> o.result.Err?
    ensures o.result.Ok? ==> |b.positions| < c.maxOpenPositions && amountWLD <= c.maxPositionSize
    ensures o.result.Ok? <==>
      && |b.positions| < c.maxOpenPositions && amountWLD <= c.maxPositionSize
      && (route.Standard? ==> !SlippageTooHigh(route.expectedPrice, EntryQuote(givenPrice, route), c.maxSlippage))
      && swap.Some? && swap.value.success
    ensures o.result.Err? && o.result.error.SlippageExceeded? ==>
      route.Standard? && SlippageTooHigh(route.expectedPrice, EntryQuote(givenPrice, route), c.maxSlippage)
  {
    if |b.positions| >= c.maxOpenPositions then Outcome(b, Err(TooManyPositions(c.maxOpenPositions)))
    else if amountWLD > c.maxPositionSize then Outcome(b, Err(PositionTooLarge(amountWLD, c.maxPositionSize)))
    else
      var price := EntryQuote(givenPrice, route);
      if route.Standard? && SlippageTooHigh(route.expectedPrice, price, c.maxSlippage) then
        Outcome(b, Err(SlippageExceeded(Slippage(route.expectedPrice, price))))
      else if swap.None? || !swap.value.success then Outcome(b, Err(SwapFailed))
      else
        var p := NewPosition(c, id, wallet, token, amountWLD, CalculatedPrice(price, swap.value), swap.value, now);
        Outcome(b.(positions := Put(b.positions, p), monitored := b.monitored + {token},
                   totalTrades := b.totalTrades + 1),
                Ok(p))
  }

  /** A successful buy stores an open position of `amountWLD` under the
      token (replacing what the token had), starts monitoring it and counts
      one trade; other tokens' positions and the profit are unchanged. */
  lemma BuyOpens(c: Config, b: Book, wallet: string, token: string, amountWLD: real, givenPrice: real,
                 route: Route, swap: Option<SwapResult>, id: string, now: int)
    requires Buy(c, b, wallet, token, amountWLD, givenPrice, route, swap, id, now).result.Ok?
    ensures var o := Buy(c, b, wallet, token, amountWLD, givenPrice, route, swap, id, now);
      var p := o.result.value;
      && swap.Some? && swap.value.success
      && p.status == Open && p.tokenAddress == token && p.entryAmountWLD == amountWLD
      && p.entryAmountToken == AmountOutFirst(swap.value) && p.highestPrice == p.entryPrice
      && p.entryPrice == CalculatedPrice(EntryQuote(givenPrice, route), swap.value)
      && p.currentPrice == p.entryPrice && p.trailingStopPrice.None?
      && Lookup(o.book.positions, token) == Some(p)
      && (forall t :: t != token ==> Lookup(o.book.positions, t) == Lookup(b.positions, t))
      && o.book.monitored == b.monitored + {token}
      && o.book.totalTrades == b.totalTrades + 1
      && o.book.totalProfit == b.totalProfit && o.book.successfulTrades == b.successfulTrades
      && o.book.priceHistory == b.priceHistory && o.book.isRunning == b.isRunning
  {
    var o := Buy(c, b, wallet, token, amountWLD, givenPrice, route, swap, id, now);
    PutLookup(b.positions, o.result.value);
  }

  /** The number of stored positions never passes the limit: a buy is
      refused once it is reached, and one buy adds at most one entry. */
  lemma BuyRespectsLimit(c: Config, b: Book, wallet: string, token: string, amountWLD: real, givenPrice: real,
                         route: Route, swap: Option<SwapResult>, id: string, now: int)
    requires |b.positions| <= c.maxOpenPositions
    ensures |Buy(c, b, wallet, token, amountWLD, givenPrice, route, swap, id, now).book.positions| <= c.maxOpenPositions
  {
  }

  lemma BuyKeeps(c: Config, b: Book, wallet: string, token: string, amountWLD: real, givenPrice: real,
                 route: Route, swap: Option<SwapResult>, id: string, now: int)
    requires Sound(b)
    ensures Sound(Buy(c, b, wallet, token, amountWLD, givenPrice, route, swap, id, now).book)
  {
    var o := Buy(c, b, wallet, token, amountWLD, givenPrice, route, swap, id, now);
    if o.result.Ok? {
      PutLookup(b.positions, o.result.value);
      PutOpenCount(b.positions, o.result.value);
    }
  }

  /** The position after a sale of all its tokens for `r.amountOut` WLD. */
  function Close(p: Position, exitPrice: real, r: SwapResult, reason: string, now: int): (q: Position)
    ensures q.status == Closed && q.exit.Some?
    ensures q.exit.value.realizedPnL == q.exit.value.amountWLD - p.entryAmountWLD
    ensures q.exit.value.amountWLD == r.amountOut
  {
    var pnl := r.amountOut - p.entryAmountWLD;
    p.(status := Closed,
       exit := Some(Exit(exitPrice, r.amountOut, now, r.txHash, pnl, Percent(pnl, p.entryAmountWLD), reason)),
       trades := p.trades + [TradeRecord(SellTrade, now, exitPrice, r.amountOut, p.entryAmountToken, r.txHash, Some(reason))])
  }

  /** `executeSellTrade` as evidently intended: the exit price is the price
      read for the sale. */
  function Sell(b: Book, token: string, exitPrice: real, swap: Option<SwapResult>, reason: string, now: int): (o: Outcome<Position>)
    ensures (Lookup(b.positions, token).None? || Lookup(b.positions, token).value.status != Open) ==>
      o == Outcome(b, Err(NoOpenPosition))
    ensures o.result.Err? ==> o.book == b
    ensures o.result.Ok? <==>
      Lookup(b.positions, token).Some? && Lookup(b.positions, token).value.status == Open
      && swap.Some? && swap.value.success
    ensures o.book.priceHistory == b.priceHistory && o.book.totalTrades == b.totalTrades
      && o.book.isRunning == b.isRunning
  {
    var found := Lookup(b.positions, token);
    if found.None? || found.value.status != Open then Outcome(b, Err(NoOpenPosition))
    else if swap.None? || !swap.value.success then Outcome(b, Err(SwapFailed))
    else
      var p := Close(found.value, exitPrice, swap.value, reason, now);
      var pnl := p.exit.value.realizedPnL;
      Outcome(b.(positions := Put(b.positions, p), monitored := b.monitored - {token},
                 totalProfit := b.totalProfit + pnl,
                 successfulTrades := b.successfulTrades + Indicator(pnl > 0.0)),
              Ok(p))
  }

  /** A successful sell closes the token's position with realized P&L =
      exit WLD - entry WLD, adds it to the total profit, counts a success
      only for a positive P&L, leaves the trade count alone and stops
      monitoring the token; other tokens' positions are unchanged. */
  lemma SellCloses(b: Book, token: string, exitPrice: real, swap: Option<SwapResult>, reason: string, now: int)
    requires Sell(b, token, exitPrice, swap, reason, now).result.Ok?
    ensures var o := Sell(b, token, exitPrice, swap, reason, now);
      var p := o.result.value;
      var pnl := p.exit.value.realizedPnL;
      && p.status == Closed
      && pnl == swap.value.amountOut - Lookup(b.positions, token).value.entryAmountWLD
      && Lookup(o.book.positions, token) == Some(p)
      && (forall t :: t != token ==> Lookup(o.book.positions, t) == Lookup(b.positions, t))
      && o.book.totalProfit == b.totalProfit + pnl
      && o.book.successfulTrades == b.successfulTrades + (if pnl > 0.0 then 1 else 0)
      && o.book.totalTrades == b.totalTrades
      && o.book.monitored == b.monitored - {token}
  {
    var o := Sell(b, token, exitPrice, swap, reason, now);
    PutLookup(b.positions, o.result.value);
  }

  /** A position is closed once: selling the same token again is refused
      and changes nothing. */
  lemma SellOnlyOnce(b: Book, token: string, exitPrice: real, swap: Option<SwapResult>, reason: string, now: int,
                     exitPrice': real, swap': Option<SwapResult>, reason': string, now': int)
    requires Sell(b, token, exitPrice, swap, reason, now).result.Ok?
    ensures var b' := Sell(b, token, exitPrice, swap, reason, now).book;
      Sell(b', token, exitPrice', swap', reason', now') == Outcome(b', Err(NoOpenPosition))
  {
    SellCloses(b, token, exitPrice, swap, reason, now);
  }

  lemma SellKeeps(b: Book, token: string, exitPrice: real, swap: Option<SwapResult>, reason: string, now: int)
    requires Sound(b)
    ensures Sound(Sell(b, token, exitPrice, swap, reason, now).book)
  {
    var o := Sell(b, token, exitPrice, swap, reason, now);
    if o.result.Ok? {
      PutLookup(b.positions, o.result.value);
      PutOpenCount(b.positions, o.result.value);
    }
  }

  /** `executeSellTrade` as written: after a successful swap the close sets
      the status and then reads `currentPrice`, a name that is only bound
      inside the standard-engine branch, so it throws there. The sale has
      happened, the position is marked closed, and nothing else is
      recorded. */
  function SellAsWritten(b: Book, token: string, swap: Option<SwapResult>): (o: Outcome<Position>)
    ensures o.result.Ok? ==> false
  {
    var found := Lookup(b.positions, token);
    if found.None? || found.value.status != Open then Outcome(b, Err(NoOpenPosition))
    else if swap.None? || !swap.value.success then Outcome(b, Err(SwapFailed))
    else Outcome(b.(positions := Put(b.positions, found.value.(status := Closed))), Err(ExitPriceUndefined))
  }

  /** For every open position and successful swap, the sell as written
      reports a failure while the tokens are gone: the position is marked
      closed and nothing else is recorded on it (no exit, no sell trade), the profit and the success count do not move
      and the token stays monitored. The corrected sell succeeds on the same
      inputs. */
  lemma SellAsWrittenLosesTheSale(b: Book, token: string, swap: Option<SwapResult>, exitPrice: real, reason: string, now: int)
    requires Lookup(b.positions, token).Some? && Lookup(b.positions, token).value.status == Open
    requires swap.Some? && swap.value.success
    ensures var o := SellAsWritten(b, token, swap);
      && o.result == Err(ExitPriceUndefined)
      && Lookup(o.book.positions, token) == Some(Lookup(b.positions, token).value.(status := Closed))
      && o.book.totalProfit == b.totalProfit && o.book.successfulTrades == b.successfulTrades
      && o.book.monitored == b.monitored
    ensures Sell(b, token, exitPrice, swap, reason, now).result.Ok?
  {
    var p := Lookup(b.positions, token).value;
    assert p.tokenAddress == token;
    PutLookup(b.positions, p.(status := Closed));
  }

  /** The history kept for a token (none yet: empty). */
  function HistoryOf(m: map<string, seq<HistoryPoint>>, token: string): seq<HistoryPoint> {
    if token in m then m[token] else []
  }

  /** What one monitor tick leaves behind, with the dip it reported. */
  datatype Tick = Tick(book: Book, dip: Option<DipOpportunity>)

  /** The point a reading of the re-valued position `q` adds to the history. */
  function PointOf(q: Position, now: int): HistoryPoint {
    HistoryPoint(now, q.currentPrice, q.currentValue, q.unrealizedPnLPercent)
  }

  /** The first half of a tick: the re-valued position `q` is stored and
      its point recorded in the token's history. */
  function Revalued(b: Book, q: Position, now: int): Book {
    var token := q.tokenAddress;
    b.(positions := Put(b.positions, q),
       priceHistory := b.priceHistory[token := Record(HistoryOf(b.priceHistory, token), PointOf(q, now))])
  }

  lemma RevaluedPositions(b: Book, q: Position, now: int)
    ensures var b1 := Revalued(b, q, now);
      && Lookup(b1.positions, q.tokenAddress) == Some(q)
      && (forall x :: x != q.tokenAddress ==> Lookup(b1.positions, x) == Lookup(b.positions, x))
  {
    PutLookup(b.positions, q);
  }

  lemma RevaluedHistory(b: Book, q: Position, now: int)
    ensures var b1 := Revalued(b, q, now);
      && HistoryOf(b1.priceHistory, q.tokenAddress) == Record(HistoryOf(b.priceHistory, q.tokenAddress), PointOf(q, now))
      && (forall x :: x != q.tokenAddress ==> HistoryOf(b1.priceHistory, x) == HistoryOf(b.priceHistory, x))
  {
    var t := q.tokenAddress;
    var h := Record(HistoryOf(b.priceHistory, t), PointOf(q, now));
    var m := b.priceHistory[t := h];
    assert Revalued(b, q, now).priceHistory == m;
    assert HistoryOf(m, t) == h;
    forall x | x != t ensures HistoryOf(m, x) == HistoryOf(b.priceHistory, x) {
      assert x in m <==> x in b.priceHistory;
    }
  }

  /** Re-valuing an open position as an open one keeps the state sound. */
  lemma RevaluedKeeps(b: Book, q: Position, now: int)
    requires Sound(b) && q.status == Open
    requires Lookup(b.positions, q.tokenAddress).Some? && Lookup(b.positions, q.tokenAddress).value.status == Open
    ensures Sound(Revalued(b, q, now))
  {
    PutLookup(b.positions, q);
    PutOpenCount(b.positions, q);
  }

  /** `monitorPosition` for `token`. `price` is the price reading (None:
      the lookup threw and the tick is abandoned); a sell it triggers is
      given `exitPrice` and `swap`. A sell that fails is swallowed. */
  function Monitor(c: Config, b: Book, token: string, price: Option<real>, now: int,
                   exitPrice: real, swap: Option<SwapResult>): Tick
  {
    var found := Lookup(b.positions, token);
    if found.None? || found.value.status != Open then Tick(b.(monitored := b.monitored - {token}), None)
    else if price.None? then Tick(b, None)
    else
      var q := Observe(c, found.value, price.value);
      Act(c, Revalued(b, q, now), q, now, exitPrice, swap)
  }

  /** `checkTradingConditions` on the re-valued position `q`, stored in
      `b1`: a sell for the first condition that holds, else the dip check. */
  function Act(c: Config, b1: Book, q: Position, now: int, exitPrice: real, swap: Option<SwapResult>): (t: Tick)
    ensures !Decide(c, q).SellFor? ==> t.book == b1
    ensures Decide(c, q).SellFor? ==>
      t.book == Sell(b1, q.tokenAddress, exitPrice, swap, ReasonName(Decide(c, q).reason), now).book
    ensures t.dip.Some? ==> Decide(c, q) == LookForDip
    ensures t.book.priceHistory == b1.priceHistory && t.book.totalTrades == b1.totalTrades
  {
    match Decide(c, q)
    case SellFor(r) => Tick(Sell(b1, q.tokenAddress, exitPrice, swap, ReasonName(r), now).book, None)
    case LookForDip => Tick(b1, DipSignal(HistoryOf(b1.priceHistory, q.tokenAddress), c.dipBuyThreshold))
    case Hold => Tick(b1, None)
  }

  /** A tick on an open position with a price is `Act` after `Revalued`. */
  lemma MonitorSplits(c: Config, b: Book, token: string, price: real, now: int,
                      exitPrice: real, swap: Option<SwapResult>)
    requires Lookup(b.positions, token).Some? && Lookup(b.positions, token).value.status == Open
    ensures var q := Observe(c, Lookup(b.positions, token).value, price);
      Monitor(c, b, token, Some(price), now, exitPrice, swap) == Act(c, Revalued(b, q, now), q, now, exitPrice, swap)
  {
    var found := Lookup(b.positions, token);
    var q := Observe(c, found.value, price);
    assert Monitor(c, b, token, Some(price), now, exitPrice, swap) == Act(c, Revalued(b, q, now), q, now, exitPrice, swap);
  }

  /** A tick on an open position with a price re-values the position, and
      closes it when a sell condition holds and the sale goes through;
      other tokens' positions are unchanged. */
  lemma MonitorRevalues(c: Config, b: Book, token: string, price: real, now: int,
                        exitPrice: real, swap: Option<SwapResult>)
    requires Lookup(b.positions, token).Some? && Lookup(b.positions, token).value.status == Open
    ensures var t := Monitor(c, b, token, Some(price), now, exitPrice, swap);
      var q := Observe(c, Lookup(b.positions, token).value, price);
      var sold := Decide(c, q).SellFor? && swap.Some? && swap.value.success;
      && Lookup(t.book.positions, token) ==
           Some(if sold then Close(q, exitPrice, swap.value, ReasonName(Decide(c, q).reason), now) else q)
      && (forall x :: x != token ==> Lookup(t.book.positions, x) == Lookup(b.positions, x))
  {
    var p := Lookup(b.positions, token).value;
    assert p.tokenAddress == token;
    var q := Observe(c, p, price);
    assert q.tokenAddress == token;
    var b1 := Revalued(b, q, now);
    MonitorSplits(c, b, token, price, now, exitPrice, swap);
    assert Monitor(c, b, token, Some(price), now, exitPrice, swap) == Act(c, b1, q, now, exitPrice, swap);
    RevaluedPositions(b, q, now);
    ActPositions(c, b1, q, now, exitPrice, swap);
  }

  /** The second half of the tick changes no position but the token's,
      which it closes when the decision is a sell and the sale goes
      through. */
  lemma ActPositions(c: Config, b1: Book, q: Position, now: int, exitPrice: real, swap: Option<SwapResult>)
    requires Lookup(b1.positions, q.tokenAddress) == Some(q) && q.status == Open
    ensures var t := Act(c, b1, q, now, exitPrice, swap);
      var sold := Decide(c, q).SellFor? && swap.Some? && swap.value.success;
      && Lookup(t.book.positions, q.tokenAddress) ==
           Some(if sold then Close(q, exitPrice, swap.value, ReasonName(Decide(c, q).reason), now) else q)
      && (forall x :: x != q.tokenAddress ==> Lookup(t.book.positions, x) == Lookup(b1.positions, x))
  {
    if Decide(c, q).SellFor? && swap.Some? && swap.value.success {
      var r := ReasonName(Decide(c, q).reason);
      assert Sell(b1, q.tokenAddress, exitPrice, swap, r, now).result == Ok(Close(q, exitPrice, swap.value, r, now));
      SellCloses(b1, q.tokenAddress, exitPrice, swap, r, now);
    }
  }

  /** The same tick appends the point to the token's history, which stays
      within 1000 entries and ends with it; no other history and no trade
      count changes, and a dip is reported only when no sell condition
      holds. */
  lemma MonitorRecords(c: Config, b: Book, token: string, price: real, now: int,
                       exitPrice: real, swap: Option<SwapResult>)
    requires Lookup(b.positions, token).Some? && Lookup(b.positions, token).value.status == Open
    ensures var t := Monitor(c, b, token, Some(price), now, exitPrice, swap);
      var q := Observe(c, Lookup(b.positions, token).value, price);
      && HistoryOf(t.book.priceHistory, token) == Record(HistoryOf(b.priceHistory, token), HistoryPoint(now, price, q.currentValue, q.unrealizedPnLPercent))
      && (forall x :: x != token ==> HistoryOf(t.book.priceHistory, x) == HistoryOf(b.priceHistory, x))
      && t.book.totalTrades == b.totalTrades
      && (t.dip.Some? ==> Decide(c, q) == LookForDip)
  {
    var p := Lookup(b.positions, token).value;
    assert p.tokenAddress == token;
    var q := Observe(c, p, price);
    assert q.tokenAddress == token;
    var b1 := Revalued(b, q, now);
    RevaluedHistory(b, q, now);
    assert PointOf(q, now) == HistoryPoint(now, price, q.currentValue, q.unrealizedPnLPercent);
    MonitorSplits(c, b, token, price, now, exitPrice, swap);
    var t := Monitor(c, b, token, Some(price), now, exitPrice, swap);
    assert t == Act(c, b1, q, now, exitPrice, swap);
    assert t.book.priceHistory == b1.priceHistory && t.book.totalTrades == b1.totalTrades;
  }

  lemma MonitorKeeps(c: Config, b: Book, token: string, price: Option<real>, now: int,
                     exitPrice: real, swap: Option<SwapResult>)
    requires Sound(b)
    ensures Sound(Monitor(c, b, token, price, now, exitPrice, swap).book)
  {
    var found := Lookup(b.positions, token);
    var t := Monitor(c, b, token, price, now, exitPrice, swap);
    if found.None? || found.value.status != Open {
      assert t.book == b.(monitored := b.monitored - {token});
    } else if price.None? {
      assert t.book == b;
    } else {
      var q := Observe(c, found.value, price.value);
      var b1 := Revalued(b, q, now);
      assert t == Act(c, b1, q, now, exitPrice, swap);
      RevaluedKeeps(b, q, now);
      if Decide(c, q).SellFor? {
        SellKeeps(b1, token, exitPrice, swap, ReasonName(Decide(c, q).reason), now);
      }
    }
  }

  /** The tokens of the open positions. */
  function OpenTokens(ps: seq<Position>): set<string> {
    set i | 0 <= i < |ps| && ps[i].status == Open :: ps[i].tokenAddress
  }

  /** The loop of `startStrategy`: monitoring is started for every open
      position (a token already monitored is left as it is). */
  method MonitorOpen(ps: seq<Position>, monitored: set<string>) returns (m: set<string>)
    ensures m == monitored + OpenTokens(ps)
  {
    m := monitored;
    var i := 0;
    while i < |ps|
      invariant 0 <= i <= |ps|
      invariant m == monitored + OpenTokens(ps[..i])
    {
      assert ps[..i + 1] == ps[..i] + [ps[i]];
      if ps[i].status == Open {
        m := m + {ps[i].tokenAddress};
        assert OpenTokens(ps[..i + 1]) == OpenTokens(ps[..i]) + {ps[i].tokenAddress} by {
          var s := ps[..i + 1];
          assert s[i] == ps[i];
          forall x | x in OpenTokens(s) ensures x in OpenTokens(ps[..i]) + {ps[i].tokenAddress} {
            var k :| 0 <= k < |s| && s[k].status == Open && s[k].tokenAddress == x;
            if k < i { assert ps[..i][k] == s[k]; }
          }
          forall x | x in OpenTokens(ps[..i]) ensures x in OpenTokens(s) {
            var k :| 0 <= k < i && ps[..i][k].status == Open && ps[..i][k].tokenAddress == x;
            assert s[k] == ps[..i][k];
          }
        }
      } else {
        assert OpenTokens(ps[..i + 1]) == OpenTokens(ps[..i]) by {
          var s := ps[..i + 1];
          forall x | x in OpenTokens(s) ensures x in OpenTokens(ps[..i]) {
            var k :| 0 <= k < |s| && s[k].status == Open && s[k].tokenAddress == x;
            assert k < i;
            assert ps[..i][k] == s[k];
          }
          forall x | x in OpenTokens(ps[..i]) ensures x in OpenTokens(s) {
            var k :| 0 <= k < i && ps[..i][k].status == Open && ps[..i][k].tokenAddress == x;
            assert s[k] == ps[..i][k];
          }
        }
      }
      i := i + 1;
    }
    assert ps[..|ps|] == ps;
  }

  /** `startStrategy` (loading saved positions aside). */
  function Started(b: Book): (r: Book)
    ensures r.isRunning
  {
    if b.isRunning then b
    else b.(isRunning := true, monitored := b.monitored + OpenTokens(b.positions))
  }

  /** `stopStrategy`: every monitor is stopped. */
  function Stopped(b: Book): (r: Book)
    ensures !r.isRunning
  {
    if !b.isRunning then b else b.(isRunning := false, monitored := {})
  }

  /** Starting a running system and stopping a stopped one change nothing,
      so each is idempotent; neither touches positions or counters. */
  lemma StartStopIdempotent(b: Book)
    ensures b.isRunning ==> Started(b) == b
    ensures !b.isRunning ==> Stopped(b) == b
    ensures Started(Started(b)) == Started(b) && Stopped(Stopped(b)) == Stopped(b)
    ensures Started(b).positions == b.positions && Stopped(b).positions == b.positions
    ensures !b.isRunning ==> OpenTokens(b.positions) <= Started(b).monitored
  {
  }

  /** `startPositionMonitoring`: at most one monitor per token. */
  function Watched(b: Book, token: string): (r: Book)
    ensures token in r.monitored
  {
    if token in b.monitored then b else b.(monitored := b.monitored + {token})
  }

  // ---------------------------------------------------------------------
  // Statistics
  // ---------------------------------------------------------------------

  datatype Stats = Stats(
    isRunning: bool,
    totalPositions: nat,
    openPositions: nat,
    closedPositions: nat,
    totalTrades: int,
    successfulTrades: int,
    successRate: real,
    totalUnrealizedPnL: real,
    totalRealizedPnL: real,
    totalPnL: real)

  function ClosedCount(ps: seq<Position>): (n: nat)
    ensures n + OpenCount(ps) == |ps|
  {
    if ps == [] then 0 else (if ps[0].status == Closed then 1 else 0) + ClosedCount(ps[1..])
  }

  function UnrealizedSum(ps: seq<Position>): real {
    if ps == [] then 0.0 else (if ps[0].status == Open then ps[0].unrealizedPnL else 0.0) + UnrealizedSum(ps[1..])
  }

  /** The sum of the realized P&L of closed positions (a closed position
      without an exit record, which `Sound` rules out, adds 0). */
  function RealizedSum(ps: seq<Position>): real {
    if ps == [] then 0.0
    else (if ps[0].status == Closed && ps[0].exit.Some? then ps[0].exit.value.realizedPnL else 0.0) + RealizedSum(ps[1..])
  }

  /** `getStrategyStats` (the configuration it also returns is left out). */
  function StrategyStats(b: Book): (s: Stats)
    ensures s.openPositions + s.closedPositions == s.totalPositions == |b.positions|
    ensures s.totalPnL == s.totalUnrealizedPnL + s.totalRealizedPnL
    ensures b.totalTrades <= 0 ==> s.successRate == 0.0
  {
    var ps := b.positions;
    var unrealized := UnrealizedSum(ps);
    var realized := RealizedSum(ps);
    Stats(b.isRunning, |ps|, OpenCount(ps), ClosedCount(ps), b.totalTrades, b.successfulTrades,
          if b.totalTrades > 0 then (b.successfulTrades as real) / (b.totalTrades as real) * 100.0 else 0.0,
          unrealized, realized, unrealized + realized)
  }

  /** In a sound state the success rate is a percentage. */
  lemma SuccessRateBounded(b: Book)
    requires Sound(b)
    ensures 0.0 <= StrategyStats(b).successRate <= 100.0
  {
    if b.totalTrades > 0 {
      RatioAtMostOne(b.successfulTrades as real, b.totalTrades as real);
    }
  }

  lemma RatioAtMostOne(x: real, y: real)
    requires 0.0 <= x <= y && y > 0.0
    ensures 0.0 <= x / y <= 1.0
  {
    var q := x / y;
    assert q * y == x;
    assert (1.0 - q) * y == y - x;
  }

  // ---------------------------------------------------------------------
  // The class
  // ---------------------------------------------------------------------

  /** `TradingStrategy`: each method applies the transition above to the
      object's fields. */
  class TradingStrategy {
    const config: Config
    var positions: seq<Position>
    var priceHistory: map<string, seq<HistoryPoint>>
    var monitored: set<string>
    var isRunning: bool
    var totalProfit: real
    var totalTrades: int
    var successfulTrades: int

    function State(): Book
      reads this
    {
      Book(positions, priceHistory, monitored, isRunning, totalProfit, totalTrades, successfulTrades)
    }

    ghost predicate Valid()
      reads this
    {
      Sound(State())
    }

    /** A stopped system with no positions, configured from `env`. */
    constructor(env: Env)
      ensures Valid()
      ensures config == ConfigFrom(env)
      ensures State() == Book([], map[], {}, false, 0.0, 0, 0)
    {
      config := ConfigFrom(env);
      positions := [];
      priceHistory := map[];
      monitored := {};
      isRunning := false;
      totalProfit := 0.0;
      totalTrades := 0;
      successfulTrades := 0;
    }

    method Commit(b: Book)
      modifies this
      ensures State() == b
    {
      positions := b.positions;
      priceHistory := b.priceHistory;
      monitored := b.monitored;
      isRunning := b.isRunning;
      totalProfit := b.totalProfit;
      totalTrades := b.totalTrades;
      successfulTrades := b.successfulTrades;
    }

    method StartStrategy()
      requires Valid()
      modifies this
      ensures Valid()
      ensures State() == Started(old(State()))
    {
      if isRunning {
        return;
      }
      isRunning := true;
      monitored := MonitorOpen(positions, monitored);
    }

    method StopStrategy()
      requires Valid()
      modifies this
      ensures Valid()
      ensures State() == Stopped(old(State()))
    {
      if !isRunning {
        return;
      }
      isRunning := false;
      monitored := {};
    }

    method StartPositionMonitoring(token: string)
      requires Valid()
      modifies this
      ensures Valid()
      ensures State() == Watched(old(State()), token)
    {
      if token in monitored {
        return;
      }
      monitored := monitored + {token};
    }

    method ExecuteBuyTrade(wallet: string, token: string, amountWLD: real, givenPrice: real,
                           route: Route, swap: Option<SwapResult>, id: string, now: int)
      returns (r: Result<Position>)
      requires Valid()
      modifies this
      ensures Valid()
      ensures Outcome(State(), r) == Buy(config, old(State()), wallet, token, amountWLD, givenPrice, route, swap, id, now)
    {
      var o := Buy(config, State(), wallet, token, amountWLD, givenPrice, route, swap, id, now);
      BuyKeeps(config, State(), wallet, token, amountWLD, givenPrice, route, swap, id, now);
      Commit(o.book);
      r := o.result;
    }

    method ExecuteSellTrade(token: string, exitPrice: real, swap: Option<SwapResult>, reason: string, now: int)
      returns (r: Result<Position>)
      requires Valid()
      modifies this
      ensures Valid()
      ensures Outcome(State(), r) == Sell(old(State()), token, exitPrice, swap, reason, now)
    {
      var o := Sell(State(), token, exitPrice, swap, reason, now);
      SellKeeps(State(), token, exitPrice, swap, reason, now);
      Commit(o.book);
      r := o.result;
    }

    method MonitorPosition(token: string, price: Option<real>, now: int, exitPrice: real, swap: Option<SwapResult>)
      returns (dip: Option<DipOpportunity>)
      requires Valid()
      modifies this
      ensures Valid()
      ensures Tick(State(), dip) == Monitor(config, old(State()), token, price, now, exitPrice, swap)
    {
      var t := Monitor(config, State(), token, price, now, exitPrice, swap);
      MonitorKeeps(config, State(), token, price, now, exitPrice, swap);
      Commit(t.book);
      dip := t.dip;
    }

    function GetStrategyStats(): (s: Stats)
      requires Valid()
      reads this
      ensures s == StrategyStats(State())
      ensures 0.0 <= s.successRate <= 100.0
    {
      SuccessRateBounded(State());
      StrategyStats(State())
    }
  }
}
