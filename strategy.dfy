/** A custom buy-the-dip / take-profit strategy of the strategy builder and
    everything that happens to one strategy: creation with defaults, the dip
    buy, the profit-range partial sells, the whole-portfolio sell of simple
    mode, and the per-lot profit check that chooses between them. A strategy
    is a value here; the builder keeps them in a map. The exchange is not
    modelled: what it answered is passed in. */
module Strategies {
  import opened Common
  import opened Engine
  import opened Lots
  import opened ProfitRange

  /** `profitRangeState`: the ladder once it has been created. */
  datatype RangeState = RangeState(sellSteps: seq<SellStep>, totalSold: real)

  datatype Strategy = Strategy(
    id: string,
    name: string,
    targetToken: string,
    tokenSymbol: string,
    dipThreshold: real,       // percent drop from the window high that buys
    profitTarget: real,       // percent above the average entry price that sells (simple mode)
    tradeAmount: real,        // WLD per buy
    maxSlippage: real,
    enableProfitRange: bool,
    profitRangeMin: real,
    profitRangeMax: real,
    profitRangeSteps: int,
    profitRangeMode: RangeMode,
    priceCheckInterval: int,  // milliseconds between ticks
    dipTimeframe: int,        // milliseconds of history the dip detector looks at
    isActive: bool,
    createdAt: int,
    lastExecuted: Option<int>,
    totalTrades: int,
    successfulTrades: int,
    totalProfit: real,
    positions: seq<Lot>,
    profitRangeState: Option<RangeState>,
    wallet: Option<string>)   // the wallet a running strategy trades from

  /** What `createStrategy` is given. A numeric field that was left out (or
      set to 0, which JavaScript's `||` treats the same way) is 0 here, an
      omitted name is the empty string. */
  datatype StrategyConfig = StrategyConfig(
    name: string,
    targetToken: string,
    tokenSymbol: string,
    dipThreshold: real,
    profitTarget: real,
    tradeAmount: real,
    maxSlippage: real,
    enableProfitRange: bool,
    profitRangeMin: real,
    profitRangeMax: real,
    profitRangeSteps: int,
    profitRangeMode: Option<RangeMode>,
    priceCheckInterval: int,
    dipTimeframe: int)

  /** `x || d` on numbers. */
  function Or(x: real, d: real): real { if x != 0.0 then x else d }

  function OrInt(x: int, d: int): int { if x != 0 then x else d }

  /** `createStrategy`: the configuration with every missing parameter
      replaced by its default, and a fresh, stopped strategy around it. */
  function CreateStrategy(c: StrategyConfig, id: string, now: int): (s: Strategy)
    ensures s.id == id && s.targetToken == c.targetToken && s.tokenSymbol == c.tokenSymbol
    ensures s.name == if c.name != "" then c.name else "Strategy for " + c.tokenSymbol
    ensures !s.isActive && s.createdAt == now && s.lastExecuted == None && s.wallet == None
    ensures s.totalTrades == 0 && s.successfulTrades == 0 && s.totalProfit == 0.0
    ensures s.positions == [] && s.profitRangeState == None
    ensures s.enableProfitRange == c.enableProfitRange
  {
    Strategy(
      id,
      if c.name != "" then c.name else "Strategy for " + c.tokenSymbol,
      c.targetToken,
      c.tokenSymbol,
      Or(c.dipThreshold, 15.0),
      Or(c.profitTarget, 1.0),
      Or(c.tradeAmount, 0.1),
      Or(c.maxSlippage, 1.0),
      c.enableProfitRange,
      Or(c.profitRangeMin, Or(c.profitTarget, 1.0)),
      Or(c.profitRangeMax, Or(c.profitTarget, 1.0) * 2.0),
      OrInt(c.profitRangeSteps, 3),
      if c.profitRangeMode.Some? then c.profitRangeMode.value else Linear,
      OrInt(c.priceCheckInterval, 30000),
      OrInt(c.dipTimeframe, 300000),
      false, now, None, 0, 0, 0.0, [], None, None)
  }

  /** The strategy's parameters, read back as a configuration. */
  function ConfigOf(s: Strategy): StrategyConfig {
    StrategyConfig(s.name, s.targetToken, s.tokenSymbol, s.dipThreshold, s.profitTarget, s.tradeAmount,
                   s.maxSlippage, s.enableProfitRange, s.profitRangeMin, s.profitRangeMax, s.profitRangeSteps,
                   Some(s.profitRangeMode), s.priceCheckInterval, s.dipTimeframe)
  }

  /** The two strategies have the same identity and parameters. */
  predicate SameParameters(s: Strategy, t: Strategy) {
    ConfigOf(s) == ConfigOf(t) && s.id == t.id
  }

  /** An empty configuration gets the documented defaults: a 15% dip, a 1%
      profit target, 0.1 WLD per trade, 1% slippage, a 1%..2% range in 3
      linear steps, a 30 s tick and a 5 min dip window. */
  lemma CreateDefaults(targetToken: string, tokenSymbol: string, id: string, now: int)
    ensures var s := CreateStrategy(StrategyConfig("", targetToken, tokenSymbol, 0.0, 0.0, 0.0, 0.0, false,
                                                   0.0, 0.0, 0, None, 0, 0), id, now);
      && s.name == "Strategy for " + tokenSymbol
      && s.dipThreshold == 15.0 && s.profitTarget == 1.0 && s.tradeAmount == 0.1 && s.maxSlippage == 1.0
      && s.profitRangeMin == 1.0 && s.profitRangeMax == 2.0 && s.profitRangeSteps == 3
      && s.profitRangeMode == Linear && s.priceCheckInterval == 30000 && s.dipTimeframe == 300000
  {
  }

  /** Without its own range, a strategy's profit range starts at its profit
      target and ends at twice that. */
  lemma CreateRangeFollowsTarget(c: StrategyConfig, id: string, now: int)
    requires c.profitRangeMin == 0.0 && c.profitRangeMax == 0.0
    ensures var s := CreateStrategy(c, id, now);
      s.profitRangeMin == s.profitTarget && s.profitRangeMax == 2.0 * s.profitTarget
  {
  }

  /** Defaults are applied once and for all: no parameter of a created
      strategy is 0, a value that was given is kept, and creating a strategy
      again from its own parameters changes none of them. */
  lemma CreateIsIdempotent(c: StrategyConfig, id: string, now: int, now': int)
    ensures var s := CreateStrategy(c, id, now);
      && s.dipThreshold != 0.0 && s.profitTarget != 0.0 && s.tradeAmount != 0.0 && s.maxSlippage != 0.0
      && s.profitRangeMin != 0.0 && s.profitRangeMax != 0.0 && s.profitRangeSteps != 0
      && s.priceCheckInterval != 0 && s.dipTimeframe != 0 && s.name != ""
      && (c.dipThreshold != 0.0 ==> s.dipThreshold == c.dipThreshold)
      && (c.profitTarget != 0.0 ==> s.profitTarget == c.profitTarget)
      && (c.tradeAmount != 0.0 ==> s.tradeAmount == c.tradeAmount)
      && (c.profitRangeSteps != 0 ==> s.profitRangeSteps == c.profitRangeSteps)
      && SameParameters(CreateStrategy(ConfigOf(s), id, now'), s)
  {
    var s := CreateStrategy(c, id, now);
    assert s.name != "" by {
      if c.name == "" {
        assert |"Strategy for " + c.tokenSymbol| >= |"Strategy for "|;
      }
    }
  }

  /** The copy that is written to disk: everything but the wallet. */
  function SavedCopy(s: Strategy): (r: Strategy)
    ensures r.wallet == None
    ensures r.(wallet := s.wallet) == s
  {
    s.(wallet := None)
  }

  /** The exchange executed the swap. */
  predicate Succeeded(swap: Option<SwapResult>) {
    swap.Some? && swap.value.success
  }

  // ----- What a tick may change -----

  /** What selling may do to a lot: an open lot may shrink, close or record
      its unrealized P&L; a closed lot may only record its unrealized P&L. No
      lot changes identity or entry price. */
  predicate LotEvolves(l: Lot, l': Lot) {
    && l'.id == l.id && l'.strategyId == l.strategyId && l'.tokenAddress == l.tokenAddress
    && l'.entryPrice == l.entryPrice && l'.entryTimestamp == l.entryTimestamp && l'.entryTxHash == l.entryTxHash
    && (l.status == Closed ==>
          l' == l.(unrealizedPnL := l'.unrealizedPnL, unrealizedPnLPercent := l'.unrealizedPnLPercent))
  }

  /** `s'` is `s` after some profit checks: the parameters, the lifecycle
      fields and the set of lots are those of `s`, each lot evolves as
      LotEvolves allows, and the counters only grow. */
  ghost predicate OnlySells(s: Strategy, s': Strategy) {
    && SameParameters(s, s')
    && s'.isActive == s.isActive && s'.wallet == s.wallet && s'.createdAt == s.createdAt
    && |s'.positions| == |s.positions|
    && (forall i :: 0 <= i < |s.positions| ==> LotEvolves(s.positions[i], s'.positions[i]))
    && s.totalTrades <= s'.totalTrades && s.successfulTrades <= s'.successfulTrades
  }

  lemma OnlySellsTrans(a: Strategy, b: Strategy, c: Strategy)
    requires OnlySells(a, b) && OnlySells(b, c)
    ensures OnlySells(a, c)
  {
    forall i | 0 <= i < |a.positions| ensures LotEvolves(a.positions[i], c.positions[i]) {
      assert LotEvolves(a.positions[i], b.positions[i]) && LotEvolves(b.positions[i], c.positions[i]);
    }
  }

  /** The trade counters are consistent: every success was preceded by a
      counted trade, and an open position stands for a counted buy that no
      success has used up yet. Hence the success rate is at most 100%. */
  predicate Bookkept(s: Strategy) {
    && 0 <= s.successfulTrades
    && s.successfulTrades + (if OpenLots(s.positions) == [] then 0 else 1) <= s.totalTrades
  }

  lemma CreateIsBookkept(c: StrategyConfig, id: string, now: int)
    ensures Bookkept(CreateStrategy(c, id, now))
  {
  }

  /** A buy opens a lot and counts a trade. */
  lemma DipBuyKeepsBooks(s: Strategy, dipPrice: real, maxAmount: Option<real>, swap: Option<SwapResult>,
                         lotId: string, now: int)
    requires Bookkept(s)
    ensures Bookkept(ExecuteDipBuy(s, dipPrice, maxAmount, swap, lotId, now))
  {
    var s' := ExecuteDipBuy(s, dipPrice, maxAmount, swap, lotId, now);
    if s' != s {
      var l := s'.positions[|s.positions|];
      assert s'.positions == s.positions + [l];
      AppendOpenLot(s.positions, l);
    }
  }

  lemma MarkedOnlySells(s: Strategy, idx: nat, price: real)
    requires idx < |s.positions|
    ensures OnlySells(s, Marked(s, idx, price))
    ensures Bookkept(s) ==> Bookkept(Marked(s, idx, price))
  {
    MarkKeepsPortfolio(s, idx, price);
    var m := Marked(s, idx, price);
    TotalsOfUpdate(s.positions, idx, m.positions[idx]);
  }

  lemma ReaimedOnlySells(s: Strategy, sqrt: real -> real)
    ensures OnlySells(s, Reaimed(s, sqrt))
    ensures Bookkept(s) ==> Bookkept(Reaimed(s, sqrt))
  {
  }

  lemma SteppedOnlySells(s: Strategy, k: nat, price: real, received: real, now: int, s': Strategy)
    requires s.profitRangeState.Some? && k < |s.profitRangeState.value.sellSteps|
    requires OpenTokens(s.positions) != 0.0
    requires RangeStepped(s, k, price, received, now, s')
    ensures OnlySells(s, s')
    ensures Bookkept(s) ==> Bookkept(s')
  {
    var ratio := SellRatio(TokensToSell(OpenTokens(s.positions), s.profitRangeState.value.sellSteps[k].sellPercentage),
                           OpenTokens(s.positions));
    forall i | 0 <= i < |s.positions| ensures LotEvolves(s.positions[i], s'.positions[i]) {
      assert s'.positions[i] == ReduceLot(s.positions[i], ratio, price, now);
    }
    assert OpenLots(s.positions) != [];
    assert SameParameters(s, s') by { assert ConfigOf(s') == ConfigOf(s); }
  }

  lemma SoldAllOnlySells(s: Strategy, price: real, swap: SwapResult, now: int, s': Strategy)
    requires SoldAll(s, price, swap, now, s')
    ensures OnlySells(s, s')
    ensures Bookkept(s) && OpenLots(s.positions) != [] ==> Bookkept(s')
  {
    SellAllClosesEverything(s, price, swap, now, s');
    assert SameParameters(s, s') by { assert ConfigOf(s') == ConfigOf(s); }
  }

  // ----- Entry -----

  /** `min(tradeAmount, maxAmount)`: the trade is shrunk to what the pool's
      liquidity allows at the strategy's slippage. */
  function ClampedAmount(tradeAmount: real, maxAmount: real): (a: real)
    ensures a <= tradeAmount && a <= maxAmount && (a == tradeAmount || a == maxAmount)
  {
    if maxAmount < tradeAmount then maxAmount else tradeAmount
  }

  /** `executeDipBuy` after a dip at `dipPrice`. `maxAmount` is the liquidity
      analysis' answer (None: the analysis failed), `swap` the exchange's
      answer (None: the call failed). On any failure the strategy is left as
      it was; on success one open lot is appended and only the trade counter
      and the time of the last execution change besides. */
  function ExecuteDipBuy(s: Strategy, dipPrice: real, maxAmount: Option<real>, swap: Option<SwapResult>,
                         lotId: string, now: int): (s': Strategy)
    ensures maxAmount.None? || !Succeeded(swap) ==> s' == s
    ensures maxAmount.Some? && Succeeded(swap) ==>
      var amount := ClampedAmount(s.tradeAmount, maxAmount.value);
      var tokens := ReceivedFirst(swap.value);
      && |s'.positions| == |s.positions| + 1 && s'.positions[..|s.positions|] == s.positions
      && var l := s'.positions[|s.positions|];
      && l.status == Open && l.id == lotId && l.strategyId == s.id && l.tokenAddress == s.targetToken
      && l.entryAmountWLD == amount && l.entryAmountToken == tokens
      && (tokens != 0.0 ==> l.entryPrice.Some? && l.entryPrice.value * tokens == amount)
      && (tokens == 0.0 ==> l.entryPrice.None?)
      && l.entryTimestamp == now && l.entryTxHash == swap.value.txHash
      && l.profitTarget == s.profitTarget && l.unrealizedPnL == 0.0
      && l.exitAmountWLD == None && l.realizedPnL == None
      && s' == s.(positions := s'.positions, totalTrades := s.totalTrades + 1, lastExecuted := Some(now))
  {
    if maxAmount.None? || !Succeeded(swap) then s
    else
      var amount := ClampedAmount(s.tradeAmount, maxAmount.value);
      var r := swap.value;
      var tokens := ReceivedFirst(r);
      var lot := Lot(lotId, s.id, s.targetToken, Open, Div(amount, tokens), amount, tokens, now, r.txHash,
                     s.profitTarget, dipPrice * (1.0 + s.profitTarget / 100.0), 0.0, Some(0.0),
                     None, None, None, None, None, None);
      s.(positions := s.positions + [lot], totalTrades := s.totalTrades + 1, lastExecuted := Some(now))
  }

  /** A dip buy adds exactly the amount spent and the tokens received to the
      open position, and, bought at or below the average entry price, never
      raises that average. */
  lemma DipBuyImprovesAverage(s: Strategy, dipPrice: real, maxAmount: real, swap: SwapResult, lotId: string, now: int)
    requires swap.success
    ensures var s' := ExecuteDipBuy(s, dipPrice, Some(maxAmount), Some(swap), lotId, now);
      var amount := ClampedAmount(s.tradeAmount, maxAmount);
      var tokens := ReceivedFirst(swap);
      && OpenWLD(s'.positions) == OpenWLD(s.positions) + amount
      && OpenTokens(s'.positions) == OpenTokens(s.positions) + tokens
      && (OpenTokens(s.positions) > 0.0 && tokens > 0.0 && amount / tokens <= AveragePrice(s.positions).value ==>
            AveragePrice(s'.positions).value <= AveragePrice(s.positions).value)
  {
    var s' := ExecuteDipBuy(s, dipPrice, Some(maxAmount), Some(swap), lotId, now);
    var l := s'.positions[|s.positions|];
    assert s'.positions == s.positions + [l];
    AppendOpenLot(s.positions, l);
    if OpenTokens(s.positions) > 0.0 && ReceivedFirst(swap) > 0.0 {
      AverageNotWorsened(s.positions, l);
    }
  }

  // ----- Profit range: one partial sell -----

  /** A rung after it has fired. */
  function Fired(st: SellStep, tokensSold: real, wldReceived: real, now: int): SellStep {
    st.(executed := true, executedAt := Some(now), actualTokensSold := tokensSold, actualWLDReceived := wldReceived)
  }

  /** The profit booked for a partial sell: the proceeds less the cost basis
      of what was sold, i.e. less the fraction `ratio` of the WLD invested in
      the open lots. */
  function RangeStepProfit(received: real, openWLD: real, ratio: real): real {
    received - openWLD * ratio
  }

  /** The profit the source books: `actualWLDReceived - tokensToSell /
      currentPrice`, a WLD amount minus a token amount divided by a price.
      None when the price is 0 (a non-finite result). */
  function RangeStepProfitAsWritten(received: real, tokensSold: real, price: real): (p: Option<real>)
    ensures price != 0.0 ==> p.Some? && p.value * price == received * price - tokensSold
  {
    var q := Div(tokensSold, price);
    if q.Some? then Some(received - q.value) else None
  }

  /** Selling at exactly the average entry price makes no profit. */
  lemma RangeStepAtCostIsBreakEven(openWLD: real, openTokens: real, sellPercentage: real)
    requires openTokens != 0.0
    ensures var sold := TokensToSell(openTokens, sellPercentage);
      RangeStepProfit(sold * (openWLD / openTokens), openWLD, SellRatio(sold, openTokens)) == 0.0
  {
    var q := sellPercentage / 100.0;
    var sold := openTokens * q;
    assert sold / openTokens == q;
    assert sold * (openWLD / openTokens) == q * openWLD;
  }

  /** The source's formula does not: one lot of 100 tokens bought for 10 WLD
      (0.1 WLD each) is half sold at 0.2 WLD for 10 WLD. The cost basis of the
      50 tokens sold is 5 WLD, so the profit is 5 WLD; the source books
      10 - 50 / 0.2 = -240. Sold at cost (0.1 for 5 WLD) it books -495. */
  lemma RangeStepProfitMisstated()
    ensures RangeStepProfit(10.0, 10.0, 0.5) == 5.0
    ensures RangeStepProfitAsWritten(10.0, 50.0, 0.2) == Some(-240.0)
    ensures RangeStepProfit(5.0, 10.0, 0.5) == 0.0
    ensures RangeStepProfitAsWritten(5.0, 50.0, 0.1) == Some(-495.0)
  {
    assert 50.0 / 0.2 == 250.0;
    assert 50.0 / 0.1 == 500.0;
  }

  /** `totalTokens * (sellPercentage / 100)`: the tokens a rung sells. */
  function TokensToSell(totalTokens: real, sellPercentage: real): real {
    totalTokens * (sellPercentage / 100.0)
  }

  /** The fraction of every open lot that a sale of `sold` out of `total` tokens takes. */
  function SellRatio(sold: real, total: real): real
    requires total != 0.0
  {
    sold / total
  }

  /** What one executed rung `k` does to the strategy: the rung is latched as
      fired, every open lot gives up the same fraction of its tokens and WLD
      (lots left with dust close), both trade counters go up and the profit of
      the sale is booked. `received` is the WLD the swap returned. */
  ghost predicate RangeStepped(s: Strategy, k: nat, price: real, received: real, now: int, s': Strategy)
    requires s.profitRangeState.Some? && k < |s.profitRangeState.value.sellSteps|
    requires OpenTokens(s.positions) != 0.0
  {
    var steps := s.profitRangeState.value.sellSteps;
    var total := OpenTokens(s.positions);
    var sold := TokensToSell(total, steps[k].sellPercentage);
    var ratio := SellRatio(sold, total);
    && s'.profitRangeState == Some(s.profitRangeState.value.(sellSteps := steps[k := Fired(steps[k], sold, received, now)]))
    && |s'.positions| == |s.positions|
    && (forall i :: 0 <= i < |s.positions| ==> s'.positions[i] == ReduceLot(s.positions[i], ratio, price, now))
    && s' == s.(positions := s'.positions, profitRangeState := s'.profitRangeState,
                totalTrades := s.totalTrades + 1, successfulTrades := s.successfulTrades + 1,
                totalProfit := s.totalProfit + RangeStepProfit(received, OpenWLD(s.positions), ratio))
  }

  /** `executeProfitRangeStep` for rung `k`. The open lots hold tokens (the
      only caller reaches it with a finite average entry price). On a failed
      swap nothing changes. */
  method ExecuteProfitRangeStep(s: Strategy, k: nat, price: real, swap: Option<SwapResult>, now: int)
    returns (s': Strategy)
    requires s.profitRangeState.Some? && k < |s.profitRangeState.value.sellSteps|
    requires OpenTokens(s.positions) != 0.0
    ensures !Succeeded(swap) ==> s' == s
    ensures Succeeded(swap) ==> RangeStepped(s, k, price, swap.value.amountOut, now, s')
    ensures OnlySells(s, s') && (Bookkept(s) ==> Bookkept(s'))
  {
    if !Succeeded(swap) {
      return s;
    }
    var state := s.profitRangeState.value;
    var step := state.sellSteps[k];
    var totalTokens := OpenTokens(s.positions);
    var tokensToSell := TokensToSell(totalTokens, step.sellPercentage);
    var received := swap.value.amountOut;
    var fired := Fired(step, tokensToSell, received, now);
    var sellRatio := SellRatio(tokensToSell, totalTokens);
    var lots := ReduceOpenLots(s.positions, sellRatio, price, now);
    s' := s.(profitRangeState := Some(state.(sellSteps := state.sellSteps[k := fired])),
             positions := lots,
             totalTrades := s.totalTrades + 1,
             successfulTrades := s.successfulTrades + 1,
             totalProfit := s.totalProfit + RangeStepProfit(received, OpenWLD(s.positions), sellRatio));
    SteppedOnlySells(s, k, price, received, now, s');
  }

  lemma FractionOfWhole(total: real, percent: real)
    requires total != 0.0
    ensures Scale(total, SellRatio(TokensToSell(total, percent), total)) == total - TokensToSell(total, percent)
  {
    var q := percent / 100.0;
    assert total * q / total == q;
  }

  /** Conservation on a partial sell: the lots that were open keep, in all,
      exactly the tokens that were not sold, and the fired rung is latched so
      that it can never be selected again. */
  lemma RangeStepConserves(s: Strategy, k: nat, price: real, received: real, now: int, s': Strategy)
    requires s.profitRangeState.Some? && k < |s.profitRangeState.value.sellSteps|
    requires OpenTokens(s.positions) != 0.0
    requires RangeStepped(s, k, price, received, now, s')
    ensures var total := OpenTokens(s.positions);
      var sold := TokensToSell(total, s.profitRangeState.value.sellSteps[k].sellPercentage);
      TokensWhereOpen(s.positions, s'.positions) == total - sold
    ensures var steps' := s'.profitRangeState.value.sellSteps;
      k < |steps'| && steps'[k].executed && forall p :: !Eligible(steps'[k], p)
  {
    var total := OpenTokens(s.positions);
    var pct := s.profitRangeState.value.sellSteps[k].sellPercentage;
    var sold := TokensToSell(total, pct);
    ReductionConserves(s.positions, s'.positions, SellRatio(sold, total), price, now);
    FractionOfWhole(total, pct);
  }

  /** A fired rung takes its percentage of the tokens open at that moment,
      not of the position as bought: what it leaves is `Remainder` of the
      open tokens after that one rung. */
  lemma RangeStepLeavesRemainder(s: Strategy, k: nat, price: real, received: real, now: int, s': Strategy)
    requires s.profitRangeState.Some? && k < |s.profitRangeState.value.sellSteps|
    requires OpenTokens(s.positions) != 0.0
    requires RangeStepped(s, k, price, received, now, s')
    ensures TokensWhereOpen(s.positions, s'.positions)
         == Remainder(OpenTokens(s.positions), [s.profitRangeState.value.sellSteps[k]])
  {
    RangeStepConserves(s, k, price, received, now, s');
    var step := s.profitRangeState.value.sellSteps[k];
    var total := OpenTokens(s.positions);
    assert [step][1..] == [];
    assert Remainder(total, [step]) == total * (1.0 - step.sellPercentage / 100.0);
  }

  // ----- Profit range: choosing and executing a rung -----

  /** The ladder the strategy works with: its own, or a fresh one. */
  function CurrentSteps(s: Strategy, sqrt: real -> real): seq<SellStep> {
    if s.profitRangeState.Some? then s.profitRangeState.value.sellSteps
    else Ladder(s.profitRangeMode, s.profitRangeSteps, s.profitRangeMin, s.profitRangeMax, sqrt)
  }

  /** The strategy after `handleProfitRange` has (created and) re-aimed its
      ladder at the current average entry price, before anything is sold. */
  function Reaimed(s: Strategy, sqrt: real -> real): Strategy {
    var totalSold := if s.profitRangeState.Some? then s.profitRangeState.value.totalSold else 0.0;
    var steps := Retargeted(CurrentSteps(s, sqrt), AveragePrice(s.positions), OpenTokens(s.positions));
    s.(profitRangeState := Some(RangeState(steps, totalSold)))
  }

  /** The price has entered the profit range: it is at least the average entry
      price raised by `profitRangeMin` percent. */
  predicate InProfitRange(s: Strategy, price: real) {
    AtMost(TriggerFor(AveragePrice(s.positions), s.profitRangeMin), price)
  }

  /** `handleProfitRange`: create the ladder if there is none, re-aim the
      unexecuted rungs, and when the price is inside the range execute the
      eligible rung with the highest trigger price. `sqrt` is the square root
      the aggressive mode uses. */
  method HandleProfitRange(s: Strategy, price: real, swap: Option<SwapResult>, now: int, sqrt: real -> real)
    returns (s': Strategy)
    ensures var r := Reaimed(s, sqrt);
      var k := SelectStep(r.profitRangeState.value.sellSteps, price);
      && (!InProfitRange(s, price) || k.None? || !Succeeded(swap) ==> s' == r)
      && (InProfitRange(s, price) && k.Some? && Succeeded(swap) ==>
            OpenTokens(s.positions) != 0.0 &&
            RangeStepped(r, k.value, price, swap.value.amountOut, now, s'))
    ensures OnlySells(s, s') && (Bookkept(s) ==> Bookkept(s'))
  {
    var state: RangeState;
    if s.profitRangeState.None? {
      var steps := CalculateSteps(s.profitRangeMode, s.profitRangeSteps, s.profitRangeMin, s.profitRangeMax, sqrt);
      state := RangeState(steps, 0.0);
    } else {
      state := s.profitRangeState.value;
    }
    var avg := AveragePrice(s.positions);
    var steps := RetargetSteps(state.sellSteps, avg, OpenTokens(s.positions));
    s' := s.(profitRangeState := Some(state.(sellSteps := steps)));
    assert s' == Reaimed(s, sqrt);
    ReaimedOnlySells(s, sqrt);
    if InProfitRange(s, price) {
      var k := SelectStep(steps, price);
      if k.Some? {
        assert s'.positions == s.positions;
        var r := s';
        s' := ExecuteProfitRangeStep(r, k.value, price, swap, now);
        OnlySellsTrans(s, r, s');
      }
    }
  }

  /** Re-aiming never changes a fired rung, so a rung that has fired is never
      selected again, whatever the price. */
  lemma FiredRungsStayFired(s: Strategy, sqrt: real -> real, price: real)
    requires s.profitRangeState.Some?
    ensures var steps := s.profitRangeState.value.sellSteps;
      var steps' := Reaimed(s, sqrt).profitRangeState.value.sellSteps;
      && |steps'| == |steps|
      && (forall i :: 0 <= i < |steps| && steps[i].executed ==> steps'[i] == steps[i])
      && (forall i :: 0 <= i < |steps| ==> steps'[i].executed == steps[i].executed)
      && var k := SelectStep(steps', price); k.Some? ==> !steps[k.value].executed
  {
  }

  /** With no tokens held the average entry price is not a number: every
      unexecuted rung loses its trigger, the range is never entered and no
      rung executes. */
  lemma NoPositionNoRangeSell(s: Strategy, price: real, swap: Option<SwapResult>, now: int, sqrt: real -> real)
    requires OpenLots(s.positions) == []
    ensures !InProfitRange(s, price)
  {
  }

  // ----- Simple mode: the whole-portfolio sell -----

  /** What a successful whole-portfolio sell does: every open lot is closed
      with its proportional share of the proceeds, the profit is booked, and
      only the success counter (not the trade counter) goes up. */
  ghost predicate SoldAll(s: Strategy, price: real, swap: SwapResult, now: int, s': Strategy) {
    var received := ReceivedFirst(swap);
    var invested := OpenWLD(s.positions);
    && |s'.positions| == |s.positions|
    && (forall i :: 0 <= i < |s.positions| ==>
          s'.positions[i] == if s.positions[i].status == Open
                             then CloseLot(s.positions[i], invested, received, price, now, swap.txHash)
                             else s.positions[i])
    && s' == s.(positions := s'.positions, successfulTrades := s.successfulTrades + 1,
                totalProfit := s.totalProfit + (received - invested), lastExecuted := Some(now))
  }

  /** `executeProfitSellAll`; `swap` is the exchange's answer to selling all
      open tokens (None: the call failed). */
  method ExecuteProfitSellAll(s: Strategy, price: real, swap: Option<SwapResult>, now: int) returns (s': Strategy)
    ensures !Succeeded(swap) ==> s' == s
    ensures Succeeded(swap) ==> SoldAll(s, price, swap.value, now, s')
    ensures OnlySells(s, s') && (Bookkept(s) && OpenLots(s.positions) != [] ==> Bookkept(s'))
  {
    if !Succeeded(swap) {
      return s;
    }
    var result := swap.value;
    var wldReceived := ReceivedFirst(result);
    var totalInvested := OpenWLD(s.positions);
    var realizedPnL := wldReceived - totalInvested;
    var lots := CloseOpenLots(s.positions, totalInvested, wldReceived, price, now, result.txHash);
    s' := s.(positions := lots,
             successfulTrades := s.successfulTrades + 1,
             totalProfit := s.totalProfit + realizedPnL,
             lastExecuted := Some(now));
    SoldAllOnlySells(s, price, result, now, s');
  }

  lemma {:induction false} NoneOpenAfterClose(lots: seq<Lot>, r: seq<Lot>, invested: real, received: real,
                                              price: real, now: int, txHash: string)
    requires |r| == |lots|
    requires forall i :: 0 <= i < |lots| ==>
      r[i] == if lots[i].status == Open then CloseLot(lots[i], invested, received, price, now, txHash) else lots[i]
    ensures OpenLots(r) == []
  {
    if lots != [] {
      forall i | 0 <= i < |lots| - 1 ensures
        r[1..][i] == if lots[1..][i].status == Open then CloseLot(lots[1..][i], invested, received, price, now, txHash) else lots[1..][i]
      {
        assert r[1..][i] == r[i + 1] && lots[1..][i] == lots[i + 1];
      }
      NoneOpenAfterClose(lots[1..], r[1..], invested, received, price, now, txHash);
      assert r[0].status == Closed;
    }
  }

  /** After a whole-portfolio sell no lot is open, the proceeds credited to
      the lots add up to what the swap returned (when the lots cost anything),
      and the trade counter is unchanged. */
  lemma SellAllClosesEverything(s: Strategy, price: real, swap: SwapResult, now: int, s': Strategy)
    requires SoldAll(s, price, swap, now, s')
    ensures OpenLots(s'.positions) == []
    ensures OpenWLD(s.positions) != 0.0 ==> ExitWhereOpen(s.positions, s'.positions) == ReceivedFirst(swap)
    ensures s'.totalTrades == s.totalTrades
  {
    var received := ReceivedFirst(swap);
    var invested := OpenWLD(s.positions);
    NoneOpenAfterClose(s.positions, s'.positions, invested, received, price, now, swap.txHash);
    if invested != 0.0 {
      ExitSharesAddUp(s.positions, s'.positions, invested, received, price, now, swap.txHash);
    }
  }

  // ----- The per-lot profit check -----

  /** The strategy once lot `idx` has been told the whole portfolio's
      unrealized P&L at `price`. */
  function Marked(s: Strategy, idx: nat, price: real): Strategy
    requires idx < |s.positions|
  {
    var totalWLD := OpenWLD(s.positions);
    var pnl := OpenTokens(s.positions) * price - totalWLD;
    s.(positions := s.positions[idx := s.positions[idx].(unrealizedPnL := pnl,
                                                      unrealizedPnLPercent := Percent(pnl, totalWLD))])
  }

  /** Simple mode's sell signal: the price has reached the average entry price
      raised by `profitTarget` percent. */
  predicate TargetReached(s: Strategy, price: real) {
    AtMost(TriggerFor(AveragePrice(s.positions), s.profitTarget), price)
  }

  /** `checkPositionForProfit` for lot `idx`. `wallet` must be set (the source
      reads its address) and `quote` is the exchange's price for one token
      (None: no usable quote); without either nothing changes. Otherwise the
      lot records the portfolio's unrealized P&L and the strategy proceeds in
      profit-range mode or in simple mode. */
  method CheckPositionForProfit(s: Strategy, idx: nat, quote: Option<real>, swap: Option<SwapResult>, now: int,
                                sqrt: real -> real) returns (s': Strategy)
    requires idx < |s.positions|
    ensures s.wallet.None? || quote.None? ==> s' == s
    ensures s.wallet.Some? && quote.Some? && s.enableProfitRange ==>
      var m := Marked(s, idx, quote.value);
      var r := Reaimed(m, sqrt);
      var k := SelectStep(r.profitRangeState.value.sellSteps, quote.value);
      && (!InProfitRange(m, quote.value) || k.None? || !Succeeded(swap) ==> s' == r)
      && (InProfitRange(m, quote.value) && k.Some? && Succeeded(swap) ==>
            OpenTokens(m.positions) != 0.0 &&
            RangeStepped(r, k.value, quote.value, swap.value.amountOut, now, s'))
    ensures s.wallet.Some? && quote.Some? && !s.enableProfitRange ==>
      var m := Marked(s, idx, quote.value);
      && (!TargetReached(s, quote.value) || !Succeeded(swap) ==> s' == m)
      && (TargetReached(s, quote.value) && Succeeded(swap) ==> SoldAll(m, quote.value, swap.value, now, s'))
    ensures OnlySells(s, s') && (Bookkept(s) ==> Bookkept(s'))
  {
    if s.wallet.None? || quote.None? {
      return s;
    }
    var currentPrice := quote.value;
    var m := Marked(s, idx, currentPrice);
    MarkKeepsPortfolio(s, idx, currentPrice);
    MarkedOnlySells(s, idx, currentPrice);
    s' := m;
    if s.enableProfitRange {
      s' := HandleProfitRange(m, currentPrice, swap, now, sqrt);
      OnlySellsTrans(s, m, s');
    } else if TargetReached(s, currentPrice) {
      assert OpenLots(m.positions) != [];
      s' := ExecuteProfitSellAll(m, currentPrice, swap, now);
      OnlySellsTrans(s, m, s');
    }
  }

  /** The loop of a monitoring tick over the lots that are open when it
      starts: each is checked in turn, the `j`-th check with `quote(j)` and
      `swap(j)`. A lot closed by an earlier check (a whole-portfolio sell, or
      dust left by a partial sell) is still checked. */
  method CheckOpenLots(s: Strategy, quote: nat -> Option<real>, swap: nat -> Option<SwapResult>, now: int,
                       sqrt: real -> real) returns (s': Strategy)
    ensures OnlySells(s, s')
    ensures Bookkept(s) ==> Bookkept(s')
  {
    var openPositions := OpenIndices(s.positions);
    s' := s;
    var j := 0;
    while j < |openPositions|
      invariant 0 <= j <= |openPositions|
      invariant OnlySells(s, s') && (Bookkept(s) ==> Bookkept(s'))
    {
      var next := CheckPositionForProfit(s', openPositions[j], quote(j), swap(j), now, sqrt);
      OnlySellsTrans(s, s', next);
      s' := next;
      j := j + 1;
    }
  }

  /** Recording the unrealized P&L on a lot changes no amount and no status,
      so neither the open lots, nor their totals, nor the average entry price. */
  lemma MarkKeepsPortfolio(s: Strategy, idx: nat, price: real)
    requires idx < |s.positions|
    ensures var m := Marked(s, idx, price);
      && OpenWLD(m.positions) == OpenWLD(s.positions)
      && OpenTokens(m.positions) == OpenTokens(s.positions)
      && AveragePrice(m.positions) == AveragePrice(s.positions)
      && (forall p :: TargetReached(m, p) == TargetReached(s, p))
      && (forall p :: InProfitRange(m, p) == InProfitRange(s, p))
  {
    var m := Marked(s, idx, price);
    TotalsOfUpdate(s.positions, idx, m.positions[idx]);
  }

  /** Replacing a lot by one with the same status and amounts keeps the totals
      of the open lots. */
  lemma {:induction false} TotalsOfUpdate(lots: seq<Lot>, idx: nat, l: Lot)
    requires idx < |lots|
    requires l.status == lots[idx].status && l.entryAmountWLD == lots[idx].entryAmountWLD
    requires l.entryAmountToken == lots[idx].entryAmountToken
    ensures OpenWLD(lots[idx := l]) == OpenWLD(lots) && OpenTokens(lots[idx := l]) == OpenTokens(lots)
    ensures |OpenLots(lots[idx := l])| == |OpenLots(lots)|
  {
    var lots' := lots[idx := l];
    OpenLotsCons(lots);
    OpenLotsCons(lots');
    if idx > 0 {
      assert lots'[1..] == lots[1..][idx - 1 := l];
      TotalsOfUpdate(lots[1..], idx - 1, l);
    } else {
      assert lots'[1..] == lots[1..];
    }
  }
}
