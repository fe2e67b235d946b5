/** The strategy builder: the store of custom strategies, their
    Stopped/Active lifecycle, the per-token price histories, one monitoring
    tick, and the statistics over all strategies. Timers are not modelled: a
    running strategy's interval is recorded by its period, and one tick is one
    call of MonitorStrategy with the clock reading and the exchange's answers
    passed in. */
module Builder {
  import opened Common
  import opened Engine
  import opened PriceHistory
  import opened Lots
  import opened DipDetector
  import opened Strategies

  /** `activeStrategies`' entry for a running strategy. */
  datatype ActiveState = ActiveState(startTime: int, lastCheck: Option<int>, checksPerformed: nat)

  datatype BuilderError = NotFound(id: string) | AlreadyActive(name: string)

  datatype Result<T> = Ok(value: T) | Err(error: BuilderError)

  /** One row of the statistics' per-strategy list. */
  datatype Summary = Summary(id: string, name: string, tokenSymbol: string, isActive: bool,
                             totalTrades: int, successfulTrades: int, totalProfit: real, openPositions: nat)

  datatype Statistics = Statistics(
    totalStrategies: nat,
    activeStrategies: nat,
    totalTrades: int,
    successfulTrades: int,
    successRate: real,      // percent; 0 when nothing was traded
    totalProfit: real,
    strategies: seq<Summary>)

  function CountActive(ss: seq<Strategy>): (n: nat)
    ensures n <= |ss|
  {
    if ss == [] then 0 else (if ss[0].isActive then 1 else 0) + CountActive(ss[1..])
  }

  /** The count is 0 exactly when no strategy is active, and the number of
      strategies exactly when all are. */
  lemma {:induction false} CountActiveExtremes(ss: seq<Strategy>)
    ensures CountActive(ss) == 0 <==> forall i :: 0 <= i < |ss| ==> !ss[i].isActive
    ensures CountActive(ss) == |ss| <==> forall i :: 0 <= i < |ss| ==> ss[i].isActive
  {
    if ss != [] {
      CountActiveExtremes(ss[1..]);
      assert forall i :: 1 <= i < |ss| ==> ss[i] == ss[1..][i - 1];
    }
  }

  function SumTrades(ss: seq<Strategy>): int {
    if ss == [] then 0 else ss[0].totalTrades + SumTrades(ss[1..])
  }

  function SumSuccessful(ss: seq<Strategy>): int {
    if ss == [] then 0 else ss[0].successfulTrades + SumSuccessful(ss[1..])
  }

  function SumProfit(ss: seq<Strategy>): real {
    if ss == [] then 0.0 else ss[0].totalProfit + SumProfit(ss[1..])
  }

  function SummaryOf(s: Strategy): Summary {
    Summary(s.id, s.name, s.tokenSymbol, s.isActive, s.totalTrades, s.successfulTrades, s.totalProfit,
            |OpenLots(s.positions)|)
  }

  /** `successfulTrades / totalTrades * 100`, or 0 when nothing was traded. */
  function SuccessRate(successful: int, total: int): real {
    if total > 0 then successful as real / total as real * 100.0 else 0.0
  }

  /** `getStrategyStatistics` over the strategies in store order. */
  function StrategyStatistics(ss: seq<Strategy>): (st: Statistics)
    ensures st.totalStrategies == |ss| && st.activeStrategies <= st.totalStrategies
    ensures |st.strategies| == |ss|
    ensures forall i :: 0 <= i < |ss| ==>
      st.strategies[i].id == ss[i].id && st.strategies[i].openPositions == |OpenLots(ss[i].positions)|
  {
    var total := SumTrades(ss);
    var successful := SumSuccessful(ss);
    Statistics(|ss|, CountActive(ss), total, successful, SuccessRate(successful, total), SumProfit(ss),
               seq(|ss|, i requires 0 <= i < |ss| => SummaryOf(ss[i])))
  }

  lemma {:induction false} SuccessfulWithinTotal(ss: seq<Strategy>)
    requires forall i :: 0 <= i < |ss| ==> Bookkept(ss[i])
    ensures 0 <= SumSuccessful(ss) <= SumTrades(ss)
  {
    if ss != [] {
      assert Bookkept(ss[0]);
      SuccessfulWithinTotal(ss[1..]);
    }
  }

  /** While every strategy's counters are consistent (as every operation of
      the builder keeps them), the reported success rate lies in 0..100. */
  lemma SuccessRateIsAPercentage(ss: seq<Strategy>)
    requires forall i :: 0 <= i < |ss| ==> Bookkept(ss[i])
    ensures 0.0 <= StrategyStatistics(ss).successRate <= 100.0
  {
    SuccessfulWithinTotal(ss);
    var t := SumTrades(ss) as real;
    var u := SumSuccessful(ss) as real;
    if t > 0.0 {
      assert u / t <= 1.0 by {
        assert u <= t;
      }
    }
  }

  /** The tick counters after one more check at `now`. */
  function Ticked(a: ActiveState, now: int): (a': ActiveState)
    ensures a'.startTime == a.startTime && a'.lastCheck == Some(now)
    ensures a'.checksPerformed == a.checksPerformed + 1
  {
    a.(lastCheck := Some(now), checksPerformed := a.checksPerformed + 1)
  }

  /** A tick with no open lot: record the price, then buy if it is a dip. */
  function TickWithoutPosition(s: Strategy, history: seq<PricePoint>, price: real, now: int,
                               maxAmount: Option<real>, buySwap: Option<SwapResult>, lotId: string): Strategy
  {
    if CheckForDip(history, s.positions, price, now, s.dipTimeframe, s.dipThreshold).Dip?
    then ExecuteDipBuy(s, price, maxAmount, buySwap, lotId, now)
    else s
  }

  /** The builder's maps, as one value. */
  datatype Store = Store(
    strategies: map<string, Strategy>,       // customStrategies
    order: seq<string>,                      // the order customStrategies iterates in
    activeStates: map<string, ActiveState>,  // activeStrategies
    priceHistory: map<string, TokenHistory>,
    intervals: map<string, int>)             // monitoringIntervals, by period

  /** The store lists every strategy exactly once. */
  ghost predicate Listed(order: seq<string>, strategies: map<string, Strategy>) {
    && (forall i :: 0 <= i < |order| ==> order[i] in strategies)
    && (forall id :: id in strategies ==> id in order)
    && (forall i, j :: 0 <= i < j < |order| ==> order[i] != order[j])
  }

  /** A strategy is active exactly when it has an active state and a
      monitoring interval, and then its token has a price history. */
  ghost predicate Lifecycle(strategies: map<string, Strategy>, activeStates: map<string, ActiveState>,
                            intervals: map<string, int>, priceHistory: map<string, TokenHistory>) {
    && activeStates.Keys == intervals.Keys
    && (forall id :: id in activeStates ==> id in strategies)
    && (forall id :: id in strategies ==> (strategies[id].isActive <==> id in activeStates))
    && (forall id :: id in activeStates ==> strategies[id].targetToken in priceHistory)
  }

  ghost predicate AllBookkept(strategies: map<string, Strategy>) {
    forall id :: id in strategies ==> Bookkept(strategies[id])
  }

  /** The invariant every operation of the builder keeps. */
  ghost predicate Consistent(st: Store) {
    Listed(st.order, st.strategies) && Lifecycle(st.strategies, st.activeStates, st.intervals, st.priceHistory)
    && AllBookkept(st.strategies)
  }

  datatype Outcome<T> = Outcome(store: Store, result: Result<T>)

  /** `createStrategy`, stored under a fresh id. */
  function Create(st: Store, c: StrategyConfig, id: string, now: int): Store
    requires id !in st.strategies
  {
    st.(strategies := st.strategies[id := CreateStrategy(c, id, now)], order := st.order + [id])
  }

  /** `startStrategy`: Stopped -> Active. */
  function Start(st: Store, id: string, wallet: string, now: int): Outcome<Strategy> {
    if id !in st.strategies then Outcome(st, Err(NotFound(id)))
    else
      var s := st.strategies[id];
      if s.isActive then Outcome(st, Err(AlreadyActive(s.name)))
      else
        var s' := s.(isActive := true, wallet := Some(wallet));
        var history := if s.targetToken in st.priceHistory then st.priceHistory
                       else st.priceHistory[s.targetToken := NewHistory(s.dipTimeframe)];
        Outcome(Store(st.strategies[id := s'], st.order, st.activeStates[id := ActiveState(now, None, 0)],
                      history, st.intervals[id := s.priceCheckInterval]),
                Ok(s'))
  }

  /** `stopStrategy`: -> Stopped. */
  function Stop(st: Store, id: string): Outcome<Strategy> {
    if id !in st.strategies then Outcome(st, Err(NotFound(id)))
    else
      var s' := st.strategies[id].(isActive := false);
      Outcome(st.(strategies := st.strategies[id := s'], activeStates := st.activeStates - {id},
                  intervals := st.intervals - {id}),
              Ok(s'))
  }

  /** `deleteStrategy`: stop the strategy if it runs, then forget it. */
  function Delete(st: Store, id: string): Outcome<bool> {
    if id !in st.strategies then Outcome(st, Err(NotFound(id)))
    else
      var stopped := if st.strategies[id].isActive then Stop(st, id).store else st;
      Outcome(stopped.(strategies := stopped.strategies - {id}, order := Without(stopped.order, id)), Ok(true))
  }

  /** The store after a tick of strategy `id` at `now` that saw `price` and
      left the strategy as `s'`. */
  function AfterTick(st: Store, id: string, now: int, price: Option<real>, s': Strategy): Store
    requires id in st.strategies && id in st.activeStates
  {
    var active := st.activeStates[id := Ticked(st.activeStates[id], now)];
    var token := st.strategies[id].targetToken;
    if price.None? || token !in st.priceHistory then st.(activeStates := active)
    else
      st.(activeStates := active, strategies := st.strategies[id := s'],
          priceHistory := st.priceHistory[token := Recorded(st.priceHistory[token], now, price.value)])
  }

  lemma CreateKeeps(st: Store, c: StrategyConfig, id: string, now: int)
    requires Consistent(st) && id !in st.strategies
    ensures Consistent(Create(st, c, id, now))
  {
    var s := CreateStrategy(c, id, now);
    CreateIsBookkept(c, id, now);
    ListedAdd(st.order, st.strategies, id, s);
    LifecycleAdd(st.strategies, st.activeStates, st.intervals, st.priceHistory, id, s);
  }

  /** Starting a stopped strategy makes it active, with a fresh active state,
      an interval of its own period and a price history for its token; the
      other strategies are untouched. Starting an unknown or an active
      strategy is refused and changes nothing. */
  lemma StartActivates(st: Store, id: string, wallet: string, now: int)
    ensures var o := Start(st, id, wallet, now);
      && (id !in st.strategies ==> o == Outcome(st, Err(NotFound(id))))
      && (id in st.strategies && st.strategies[id].isActive ==> o.store == st && o.result.Err?)
      && (id in st.strategies && !st.strategies[id].isActive ==>
            && o.result.Ok? && o.store.strategies[id] == o.result.value && o.result.value.isActive
            && o.store.activeStates[id] == ActiveState(now, None, 0)
            && o.store.intervals[id] == st.strategies[id].priceCheckInterval
            && st.strategies[id].targetToken in o.store.priceHistory
            && (forall x :: x in st.strategies && x != id ==> o.store.strategies[x] == st.strategies[x])
            && o.store.strategies.Keys == st.strategies.Keys)
  {
  }

  /** Starting keeps the invariant. */
  lemma StartKeeps(st: Store, id: string, wallet: string, now: int)
    requires Consistent(st)
    ensures Consistent(Start(st, id, wallet, now).store)
  {
    if id in st.strategies && !st.strategies[id].isActive {
      var o := Start(st, id, wallet, now);
      var s' := o.result.value;
      ListedReplace(st.order, st.strategies, id, s');
      LifecycleStart(st.strategies, st.activeStates, st.intervals, st.priceHistory, o.store.priceHistory,
                     id, s', ActiveState(now, None, 0), st.strategies[id].priceCheckInterval);
      AllBookkeptUpdate(st.strategies, id, s');
    }
  }

  /** Stopping a known strategy leaves it inactive with no active state and
      no interval; only an unknown id is refused. The invariant is kept. */
  lemma StopKeeps(st: Store, id: string)
    requires Consistent(st)
    ensures var o := Stop(st, id);
      && Consistent(o.store)
      && (id !in st.strategies ==> o == Outcome(st, Err(NotFound(id))))
      && (id in st.strategies ==>
            && o.result.Ok? && !o.store.strategies[id].isActive
            && id !in o.store.activeStates && id !in o.store.intervals
            && o.store.strategies[id] == st.strategies[id].(isActive := false)
            && o.store.order == st.order && o.store.priceHistory == st.priceHistory)
  {
    if id in st.strategies {
      var s' := st.strategies[id].(isActive := false);
      ListedReplace(st.order, st.strategies, id, s');
      LifecycleStop(st.strategies, st.activeStates, st.intervals, st.priceHistory, id, s');
      AllBookkeptUpdate(st.strategies, id, s');
    }
  }

  /** Stopping twice is stopping once. */
  lemma StopIsIdempotent(st: Store, id: string)
    ensures Stop(Stop(st, id).store, id).store == Stop(st, id).store
  {
    if id in st.strategies {
      var s1 := Stop(st, id).store;
      assert s1.strategies[id].(isActive := false) == s1.strategies[id];
      assert s1.strategies[id := s1.strategies[id]] == s1.strategies;
      assert s1.activeStates - {id} == s1.activeStates;
      assert s1.intervals - {id} == s1.intervals;
    }
  }

  /** Starting and then stopping a stopped strategy (which, in a consistent
      store, has neither an active state nor an interval) restores the store,
      but for the wallet it was started with and the price history it gained. */
  lemma StartThenStop(st: Store, id: string, wallet: string, now: int)
    requires id in st.strategies && !st.strategies[id].isActive && id !in st.activeStates && id !in st.intervals
    ensures var st' := Stop(Start(st, id, wallet, now).store, id).store;
      && st'.strategies == st.strategies[id := st.strategies[id].(wallet := Some(wallet))]
      && st'.activeStates == st.activeStates && st'.intervals == st.intervals && st'.order == st.order
      && st.priceHistory.Keys <= st'.priceHistory.Keys
  {
    var st1 := Start(st, id, wallet, now).store;
    var st' := Stop(st1, id).store;
    assert st'.activeStates == st.activeStates;
    assert st'.intervals == st.intervals;
  }

  /** Deleting a known strategy removes every trace of it but its token's
      price history, and keeps the others in their order; an unknown id is
      refused and changes nothing. */
  lemma DeleteForgets(st: Store, id: string)
    requires Consistent(st)
    ensures var o := Delete(st, id);
      && (id !in st.strategies ==> o == Outcome(st, Err(NotFound(id))))
      && (id in st.strategies ==>
            && o.result == Ok(true)
            && id !in o.store.activeStates && id !in o.store.intervals
            && id !in o.store.order && |o.store.order| == |st.order| - 1
            && o.store.strategies == st.strategies - {id}
            && o.store.priceHistory == st.priceHistory)
  {
    if id in st.strategies {
      var stopped := if st.strategies[id].isActive then Stop(st, id).store else st;
      assert id !in stopped.activeStates && id !in stopped.intervals;
      assert stopped.strategies - {id} == st.strategies - {id};
      RemoveListed(stopped.order, id);
    }
  }

  /** Deleting keeps the invariant. */
  lemma DeleteKeeps(st: Store, id: string)
    requires Consistent(st)
    ensures Consistent(Delete(st, id).store)
  {
    if id in st.strategies {
      StopKeeps(st, id);
      var stopped := if st.strategies[id].isActive then Stop(st, id).store else st;
      assert Consistent(stopped);
      ListedRemove(stopped.order, stopped.strategies, id);
      LifecycleRemove(stopped.strategies, stopped.activeStates, stopped.intervals, stopped.priceHistory, id);
    }
  }

  /** A tick keeps the invariant when the strategy stays as active as it was,
      keeps its token and its counters consistent. */
  lemma TickKeeps(st: Store, id: string, now: int, price: Option<real>, s': Strategy)
    requires Consistent(st) && id in st.strategies && id in st.activeStates
    requires s'.isActive == st.strategies[id].isActive && s'.targetToken == st.strategies[id].targetToken
    requires Bookkept(s')
    ensures Consistent(AfterTick(st, id, now, price, s'))
  {
    var token := st.strategies[id].targetToken;
    var active := st.activeStates[id := Ticked(st.activeStates[id], now)];
    LifecycleTicked(st.strategies, st.activeStates, st.intervals, st.priceHistory, id, active);
    if price.Some? && token in st.priceHistory {
      ListedReplace(st.order, st.strategies, id, s');
      LifecycleTick(st.strategies, active, st.intervals, st.priceHistory, id, s', token,
                    Recorded(st.priceHistory[token], now, price.value));
      AllBookkeptUpdate(st.strategies, id, s');
    }
  }

  class StrategyBuilder {
    var strategies: map<string, Strategy>
    var order: seq<string>
    var activeStates: map<string, ActiveState>
    var priceHistory: map<string, TokenHistory>
    var intervals: map<string, int>

    function State(): Store
      reads this
    {
      Store(strategies, order, activeStates, priceHistory, intervals)
    }

    ghost predicate Valid()
      reads this
    {
      Consistent(State())
    }

    /** Replace the whole state. */
    method Commit(st: Store)
      modifies this
      ensures State() == st
    {
      strategies, order, activeStates, priceHistory, intervals :=
        st.strategies, st.order, st.activeStates, st.priceHistory, st.intervals;
    }

    /** An empty store (reading the saved strategies from disk is not modelled). */
    constructor ()
      ensures Valid()
      ensures State() == Store(map[], [], map[], map[], map[])
    {
      strategies, order, activeStates, priceHistory, intervals := map[], [], map[], map[], map[];
    }

    /** All strategies, in store order. */
    function AllStrategies(): (ss: seq<Strategy>)
      reads this
      requires Valid()
      ensures |ss| == |order|
      ensures forall i :: 0 <= i < |order| ==> ss[i] == strategies[order[i]]
    {
      seq(|order|, i requires 0 <= i < |order| && Valid() reads this => strategies[order[i]])
    }

    /** `getStrategyStatistics`. */
    function GetStrategyStatistics(): (st: Statistics)
      reads this
      requires Valid()
      ensures st.totalStrategies == |order| && st.activeStrategies <= st.totalStrategies
      ensures 0.0 <= st.successRate <= 100.0
    {
      var ss := AllStrategies();
      SuccessRateIsAPercentage(ss);
      StrategyStatistics(ss)
    }

    method CreateStrategy(c: StrategyConfig, id: string, now: int) returns (s: Strategy)
      requires Valid()
      requires id !in strategies
      modifies this
      ensures Valid()
      ensures s == Strategies.CreateStrategy(c, id, now)
      ensures State() == Create(old(State()), c, id, now)
    {
      CreateKeeps(State(), c, id, now);
      s := Strategies.CreateStrategy(c, id, now);
      Commit(Create(State(), c, id, now));
    }

    method StartStrategy(id: string, wallet: string, now: int) returns (r: Result<Strategy>)
      requires Valid()
      modifies this
      ensures Valid()
      ensures Outcome(State(), r) == Start(old(State()), id, wallet, now)
    {
      var o := Start(State(), id, wallet, now);
      StartKeeps(State(), id, wallet, now);
      Commit(o.store);
      r := o.result;
    }

    method StopStrategy(id: string) returns (r: Result<Strategy>)
      requires Valid()
      modifies this
      ensures Valid()
      ensures Outcome(State(), r) == Stop(old(State()), id)
    {
      var o := Stop(State(), id);
      StopKeeps(State(), id);
      Commit(o.store);
      r := o.result;
    }

    method DeleteStrategy(id: string) returns (r: Result<bool>)
      requires Valid()
      modifies this
      ensures Valid()
      ensures Outcome(State(), r) == Delete(old(State()), id)
    {
      var o := Delete(State(), id);
      DeleteKeeps(State(), id);
      Commit(o.store);
      r := o.result;
    }

    /** One tick of `monitorStrategy` for strategy `id` at time `now`; see
        `Monitor`, which it applies to the builder's state. */
    method MonitorStrategy(id: string, now: int, price: Option<real>,
                           quote: nat -> Option<real>, swap: nat -> Option<SwapResult>,
                           maxAmount: Option<real>, buySwap: Option<SwapResult>, lotId: string,
                           sqrt: real -> real)
      requires Valid()
      modifies this
      ensures Valid()
      ensures Monitored(old(State()), id, now, price, maxAmount, buySwap, lotId, State())
    {
      var st' := Monitor(State(), id, now, price, quote, swap, maxAmount, buySwap, lotId, sqrt);
      Commit(st');
    }
  }

  /** What one tick does to the store. A strategy that is not running leaves
      it unchanged. Otherwise the store is `AfterTick` of the strategy's new
      value, and when the price was obtained that value is `TickedWithPrice`
      of the old one on the token's history. */
  ghost predicate Monitored(st: Store, id: string, now: int, price: Option<real>,
                            maxAmount: Option<real>, buySwap: Option<SwapResult>, lotId: string,
                            st': Store)
    requires Consistent(st)
  {
    if id !in st.strategies || id !in st.activeStates then st' == st
    else
      && id in st'.strategies
      && st' == AfterTick(st, id, now, price, st'.strategies[id])
      && (price.Some? ==>
            var s := st.strategies[id];
            TickedWithPrice(s, st.priceHistory[s.targetToken], now, price.value,
                            maxAmount, buySwap, lotId, st'.strategies[id]))
  }

  /** `monitorStrategy` on the store. `price` is the token's current price
      (None: the price lookup failed). When lots are open, each lot that was
      open at the start of the tick is checked in turn; the `j`-th check is
      given `quote(j)` and `swap(j)`. When none is open, the dip detector runs
      on the updated history and a dip buy is given `maxAmount`, `buySwap` and
      the new lot's id. */
  method Monitor(st: Store, id: string, now: int, price: Option<real>,
                 quote: nat -> Option<real>, swap: nat -> Option<SwapResult>,
                 maxAmount: Option<real>, buySwap: Option<SwapResult>, lotId: string,
                 sqrt: real -> real) returns (st': Store)
    requires Consistent(st)
    ensures Consistent(st')
    ensures Monitored(st, id, now, price, maxAmount, buySwap, lotId, st')
  {
    st' := st;
    if id in st.strategies && id in st.activeStates {
      var s := st.strategies[id];
      var s' := s;
      assert s.targetToken in st.priceHistory;
      if price.Some? {
        var h;
        s', h := TickWithPrice(s, st.priceHistory[s.targetToken], now, price.value, quote, swap,
                               maxAmount, buySwap, lotId, sqrt);
      }
      TickKeeps(st, id, now, price, s');
      st' := AfterTick(st, id, now, price, s');
      assert price.Some? ==> st'.strategies[id] == s';
    }
  }

  /** What a tick with a price does to the strategy: with lots open it only
      sells (the open lots are checked); with none open it is the dip check on
      the history with the new price recorded. */
  ghost predicate TickedWithPrice(s: Strategy, data: TokenHistory, now: int, currentPrice: real,
                                  maxAmount: Option<real>, buySwap: Option<SwapResult>, lotId: string,
                                  s': Strategy)
  {
    && (OpenLots(s.positions) != [] ==> OnlySells(s, s'))
    && (OpenLots(s.positions) == [] ==>
          s' == TickWithoutPosition(s, Recorded(data, now, currentPrice).prices, currentPrice, now,
                                    maxAmount, buySwap, lotId))
  }

  /** The part of a tick after the price was obtained: the price is recorded
      in the token's history (pushed, then the expired head evicted) and the
      strategy either checks its open lots or looks for a dip. */
  method TickWithPrice(s: Strategy, data: TokenHistory, now: int, currentPrice: real,
                       quote: nat -> Option<real>, swap: nat -> Option<SwapResult>,
                       maxAmount: Option<real>, buySwap: Option<SwapResult>, lotId: string,
                       sqrt: real -> real) returns (s': Strategy, h: TokenHistory)
    ensures h == Recorded(data, now, currentPrice)
    ensures s'.isActive == s.isActive && s'.targetToken == s.targetToken
    ensures Bookkept(s) ==> Bookkept(s')
    ensures TickedWithPrice(s, data, now, currentPrice, maxAmount, buySwap, lotId, s')
  {
    var prices := data.prices + [PricePoint(now, currentPrice)];
    prices := EvictExpired(prices, now - data.maxHistoryAge);
    h := data.(prices := prices);
    if OpenLots(s.positions) != [] {
      s' := CheckOpenLots(s, quote, swap, now, sqrt);
      assert s'.targetToken == s.targetToken by { assert ConfigOf(s') == ConfigOf(s); }
    } else {
      if Bookkept(s) {
        DipBuyKeepsBooks(s, currentPrice, maxAmount, buySwap, lotId, now);
      }
      s' := TickWithoutPosition(s, prices, currentPrice, now, maxAmount, buySwap, lotId);
    }
  }

  lemma LifecycleTicked(m: map<string, Strategy>, a: map<string, ActiveState>, iv: map<string, int>,
                        ph: map<string, TokenHistory>, id: string, a': map<string, ActiveState>)
    requires Lifecycle(m, a, iv, ph) && a'.Keys == a.Keys
    ensures Lifecycle(m, a', iv, ph)
  {
  }

  lemma ListedAdd(order: seq<string>, m: map<string, Strategy>, id: string, s: Strategy)
    requires Listed(order, m) && id !in m
    ensures Listed(order + [id], m[id := s])
  {
    var o := order + [id];
    forall i | 0 <= i < |o| ensures o[i] in m[id := s] {
      if i < |order| { assert o[i] == order[i]; }
    }
    forall x | x in m[id := s] ensures x in o {
      if x != id { assert x in order; }
    }
    forall i, j | 0 <= i < j < |o| ensures o[i] != o[j] {
      if j == |order| { assert o[i] == order[i] && order[i] in m; }
    }
  }

  lemma ListedReplace(order: seq<string>, m: map<string, Strategy>, id: string, s: Strategy)
    requires Listed(order, m) && id in m
    ensures Listed(order, m[id := s])
  {
  }

  lemma ListedRemove(order: seq<string>, m: map<string, Strategy>, id: string)
    requires Listed(order, m) && id in m
    ensures Listed(Without(order, id), m - {id})
  {
    RemoveListed(order, id);
    var o := Without(order, id);
    forall i | 0 <= i < |o| ensures o[i] in m - {id} {
      assert o[i] in o;
    }
  }

  lemma LifecycleAdd(m: map<string, Strategy>, a: map<string, ActiveState>, iv: map<string, int>,
                     ph: map<string, TokenHistory>, id: string, s: Strategy)
    requires Lifecycle(m, a, iv, ph) && id !in m && !s.isActive
    ensures Lifecycle(m[id := s], a, iv, ph)
  {
  }

  lemma LifecycleStart(m: map<string, Strategy>, a: map<string, ActiveState>, iv: map<string, int>,
                       ph: map<string, TokenHistory>, ph': map<string, TokenHistory>,
                       id: string, s: Strategy, st: ActiveState, period: int)
    requires Lifecycle(m, a, iv, ph) && id in m && s.isActive
    requires ph.Keys <= ph'.Keys && s.targetToken in ph'
    ensures Lifecycle(m[id := s], a[id := st], iv[id := period], ph')
  {
  }

  lemma LifecycleStop(m: map<string, Strategy>, a: map<string, ActiveState>, iv: map<string, int>,
                      ph: map<string, TokenHistory>, id: string, s: Strategy)
    requires Lifecycle(m, a, iv, ph) && id in m && !s.isActive
    ensures Lifecycle(m[id := s], a - {id}, iv - {id}, ph)
  {
  }

  lemma LifecycleRemove(m: map<string, Strategy>, a: map<string, ActiveState>, iv: map<string, int>,
                        ph: map<string, TokenHistory>, id: string)
    requires Lifecycle(m, a, iv, ph) && id in m && id !in a
    ensures Lifecycle(m - {id}, a, iv, ph)
  {
  }

  lemma LifecycleTick(m: map<string, Strategy>, a: map<string, ActiveState>, iv: map<string, int>,
                      ph: map<string, TokenHistory>, id: string, s: Strategy, token: string, h: TokenHistory)
    requires Lifecycle(m, a, iv, ph) && id in m
    requires s.isActive == m[id].isActive && s.targetToken == m[id].targetToken
    ensures Lifecycle(m[id := s], a, iv, ph[token := h])
  {
  }

  lemma AllBookkeptUpdate(m: map<string, Strategy>, id: string, s: Strategy)
    requires AllBookkept(m) && Bookkept(s)
    ensures AllBookkept(m[id := s])
  {
  }

  /** `order` without `id`. */
  function Without(ids: seq<string>, id: string): (r: seq<string>)
    ensures forall x :: x in r <==> x in ids && x != id
  {
    if ids == [] then []
    else if ids[0] == id then Without(ids[1..], id)
    else [ids[0]] + Without(ids[1..], id)
  }

  /** Removing a listed id from a list without repetitions shortens it by
      one and keeps it without repetitions. */
  lemma {:induction false} RemoveListed(ids: seq<string>, id: string)
    requires id in ids
    requires forall i, j :: 0 <= i < j < |ids| ==> ids[i] != ids[j]
    ensures |Without(ids, id)| == |ids| - 1
    ensures var r := Without(ids, id); forall i, j :: 0 <= i < j < |r| ==> r[i] != r[j]
  {
    if ids[0] == id {
      NotListedUnchanged(ids[1..], id);
    } else {
      RemoveListed(ids[1..], id);
      var r := Without(ids, id);
      var t := Without(ids[1..], id);
      assert r == [ids[0]] + t;
      assert ids[0] !in t by { assert ids[0] !in ids[1..]; }
    }
  }

  lemma {:induction false} NotListedUnchanged(ids: seq<string>, id: string)
    requires id !in ids
    ensures Without(ids, id) == ids
  {
    if ids != [] {
      NotListedUnchanged(ids[1..], id);
    }
  }
}
