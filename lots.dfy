/** The lots ("positions") a strategy holds: one record per entry fill, its
    open/closed status, the derived average entry price, and the two ways a
    lot is exited (proportional partial reduction in profit-range mode and the
    whole-portfolio sell in simple mode). Amounts are in WLD (the base asset)
    and in target tokens. */
module Lots {
  import opened Common

  datatype LotStatus = Open | Closed

  datatype Lot = Lot(
    id: string,
    strategyId: string,
    tokenAddress: string,
    status: LotStatus,
    entryPrice: Option<real>,      // WLD spent / tokens received; None when no tokens were received
    entryAmountWLD: real,
    entryAmountToken: real,
    entryTimestamp: int,
    entryTxHash: string,
    profitTarget: real,
    targetPrice: real,
    unrealizedPnL: real,
    unrealizedPnLPercent: Option<real>,
    exitPrice: Option<real>,
    exitAmountWLD: Option<real>,
    exitTimestamp: Option<int>,
    exitTxHash: Option<string>,
    realizedPnL: Option<real>,
    realizedPnLPercent: Option<real>)

  /** Below this many tokens a partially reduced lot counts as fully sold. */
  const DUST: real := 0.000001

  /** `positions.filter(p => p.status === 'open')`. */
  function OpenLots(lots: seq<Lot>): (r: seq<Lot>)
    ensures |r| <= |lots|
  {
    if lots == [] then []
    else
      var rest := OpenLots(lots[1..]);
      if lots[0].status == Open then [lots[0]] + rest else rest
  }

  /** The filter keeps exactly the lots that are open. */
  lemma {:induction false} OpenLotsMembers(lots: seq<Lot>)
    ensures forall x :: x in OpenLots(lots) <==> x in lots && x.status == Open
  {
    if lots != [] {
      OpenLotsMembers(lots[1..]);
      assert forall x :: x in lots <==> x == lots[0] || x in lots[1..];
    }
  }

  /** The indices of the open lots, in increasing order: the lots a
      monitoring tick checks, captured before the first check. */
  function OpenIndices(lots: seq<Lot>): (r: seq<nat>)
    ensures forall j :: 0 <= j < |r| ==> r[j] < |lots| && lots[r[j]].status == Open
    ensures forall i :: 0 <= i < |lots| && lots[i].status == Open ==> i in r
    ensures forall j, k :: 0 <= j < k < |r| ==> r[j] < r[k]
  {
    if lots == [] then []
    else
      var n := |lots| - 1;
      var r := OpenIndices(lots[..n]);
      if lots[n].status == Open then r + [n] else r
  }

  /** There are as many of them as there are open lots. */
  lemma {:induction false} OpenIndicesCount(lots: seq<Lot>)
    ensures |OpenIndices(lots)| == |OpenLots(lots)|
  {
    if lots != [] {
      var n := |lots| - 1;
      assert lots == lots[..n] + [lots[n]];
      TotalsAppend(lots[..n], [lots[n]]);
      OpenIndicesCount(lots[..n]);
    }
  }

  function TotalWLD(lots: seq<Lot>): real {
    if lots == [] then 0.0 else lots[0].entryAmountWLD + TotalWLD(lots[1..])
  }

  function TotalTokens(lots: seq<Lot>): real {
    if lots == [] then 0.0 else lots[0].entryAmountToken + TotalTokens(lots[1..])
  }

  function OpenWLD(lots: seq<Lot>): real { TotalWLD(OpenLots(lots)) }

  function OpenTokens(lots: seq<Lot>): real { TotalTokens(OpenLots(lots)) }

  /** The volume-weighted average entry price of the open lots: Σ WLD / Σ tokens.
      None means "no position": no open lot, or open lots holding no tokens
      (where JavaScript would divide by zero). */
  function AveragePrice(lots: seq<Lot>): (r: Option<real>)
    ensures r.None? <==> OpenLots(lots) == [] || OpenTokens(lots) == 0.0
    ensures r.Some? ==> r.value * OpenTokens(lots) == OpenWLD(lots)
  {
    if OpenLots(lots) == [] then None else Div(OpenWLD(lots), OpenTokens(lots))
  }

  lemma {:induction false} TotalsAppend(a: seq<Lot>, b: seq<Lot>)
    ensures TotalWLD(a + b) == TotalWLD(a) + TotalWLD(b)
    ensures TotalTokens(a + b) == TotalTokens(a) + TotalTokens(b)
    ensures OpenLots(a + b) == OpenLots(a) + OpenLots(b)
  {
    if a == [] {
      assert a + b == b;
    } else {
      assert (a + b)[0] == a[0];
      assert (a + b)[1..] == a[1..] + b;
      TotalsAppend(a[1..], b);
    }
  }

  lemma OpenLotsCons(lots: seq<Lot>)
    requires lots != []
    ensures lots[0].status == Open ==> OpenLots(lots) == [lots[0]] + OpenLots(lots[1..])
    ensures lots[0].status == Closed ==> OpenLots(lots) == OpenLots(lots[1..])
    ensures lots[0].status == Open ==> OpenTokens(lots) == lots[0].entryAmountToken + OpenTokens(lots[1..])
    ensures lots[0].status == Open ==> OpenWLD(lots) == lots[0].entryAmountWLD + OpenWLD(lots[1..])
    ensures lots[0].status == Closed ==> OpenTokens(lots) == OpenTokens(lots[1..]) && OpenWLD(lots) == OpenWLD(lots[1..])
  {
    if lots[0].status == Open {
      var s := [lots[0]] + OpenLots(lots[1..]);
      assert s[0] == lots[0] && s[1..] == OpenLots(lots[1..]);
    }
  }

  /** Appending an open lot adds exactly its amounts to the open totals. */
  lemma AppendOpenLot(lots: seq<Lot>, l: Lot)
    requires l.status == Open
    ensures OpenLots(lots + [l]) == OpenLots(lots) + [l]
    ensures OpenWLD(lots + [l]) == OpenWLD(lots) + l.entryAmountWLD
    ensures OpenTokens(lots + [l]) == OpenTokens(lots) + l.entryAmountToken
  {
    TotalsAppend(lots, [l]);
    TotalsAppend(OpenLots(lots), [l]);
  }

  /** The mediant of two ratios with positive denominators lies between them. */
  lemma MediantBetween(W: real, T: real, w: real, t: real)
    requires T > 0.0 && t > 0.0
    ensures var a, f, n := W / T, w / t, (W + w) / (T + t);
      && (f <= a ==> f <= n <= a)
      && (a <= f ==> a <= n <= f)
  {
    var a, f, n := W / T, w / t, (W + w) / (T + t);
    assert W == a * T;
    assert w == f * t;
    assert n * (T + t) == W + w;
    if f <= a {
      assert f * t <= a * t;
      assert f * T <= a * T;
      assert f * (T + t) <= W + w <= a * (T + t);
    }
    if a <= f {
      assert a * t <= f * t;
      assert a * T <= f * T;
      assert a * (T + t) <= W + w <= f * (T + t);
    }
  }

  /** Buying at or below the current average never raises it, and the new
      average lies between the fill price and the old average. */
  lemma AverageNotWorsened(lots: seq<Lot>, l: Lot)
    requires l.status == Open && l.entryAmountToken > 0.0
    requires OpenTokens(lots) > 0.0
    ensures var before := AveragePrice(lots).value;
      var after := AveragePrice(lots + [l]);
      var fill := l.entryAmountWLD / l.entryAmountToken;
      && after.Some?
      && (fill <= before ==> fill <= after.value <= before)
      && (fill >= before ==> before <= after.value <= fill)
  {
    AppendOpenLot(lots, l);
    MediantBetween(OpenWLD(lots), OpenTokens(lots), l.entryAmountWLD, l.entryAmountToken);
  }

  // ----- Partial reduction (one profit-range step) -----

  /** `x -= x * ratio`. */
  function Scale(x: real, ratio: real): real { x - x * ratio }

  /** One open lot after a sale of the fraction `ratio` of every open lot:
      both amounts shrink by that fraction, and a lot left with dust is
      closed at `price`. Closed lots are untouched. */
  function ReduceLot(l: Lot, ratio: real, price: real, now: int): Lot {
    if l.status == Closed then l
    else
      var tokens := Scale(l.entryAmountToken, ratio);
      var wld := Scale(l.entryAmountWLD, ratio);
      var reduced := l.(entryAmountToken := tokens, entryAmountWLD := wld);
      if tokens < DUST then reduced.(status := Closed, exitPrice := Some(price), exitTimestamp := Some(now))
      else reduced
  }

  /** The `forEach` over the open lots in a profit-range step. */
  method ReduceOpenLots(lots: seq<Lot>, ratio: real, price: real, now: int) returns (r: seq<Lot>)
    ensures |r| == |lots|
    ensures forall i :: 0 <= i < |lots| ==> r[i] == ReduceLot(lots[i], ratio, price, now)
  {
    r := lots;
    var i := 0;
    while i < |r|
      invariant 0 <= i <= |r| == |lots|
      invariant forall k :: 0 <= k < i ==> r[k] == ReduceLot(lots[k], ratio, price, now)
      invariant forall k :: i <= k < |r| ==> r[k] == lots[k]
    {
      if r[i].status == Open {
        r := r[i := ReduceLot(r[i], ratio, price, now)];
      }
      i := i + 1;
    }
  }

  /** Σ `after[i]` tokens over the indices where `before[i]` was open. */
  function TokensWhereOpen(before: seq<Lot>, after: seq<Lot>): real
    requires |before| == |after|
  {
    if before == [] then 0.0
    else (if before[0].status == Open then after[0].entryAmountToken else 0.0)
         + TokensWhereOpen(before[1..], after[1..])
  }

  /** Σ `after[i]` WLD over the indices where `before[i]` was open. */
  function WLDWhereOpen(before: seq<Lot>, after: seq<Lot>): real
    requires |before| == |after|
  {
    if before == [] then 0.0
    else (if before[0].status == Open then after[0].entryAmountWLD else 0.0)
         + WLDWhereOpen(before[1..], after[1..])
  }

  /** Conservation on a partial sale: over the lots that were open, whether or
      not the sale closed them, the remaining tokens and WLD are the old
      totals scaled by `1 - ratio`. */
  lemma ReduceLotAmounts(l: Lot, ratio: real, price: real, now: int)
    requires l.status == Open
    ensures ReduceLot(l, ratio, price, now).entryAmountToken == Scale(l.entryAmountToken, ratio)
    ensures ReduceLot(l, ratio, price, now).entryAmountWLD == Scale(l.entryAmountWLD, ratio)
  {
  }

  lemma ScaledSum(a: real, b: real, q: real)
    ensures Scale(a + b, q) == Scale(a, q) + Scale(b, q)
  {
  }

  lemma {:induction false} ReductionConserves(lots: seq<Lot>, r: seq<Lot>, ratio: real, price: real, now: int)
    requires |r| == |lots|
    requires forall i :: 0 <= i < |lots| ==> r[i] == ReduceLot(lots[i], ratio, price, now)
    ensures TokensWhereOpen(lots, r) == Scale(OpenTokens(lots), ratio)
    ensures WLDWhereOpen(lots, r) == Scale(OpenWLD(lots), ratio)
  {
    if lots != [] {
      var lots', r' := lots[1..], r[1..];
      forall i | 0 <= i < |lots'| ensures r'[i] == ReduceLot(lots'[i], ratio, price, now) {
        assert r'[i] == r[i + 1] && lots'[i] == lots[i + 1];
      }
      ReductionConserves(lots', r', ratio, price, now);
      OpenLotsCons(lots);
      var l := lots[0];
      assert r[0] == ReduceLot(l, ratio, price, now);
      if l.status == Open {
        ReduceLotAmounts(l, ratio, price, now);
        ScaledSum(l.entryAmountToken, OpenTokens(lots'), ratio);
        ScaledSum(l.entryAmountWLD, OpenWLD(lots'), ratio);
      }
    }
  }

  lemma DivCancel(w: real, t: real, q: real)
    requires t != 0.0 && q != 0.0
    ensures t * q != 0.0 && (w * q) / (t * q) == w / t
  {
    var x := w / t;
    assert x * t == w;
    assert x * (t * q) == w * q;
  }

  /** A reduced lot keeps its entry price (WLD per token) unless it was sold
      out completely. */
  lemma ReductionKeepsEntryPrice(l: Lot, ratio: real, price: real, now: int)
    requires l.status == Open && l.entryAmountToken != 0.0 && ratio != 1.0
    ensures var r := ReduceLot(l, ratio, price, now);
      r.entryAmountToken != 0.0 && r.entryAmountWLD / r.entryAmountToken == l.entryAmountWLD / l.entryAmountToken
  {
    var w, t, q := l.entryAmountWLD, l.entryAmountToken, 1.0 - ratio;
    ReduceLotAmounts(l, ratio, price, now);
    assert Scale(t, ratio) == t * q;
    assert Scale(w, ratio) == w * q;
    DivCancel(w, t, q);
  }

  /** Which lots a reduction closes: exactly the open ones left with dust. */
  lemma ReductionClosesDust(l: Lot, ratio: real, price: real, now: int)
    requires l.status == Open
    ensures var r := ReduceLot(l, ratio, price, now);
      && (r.status == Closed <==> r.entryAmountToken < DUST)
      && (r.status == Closed ==> r.exitPrice == Some(price) && r.exitTimestamp == Some(now))
  {
  }

  // ----- Whole-portfolio exit (simple mode) -----

  /** `(entryAmountWLD / invested) * received`. */
  function Share(w: real, invested: real, received: real): real
    requires invested != 0.0
  {
    w / invested * received
  }

  /** One lot closed by a whole-portfolio sell that returned `received` WLD
      for lots worth `invested` WLD at entry: it is credited its share
      `entryAmountWLD / invested` of the proceeds. */
  function CloseLot(l: Lot, invested: real, received: real, price: real, now: int, txHash: string): Lot {
    var share := if invested == 0.0 then None else Some(Share(l.entryAmountWLD, invested, received));
    var pnl := if share.Some? then Some(share.value - l.entryAmountWLD) else None;
    l.(status := Closed,
       exitPrice := Some(price),
       exitAmountWLD := share,
       exitTimestamp := Some(now),
       exitTxHash := Some(txHash),
       realizedPnL := pnl,
       realizedPnLPercent := if pnl.Some? then Percent(pnl.value, l.entryAmountWLD) else None)
  }

  /** The `forEach` that closes every open lot in a whole-portfolio sell. */
  method CloseOpenLots(lots: seq<Lot>, invested: real, received: real, price: real, now: int, txHash: string)
    returns (r: seq<Lot>)
    ensures |r| == |lots|
    ensures forall i :: 0 <= i < |lots| ==>
      r[i] == if lots[i].status == Open then CloseLot(lots[i], invested, received, price, now, txHash) else lots[i]
  {
    r := lots;
    var i := 0;
    while i < |r|
      invariant 0 <= i <= |r| == |lots|
      invariant forall k :: 0 <= k < i ==>
        r[k] == if lots[k].status == Open then CloseLot(lots[k], invested, received, price, now, txHash) else lots[k]
      invariant forall k :: i <= k < |r| ==> r[k] == lots[k]
    {
      if r[i].status == Open {
        r := r[i := CloseLot(r[i], invested, received, price, now, txHash)];
      }
      i := i + 1;
    }
  }

  /** Σ of the proceeds credited to `after[i]` where `before[i]` was open. */
  function ExitWhereOpen(before: seq<Lot>, after: seq<Lot>): real
    requires |before| == |after|
  {
    if before == [] then 0.0
    else (if before[0].status == Open && after[0].exitAmountWLD.Some? then after[0].exitAmountWLD.value else 0.0)
         + ExitWhereOpen(before[1..], after[1..])
  }

  /** The proportional attribution credits the open lots with WLD in
      proportion to what they cost; when `invested` is their total cost the
      shares add up to exactly the proceeds. */
  lemma CloseLotShare(l: Lot, invested: real, received: real, price: real, now: int, txHash: string)
    requires invested != 0.0
    ensures CloseLot(l, invested, received, price, now, txHash).exitAmountWLD == Some(Share(l.entryAmountWLD, invested, received))
  {
  }

  /** Shares are additive in the cost they are computed for. */
  lemma ShareAdds(w: real, v: real, invested: real, received: real)
    requires invested != 0.0
    ensures Share(w, invested, received) + Share(v, invested, received) == Share(w + v, invested, received)
  {
    var k := received / invested;
    assert w / invested * received == w * k;
    assert v / invested * received == v * k;
    assert (w + v) / invested * received == (w + v) * k;
  }

  lemma ShareOfNothing(invested: real, received: real)
    requires invested != 0.0
    ensures Share(0.0, invested, received) == 0.0
  {
  }

  /** The share of the whole investment is the whole of the proceeds. */
  lemma ShareOfWhole(invested: real, received: real)
    requires invested != 0.0
    ensures Share(invested, invested, received) == received
  {
  }

  /** The proportional shares credited to the open lots add up to the share
      of their total cost. */
  lemma {:induction false} ExitSharesSum(lots: seq<Lot>, r: seq<Lot>, invested: real, received: real)
    requires invested != 0.0
    requires |r| == |lots|
    requires forall i :: 0 <= i < |lots| && lots[i].status == Open ==>
      r[i].exitAmountWLD == Some(Share(lots[i].entryAmountWLD, invested, received))
    ensures ExitWhereOpen(lots, r) == Share(OpenWLD(lots), invested, received)
  {
    if lots != [] {
      var lots', r' := lots[1..], r[1..];
      forall i | 0 <= i < |lots'| && lots'[i].status == Open ensures
        r'[i].exitAmountWLD == Some(Share(lots'[i].entryAmountWLD, invested, received))
      {
        assert r'[i] == r[i + 1] && lots'[i] == lots[i + 1];
      }
      ExitSharesSum(lots', r', invested, received);
      OpenLotsCons(lots);
      if lots[0].status == Open {
        ShareAdds(lots[0].entryAmountWLD, OpenWLD(lots'), invested, received);
      }
    } else {
      ShareOfNothing(invested, received);
    }
  }

  /** A whole-portfolio close credits each open lot its proportional share. */
  lemma ClosedShares(lots: seq<Lot>, r: seq<Lot>, invested: real, received: real, price: real, now: int, txHash: string)
    requires invested != 0.0
    requires |r| == |lots|
    requires forall i :: 0 <= i < |lots| ==>
      r[i] == if lots[i].status == Open then CloseLot(lots[i], invested, received, price, now, txHash) else lots[i]
    ensures forall i :: 0 <= i < |lots| && lots[i].status == Open ==>
      r[i].exitAmountWLD == Some(Share(lots[i].entryAmountWLD, invested, received))
  {
    forall i | 0 <= i < |lots| && lots[i].status == Open ensures
      r[i].exitAmountWLD == Some(Share(lots[i].entryAmountWLD, invested, received))
    {
      CloseLotShare(lots[i], invested, received, price, now, txHash);
    }
  }

  /** A whole-portfolio sell, where `invested` is the cost of the open lots,
      distributes exactly the proceeds over the lots it closes. */
  lemma ExitSharesAddUp(lots: seq<Lot>, r: seq<Lot>, invested: real, received: real, price: real, now: int, txHash: string)
    requires invested == OpenWLD(lots) && invested != 0.0
    requires |r| == |lots|
    requires forall i :: 0 <= i < |lots| ==>
      r[i] == if lots[i].status == Open then CloseLot(lots[i], invested, received, price, now, txHash) else lots[i]
    ensures ExitWhereOpen(lots, r) == received
  {
    ClosedShares(lots, r, invested, received, price, now, txHash);
    ExitSharesSum(lots, r, invested, received);
    ShareOfWhole(invested, received);
  }
}
