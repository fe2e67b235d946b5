/** Shared vocabulary: an optional value, and the guarded division and
    percentage that replace a JavaScript division which could yield NaN or
    Infinity. */
module Common {

  datatype Option<+T> = None | Some(value: T)

  /** `a / b` when it is a finite number; None stands for the NaN or Infinity
      that JavaScript produces when `b` is zero. */
  function Div(a: real, b: real): Option<real> {
    if b == 0.0 then None else Some(a / b)
  }

  /** `part / whole * 100`, guarded as Div is. */
  function Percent(part: real, whole: real): Option<real> {
    if whole == 0.0 then None else Some(part / whole * 100.0)
  }

  /** `x >= t` where x may be non-finite: a comparison with NaN is false. */
  predicate AtLeast(x: Option<real>, t: real) {
    x.Some? && x.value >= t
  }

  /** `x <= t` under the same convention. */
  predicate AtMost(x: Option<real>, t: real) {
    x.Some? && x.value <= t
  }

  function Max(a: int, b: int): (r: int)
    ensures r >= a && r >= b && (r == a || r == b)
  {
    if a >= b then a else b
  }
}

/** What the external swap engine reports back (the engines themselves are not
    part of this model). A field that the engine left out, and that JavaScript
    therefore reads as falsy, is 0 here. */
module Engine {

  datatype SwapResult = SwapResult(
    success: bool,
    amountOut: real,
    tokensReceived: real,
    tokensSpent: real,
    txHash: string)

  /** `result.tokensReceived || result.amountOut || 0`. */
  function ReceivedFirst(r: SwapResult): real {
    if r.tokensReceived != 0.0 then r.tokensReceived else r.amountOut
  }

  /** `result.amountOut || result.tokensReceived || 0`. */
  function AmountOutFirst(r: SwapResult): real {
    if r.amountOut != 0.0 then r.amountOut else r.tokensReceived
  }
}
