/** The profit-range scheduler of the strategy builder: a ladder of partial
    sells spread over a band of profit percentages above the average entry
    price. Each rung ("step") fires at most once; its trigger price follows
    the live average entry price until it has fired. */
module ProfitRange {
  import opened Common

  datatype RangeMode = Linear | Aggressive | Conservative

  /** One rung of the ladder. `triggerPrice` is None while the average entry
      price it was computed from was not a finite number. */
  datatype SellStep = SellStep(
    stepNumber: int,
    profitPercent: real,
    triggerPrice: Option<real>,
    sellPercentage: real,
    expectedTokens: real,
    executed: bool,
    executedAt: Option<int>,
    actualTokensSold: real,
    actualWLDReceived: real)

  // ----- Generating the ladder -----

  /** The profit percentage of rung `i` (0-based) of `n`. The aggressive mode
      bends the band with a square root, supplied as `sqrt` (the source calls
      `Math.pow(x, 0.5)`); the conservative mode squares. */
  function StepProfitPercent(mode: RangeMode, i: int, n: int, min: real, max: real, sqrt: real -> real): real
    requires 0 <= i < n
  {
    min + (max - min) * Bend(mode, (i + 1) as real / n as real, sqrt)
  }

  /** How far into the band a rung at fraction `x` of the ladder sits:
      `x` itself (linear), `x ^ 0.5` (aggressive) or `x ^ 2` (conservative). */
  function Bend(mode: RangeMode, x: real, sqrt: real -> real): real {
    match mode
    case Linear => x
    case Aggressive => sqrt(x)
    case Conservative => x * x
  }

  /** The share (in percent of the tokens then held) that rung `i` of `n` sells. */
  function StepSellPercentage(mode: RangeMode, i: int, n: int): real
    requires 0 <= i < n
  {
    match mode
    case Linear => 100.0 / n as real
    case Aggressive => if i == 0 then 50.0 else (100.0 - 50.0) / (n - 1) as real
    case Conservative => if i == n - 1 then 50.0 else (100.0 - 50.0) / (n - 1) as real
  }

  /** A rung as first created: not executed, no trigger price yet (0). */
  function NewStep(mode: RangeMode, i: int, n: int, min: real, max: real, sqrt: real -> real): SellStep
    requires 0 <= i < n
  {
    SellStep(i + 1, StepProfitPercent(mode, i, n, min, max, sqrt), Some(0.0),
             StepSellPercentage(mode, i, n), 0.0, false, None, 0.0, 0.0)
  }

  /** The whole ladder for `n` rungs (none when `n` is not positive). */
  function Ladder(mode: RangeMode, n: int, min: real, max: real, sqrt: real -> real): seq<SellStep> {
    if n <= 0 then [] else seq(n, i requires 0 <= i < n => NewStep(mode, i, n, min, max, sqrt))
  }

  /** `calculateProfitRangeSteps`: the `for` loop that pushes one rung per step. */
  method CalculateSteps(mode: RangeMode, n: int, min: real, max: real, sqrt: real -> real)
    returns (steps: seq<SellStep>)
    ensures steps == Ladder(mode, n, min, max, sqrt)
  {
    steps := [];
    var i := 0;
    while i < n
      invariant 0 <= i && (i <= n || i == 0)
      invariant |steps| == i
      invariant forall k :: 0 <= k < i ==> steps[k] == NewStep(mode, k, n, min, max, sqrt)
    {
      steps := steps + [NewStep(mode, i, n, min, max, sqrt)];
      i := i + 1;
    }
    if n > 0 {
      assert |steps| == |Ladder(mode, n, min, max, sqrt)|;
    }
  }

  /** The ladder has exactly `n` rungs, numbered 1..n in order, none executed,
      none with a trigger price or expected amount yet. */
  lemma LadderShape(mode: RangeMode, n: int, min: real, max: real, sqrt: real -> real)
    ensures var s := Ladder(mode, n, min, max, sqrt);
      && |s| == (if n > 0 then n else 0)
      && forall i :: 0 <= i < |s| ==>
           && s[i].stepNumber == i + 1
           && !s[i].executed && s[i].executedAt == None
           && s[i].triggerPrice == Some(0.0) && s[i].expectedTokens == 0.0
           && s[i].actualTokensSold == 0.0 && s[i].actualWLDReceived == 0.0
  {
  }

  /** The sum of the sell percentages of a list of rungs. */
  function TotalSellPercentage(s: seq<SellStep>): real {
    if s == [] then 0.0 else s[0].sellPercentage + TotalSellPercentage(s[1..])
  }

  lemma {:induction false} TotalSellAppend(a: seq<SellStep>, b: seq<SellStep>)
    ensures TotalSellPercentage(a + b) == TotalSellPercentage(a) + TotalSellPercentage(b)
  {
    if a == [] {
      assert a + b == b;
    } else {
      assert (a + b)[1..] == a[1..] + b;
      TotalSellAppend(a[1..], b);
    }
  }

  /** `k` rungs that each sell `c` percent sell `k * c` in all. */
  lemma {:induction false} TotalSellUniform(s: seq<SellStep>, c: real)
    requires forall i :: 0 <= i < |s| ==> s[i].sellPercentage == c
    ensures TotalSellPercentage(s) == |s| as real * c
  {
    if s != [] {
      assert forall i :: 0 <= i < |s| - 1 ==> s[1..][i] == s[i + 1];
      TotalSellUniform(s[1..], c);
      assert |s| as real * c == c + (|s| - 1) as real * c;
    }
  }

  lemma PortionsFill(k: nat, whole: real)
    requires k > 0
    ensures k as real * (whole / k as real) == whole
  {
  }

  /** The sell percentages of a linear ladder of `n` rungs are `n` equal
      portions that add up to 100. Each is a percentage of the tokens open
      when its rung fires, so the ladder does not sell 100% of a position
      (see `Remainder`). */
  lemma LinearPercentagesSumTo100(n: int, min: real, max: real, sqrt: real -> real)
    requires n >= 1
    ensures TotalSellPercentage(Ladder(Linear, n, min, max, sqrt)) == 100.0
  {
    TotalSellUniform(Ladder(Linear, n, min, max, sqrt), 100.0 / n as real);
    PortionsFill(n, 100.0);
  }

  /** The sell percentages of an aggressive ladder are 50 on its first rung
      and the other 50 split evenly over the rest: they add up to 100 (50 for
      a single rung). */
  lemma AggressivePercentagesSum(n: int, min: real, max: real, sqrt: real -> real)
    requires n >= 1
    ensures TotalSellPercentage(Ladder(Aggressive, n, min, max, sqrt)) == if n == 1 then 50.0 else 100.0
  {
    var s := Ladder(Aggressive, n, min, max, sqrt);
    assert s == [s[0]] + s[1..];
    TotalSellAppend([s[0]], s[1..]);
    if n >= 2 {
      var t := s[1..];
      forall i | 0 <= i < |t| ensures t[i].sellPercentage == 50.0 / (n - 1) as real {
        assert t[i] == s[i + 1];
      }
      TotalSellUniform(t, 50.0 / (n - 1) as real);
      PortionsFill(n - 1, 50.0);
    }
  }

  /** The sell percentages of a conservative ladder split 50 evenly over all
      rungs but the last, which takes the other 50: they add up to 100 (50
      for a single rung). */
  lemma ConservativePercentagesSum(n: int, min: real, max: real, sqrt: real -> real)
    requires n >= 1
    ensures TotalSellPercentage(Ladder(Conservative, n, min, max, sqrt)) == if n == 1 then 50.0 else 100.0
  {
    var s := Ladder(Conservative, n, min, max, sqrt);
    assert s == s[..n - 1] + [s[n - 1]];
    TotalSellAppend(s[..n - 1], [s[n - 1]]);
    if n >= 2 {
      TotalSellUniform(s[..n - 1], 50.0 / (n - 1) as real);
      PortionsFill(n - 1, 50.0);
    }
  }

  /** What `t` open tokens come down to when the rungs `s` fire one after
      another, each selling its percentage of the tokens open at that moment. */
  function Remainder(t: real, s: seq<SellStep>): real
    decreases |s|
  {
    if s == [] then t else Remainder(t * (1.0 - s[0].sellPercentage / 100.0), s[1..])
  }

  lemma PositiveProduct(x: real, y: real)
    requires x > 0.0 && y > 0.0
    ensures x * y > 0.0
  {
  }

  /** Unless some rung sells 100%, firing the rungs leaves tokens open. */
  lemma {:induction false} RemainderPositive(t: real, s: seq<SellStep>)
    requires t > 0.0
    requires forall i :: 0 <= i < |s| ==> s[i].sellPercentage < 100.0
    ensures Remainder(t, s) > 0.0
    decreases |s|
  {
    if s != [] {
      var t' := t * (1.0 - s[0].sellPercentage / 100.0);
      PositiveProduct(t, 1.0 - s[0].sellPercentage / 100.0);
      assert forall i :: 0 <= i < |s| - 1 ==> s[1..][i] == s[i + 1];
      RemainderPositive(t', s[1..]);
    }
  }

  /** Every ladder but a single linear rung leaves tokens open after all its
      rungs have fired: each rung sells less than 100% of what is open. */
  lemma LadderLeavesTokens(mode: RangeMode, n: int, min: real, max: real, sqrt: real -> real, t: real)
    requires n >= 2 || (n == 1 && mode != Linear)
    requires t > 0.0
    ensures Remainder(t, Ladder(mode, n, min, max, sqrt)) > 0.0
  {
    var s := Ladder(mode, n, min, max, sqrt);
    forall i | 0 <= i < |s| ensures s[i].sellPercentage < 100.0 {
      if n >= 2 {
        var k := (n - 1) as real;
        assert k >= 1.0;
        assert 50.0 / k <= 50.0;
        assert 100.0 / n as real <= 50.0;
      }
    }
    RemainderPositive(t, s);
  }

  /** Two linear rungs of 50% leave a quarter of the tokens open. */
  lemma TwoLinearRungsLeaveAQuarter(t: real, min: real, max: real, sqrt: real -> real)
    ensures Remainder(t, Ladder(Linear, 2, min, max, sqrt)) == t / 4.0
  {
    var s := Ladder(Linear, 2, min, max, sqrt);
    assert s[0].sellPercentage == 50.0 && s[1].sellPercentage == 50.0;
    var half := t * (1.0 - 50.0 / 100.0);
    assert Remainder(t, s) == Remainder(half, s[1..]);
    assert s[1..][1..] == [];
    assert Remainder(half, s[1..]) == Remainder(half * (1.0 - 50.0 / 100.0), []);
  }

  ghost predicate Monotone(f: real -> real) {
    forall x, y :: x <= y ==> f(x) <= f(y)
  }

  lemma FractionsIncrease(i: int, j: int, n: int)
    requires 0 <= i <= j < n
    ensures 0.0 < (i + 1) as real / n as real <= (j + 1) as real / n as real <= 1.0
  {
  }

  lemma ScaleMonotone(a: real, x: real, y: real)
    requires a >= 0.0 && x <= y
    ensures a * x <= a * y
  {
  }

  /** With `min <= max`, later rungs never ask for less profit than earlier
      ones (the aggressive mode needs its square root to be monotone). */
  lemma LadderProfitsIncrease(mode: RangeMode, n: int, min: real, max: real, sqrt: real -> real, i: int, j: int)
    requires min <= max && 0 <= i <= j < n
    requires mode == Aggressive ==> Monotone(sqrt)
    ensures StepProfitPercent(mode, i, n, min, max, sqrt) <= StepProfitPercent(mode, j, n, min, max, sqrt)
  {
    var x, y := (i + 1) as real / n as real, (j + 1) as real / n as real;
    FractionsIncrease(i, j, n);
    BendMonotone(mode, x, y, sqrt);
    BandMonotone(min, max, Bend(mode, x, sqrt), Bend(mode, y, sqrt));
  }

  lemma BandMonotone(min: real, max: real, u: real, w: real)
    requires min <= max && u <= w
    ensures min + (max - min) * u <= min + (max - min) * w
  {
    ScaleMonotone(max - min, u, w);
  }

  lemma BendMonotone(mode: RangeMode, x: real, y: real, sqrt: real -> real)
    requires 0.0 <= x <= y
    requires mode == Aggressive ==> Monotone(sqrt)
    ensures Bend(mode, x, sqrt) <= Bend(mode, y, sqrt)
  {
    if mode == Conservative {
      SquareMonotone(x, y);
    }
  }

  lemma SquareMonotone(x: real, y: real)
    requires 0.0 <= x <= y
    ensures x * x <= y * y
  {
    ScaleMonotone(x, x, y);
    ScaleMonotone(y, x, y);
  }

  /** In linear mode rung `i` asks for `min + (max - min) * (i + 1) / n`
      percent, the expression the source evaluates. */
  lemma LinearProfit(i: int, n: int, min: real, max: real, sqrt: real -> real)
    requires 0 <= i < n
    ensures StepProfitPercent(Linear, i, n, min, max, sqrt) == min + (max - min) * (i + 1) as real / n as real
  {
    var x := (i + 1) as real / n as real;
    assert x * n as real == (i + 1) as real;
    assert (max - min) * x * n as real == (max - min) * (i + 1) as real;
  }

  /** The linear and conservative ladders end exactly at the top of the band. */
  lemma LadderEndsAtMax(mode: RangeMode, n: int, min: real, max: real, sqrt: real -> real)
    requires n > 0 && mode != Aggressive
    ensures StepProfitPercent(mode, n - 1, n, min, max, sqrt) == max
  {
    assert n as real / n as real == 1.0;
  }

  // ----- Following the average entry price -----

  /** An unexecuted rung re-aimed at the current average entry price `avg`
      and the tokens currently held; an executed rung keeps its fields. */
  function Retarget(st: SellStep, avg: Option<real>, totalTokens: real): SellStep {
    if st.executed then st
    else st.(triggerPrice := TriggerFor(avg, st.profitPercent),
             expectedTokens := totalTokens * (st.sellPercentage / 100.0))
  }

  /** `avg * (1 + percent / 100)`, not a finite number when `avg` is not. */
  function TriggerFor(avg: Option<real>, percent: real): Option<real> {
    if avg.Some? then Some(avg.value * (1.0 + percent / 100.0)) else None
  }

  /** Every rung of `steps` re-aimed. */
  function Retargeted(steps: seq<SellStep>, avg: Option<real>, totalTokens: real): seq<SellStep> {
    seq(|steps|, i requires 0 <= i < |steps| => Retarget(steps[i], avg, totalTokens))
  }

  /** The `forEach` in `handleProfitRange` that re-aims every unexecuted rung. */
  method RetargetSteps(steps: seq<SellStep>, avg: Option<real>, totalTokens: real) returns (r: seq<SellStep>)
    ensures r == Retargeted(steps, avg, totalTokens)
  {
    r := steps;
    var i := 0;
    while i < |r|
      invariant 0 <= i <= |r| == |steps|
      invariant forall k :: 0 <= k < i ==> r[k] == Retarget(steps[k], avg, totalTokens)
      invariant forall k :: i <= k < |r| ==> r[k] == steps[k]
    {
      if !r[i].executed {
        r := r[i := Retarget(r[i], avg, totalTokens)];
      }
      i := i + 1;
    }
  }

  /** Re-aiming never touches an executed rung, never changes which rungs are
      executed, and leaves numbering and percentages alone; re-aiming twice at
      the same average is the same as once. */
  lemma RetargetProperties(st: SellStep, avg: Option<real>, totalTokens: real, avg': Option<real>, totalTokens': real)
    ensures var r := Retarget(st, avg, totalTokens);
      && r.executed == st.executed
      && (st.executed ==> r == st)
      && r.stepNumber == st.stepNumber && r.profitPercent == st.profitPercent
      && r.sellPercentage == st.sellPercentage && r.executedAt == st.executedAt
      && Retarget(r, avg, totalTokens) == r
      && Retarget(r, avg', totalTokens') == Retarget(st, avg', totalTokens')
  {
    if !st.executed {
      var r := Retarget(st, avg, totalTokens);
      assert r == st.(triggerPrice := TriggerFor(avg, st.profitPercent),
                      expectedTokens := totalTokens * (st.sellPercentage / 100.0));
      assert Retarget(r, avg, totalTokens) == r;
    }
  }

  // ----- Choosing the rung to execute -----

  /** A rung can fire at `price` when it has not fired yet and the price has
      reached its (finite) trigger price. */
  predicate Eligible(st: SellStep, price: real) {
    !st.executed && st.triggerPrice.Some? && price >= st.triggerPrice.value
  }

  function Trigger(st: SellStep): real
    requires st.triggerPrice.Some?
  {
    st.triggerPrice.value
  }

  /** The rung `handleProfitRange` executes: among the eligible rungs, the one
      with the highest trigger price, the earliest of several such (the
      source sorts the eligible rungs with a stable sort, highest first, and
      takes the head). None when no rung is eligible. */
  function SelectStep(steps: seq<SellStep>, price: real): (k: Option<nat>)
    ensures k.None? <==> forall j :: 0 <= j < |steps| ==> !Eligible(steps[j], price)
    ensures k.Some? ==> k.value < |steps| && Eligible(steps[k.value], price)
    ensures k.Some? ==> forall j :: 0 <= j < |steps| && Eligible(steps[j], price) ==>
      Trigger(steps[j]) <= Trigger(steps[k.value])
    ensures k.Some? ==> forall j :: 0 <= j < k.value && Eligible(steps[j], price) ==>
      Trigger(steps[j]) < Trigger(steps[k.value])
    decreases |steps|
  {
    if steps == [] then None
    else
      var last := |steps| - 1;
      var best := SelectStep(steps[..last], price);
      assert forall j :: 0 <= j < last ==> steps[..last][j] == steps[j];
      if Eligible(steps[last], price) && (best.None? || Trigger(steps[last]) > Trigger(steps[best.value]))
      then Some(last)
      else best
  }
}
