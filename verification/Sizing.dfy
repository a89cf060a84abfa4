/** Risk-based position sizing: the volume is the planned loss budget divided by the
    loss of one lot, rounded down to the broker's volume step. */
module Sizing {
  import opened Types

  const GRID := 100_000_000.0
  const UNIT := 1.0 / GRID

  datatype VolumeResult =
    | Sized(volume: real)
    | BelowMinimum(volume: real)
    | Unusable
    | Raised

  /** The nearest integer, ties to even. */
  function RoundHalfEven(y: real): (r: int)
    ensures r as real - 0.5 <= y <= r as real + 0.5
    ensures y == r as real - 0.5 || y == r as real + 0.5 ==> r % 2 == 0
  {
    var rest := y - y.Floor as real;
    if rest > 0.5 || (rest == 0.5 && y.Floor % 2 != 0) then y.Floor + 1 else y.Floor
  }

  /** Python's `round(x, 8)` over the reals. */
  function Round8(x: real): real {
    RoundHalfEven(x * GRID) as real / GRID
  }

  function Times(n: int, step: real): real {
    n as real * step
  }

  /** How many whole steps of volume the budget pays for. */
  function WholeSteps(budget: real, perLot: real, step: real): int
    requires perLot != 0.0 && step != 0.0
  {
    (budget / perLot / step).Floor
  }

  function Abs(x: real): (r: real)
    ensures r >= 0.0 && (r == x || r == -x)
  {
    if x < 0.0 then -x else x
  }

  function AllowedLoss(equity: real, riskPercent: real): real {
    equity * (riskPercent / 100.0)
  }

  /** `profit` is the broker's answer for one lot closed at the stop.  Comparing a missing
      stop with zero raises, which the entry-price test before it can forestall. */
  function CalculateVolume(
    profit: Option<real>, entryPrice: real, stopLoss: Option<real>, equity: real, riskPercent: real,
    volumeMin: real, volumeMax: real, volumeStep: real): VolumeResult
  {
    if entryPrice <= 0.0 then Unusable
    else if stopLoss.None? then Raised
    else if stopLoss.value <= 0.0 then Unusable
    else if profit.None? then Unusable
    else
      var riskPerLot := Abs(profit.value);
      if riskPerLot <= 0.0 then Unusable
      else
        if volumeStep <= 0.0 then Unusable
        else
          var steps := WholeSteps(AllowedLoss(equity, riskPercent), riskPerLot, volumeStep);
          var volume := Round8(Times(steps, volumeStep));
          if volume < volumeMin then BelowMinimum(volume)
          else Sized(if volume > volumeMax then volumeMax else volume)
  }

  ghost predicate OnGrid(step: real) {
    exists m: int :: Times(m, UNIT) == step
  }

  ghost predicate IsMultiple(v: real, step: real) {
    exists n: int :: Times(n, step) == v
  }

  /** A volume the broker takes whose planned loss is within the budget. */
  ghost predicate Admissible(v: real, step: real, lo: real, hi: real, perLot: real, budget: real) {
    IsMultiple(v, step) && lo <= v <= hi && v * perLot <= budget
  }

  /** Rounding moves a value by at most half a grid unit. */
  lemma Round8Near(x: real)
    ensures x - 0.5 / GRID <= Round8(x) <= x + 0.5 / GRID
  {
  }

  /** Multiples of a grid step are left alone. */
  lemma GridMultiple(k: int, step: real)
    requires OnGrid(step)
    ensures Round8(Times(k, step)) == Times(k, step)
  {
    var m: int :| Times(m, UNIT) == step;
    assert Times(k, step) * GRID == (k * m) as real;
  }

  lemma MulMonotone(a: real, b: real, c: real)
    requires a <= b && 0.0 <= c
    ensures a * c <= b * c
  {
  }

  lemma LossBound(v: real, t: real, slack: real, perLot: real, budget: real)
    requires v <= t + slack && perLot > 0.0 && t * perLot <= budget
    ensures v * perLot <= budget + slack * perLot
  {
    MulMonotone(v, t + slack, perLot);
    assert (t + slack) * perLot == t * perLot + slack * perLot;
  }

  lemma DivMul(a: real, b: real)
    requires b > 0.0
    ensures a / b * b == a
  {
  }

  lemma TimesOrder(k: int, n: int, step: real)
    requires step > 0.0
    ensures k <= n <==> Times(k, step) <= Times(n, step)
  {
    if k <= n {
      MulMonotone(k as real, n as real, step);
    } else {
      assert 0.0 < (k - n) as real * step;
      assert (k - n) as real * step == k as real * step - n as real * step;
    }
  }

  lemma StepBudget(q: real, n: int, step: real, perLot: real)
    requires perLot > 0.0 && step > 0.0
    ensures n <= q.Floor <==> Times(n, step) * perLot <= q * step * perLot
  {
    var u, v := Times(n, step), q * step;
    if n as real <= q {
      MulMonotone(n as real, q, step);
      MulMonotone(u, v, perLot);
    } else {
      assert 0.0 < (n as real - q) * step == u - v;
      assert 0.0 < (u - v) * perLot == u * perLot - v * perLot;
    }
  }

  /** The whole steps are the greatest step count within the budget. */
  lemma WholeStepsGreatest(budget: real, perLot: real, step: real, n: int)
    requires perLot > 0.0 && step > 0.0
    ensures n <= WholeSteps(budget, perLot, step) <==> Times(n, step) * perLot <= budget
  {
    DivMul(budget, perLot);
    DivMul(budget / perLot, step);
    StepBudget(budget / perLot / step, n, step, perLot);
  }

  /** What the pricing branches of `CalculateVolume` return, given the whole steps. */
  lemma PricedResult(
    profit: real, entryPrice: real, stopLoss: real, equity: real, riskPercent: real, lo: real, hi: real, step: real)
    requires profit != 0.0 && entryPrice > 0.0 && stopLoss > 0.0 && step > 0.0
    ensures Abs(profit) > 0.0
    ensures var volume := Round8(Times(WholeSteps(AllowedLoss(equity, riskPercent), Abs(profit), step), step));
      CalculateVolume(Some(profit), entryPrice, Some(stopLoss), equity, riskPercent, lo, hi, step) ==
      if volume < lo then BelowMinimum(volume) else Sized(if volume > hi then hi else volume)
  {
  }

  /** On grid steps the result is the largest admissible volume, and the only rejection is
      the below-minimum one, raised exactly when no volume is admissible. */
  lemma OptimalSizing(
    profit: real, entryPrice: real, stopLoss: real, equity: real, riskPercent: real, lo: real, hi: real, step: real)
    requires profit != 0.0 && entryPrice > 0.0 && stopLoss > 0.0
    requires step > 0.0 && OnGrid(step)
    requires lo <= hi && IsMultiple(hi, step)
    ensures var budget := AllowedLoss(equity, riskPercent);
      match CalculateVolume(Some(profit), entryPrice, Some(stopLoss), equity, riskPercent, lo, hi, step)
      case Sized(v) =>
        Admissible(v, step, lo, hi, Abs(profit), budget)
        && forall u :: Admissible(u, step, lo, hi, Abs(profit), budget) ==> u <= v
      case BelowMinimum(_) => forall u :: !Admissible(u, step, lo, hi, Abs(profit), budget)
      case _ => false
  {
    PricedResult(profit, entryPrice, stopLoss, equity, riskPercent, lo, hi, step);
    BestStep(AllowedLoss(equity, riskPercent), Abs(profit), lo, hi, step);
  }

  lemma BestStep(budget: real, perLot: real, lo: real, hi: real, step: real)
    requires perLot > 0.0 && step > 0.0 && OnGrid(step) && lo <= hi && IsMultiple(hi, step)
    ensures var volume := Round8(Times(WholeSteps(budget, perLot, step), step));
      var v := if volume > hi then hi else volume;
      (volume >= lo ==> Admissible(v, step, lo, hi, perLot, budget))
      && forall u :: Admissible(u, step, lo, hi, perLot, budget) ==> lo <= volume && u <= v
  {
    var k := WholeSteps(budget, perLot, step);
    var volume := Times(k, step);
    var v := if volume > hi then hi else volume;
    GridMultiple(k, step);
    WholeStepsGreatest(budget, perLot, step, k);
    MulMonotone(v, volume, perLot);
    forall u | Admissible(u, step, lo, hi, perLot, budget)
      ensures lo <= volume && u <= v
    {
      var n: int :| Times(n, step) == u;
      WholeStepsGreatest(budget, perLot, step, n);
      TimesOrder(n, k, step);
    }
  }

  /** `c` units of 1e-8 lots are nearest to `x` lots, the even count if two are equally near. */
  predicate NearestUnits(c: int, x: real) {
    var y := x * 100_000_000.0;
    && c as real - 0.5 <= y <= c as real + 0.5
    && (y == c as real - 0.5 || y == c as real + 0.5 ==> c % 2 == 0)
  }

  /** Whatever the step: the most steps whose loss is within the budget, rounded to the nearest
      units and cut at the broker's maximum. */
  ghost predicate MostSteps(k: int, step: real, perLot: real, budget: real) {
    forall n: int :: n <= k <==> Times(n, step) * perLot <= budget
  }

  ghost predicate StepsRounded(volume: real, step: real, perLot: real, budget: real) {
    exists k: int, c: int ::
      MostSteps(k, step, perLot, budget) && NearestUnits(c, Times(k, step)) && volume == c as real / 100_000_000.0
  }

  lemma SizedByWholeSteps(
    profit: real, entryPrice: real, stopLoss: real, equity: real, riskPercent: real, lo: real, hi: real, step: real)
    returns (volume: real)
    requires profit != 0.0 && entryPrice > 0.0 && stopLoss > 0.0 && step > 0.0
    ensures StepsRounded(volume, step, Abs(profit), AllowedLoss(equity, riskPercent))
    ensures CalculateVolume(Some(profit), entryPrice, Some(stopLoss), equity, riskPercent, lo, hi, step) ==
      if volume < lo then BelowMinimum(volume) else if volume > hi then Sized(hi) else Sized(volume)
  {
    hide CalculateVolume, StepsRounded, WholeSteps, Times, Round8, Abs, AllowedLoss;
    var budget, perLot := AllowedLoss(equity, riskPercent), Abs(profit);
    volume := Round8(Times(WholeSteps(budget, perLot, step), step));
    PricedResult(profit, entryPrice, stopLoss, equity, riskPercent, lo, hi, step);
    WholeStepsRounded(step, perLot, budget);
  }

  lemma WholeStepsRounded(step: real, perLot: real, budget: real)
    requires step > 0.0 && perLot > 0.0
    ensures StepsRounded(Round8(Times(WholeSteps(budget, perLot, step), step)), step, perLot, budget)
  {
    hide WholeSteps, Times, RoundHalfEven;
    var k := WholeSteps(budget, perLot, step);
    assert MostSteps(k, step, perLot, budget) by {
      forall n: int
        ensures n <= k <==> Times(n, step) * perLot <= budget
      {
        WholeStepsGreatest(budget, perLot, step, n);
      }
    }
    hide MostSteps;
    Round8Units(Times(k, step));
  }

  lemma Round8Units(x: real)
    ensures NearestUnits(RoundHalfEven(x * GRID), x) && Round8(x) == RoundHalfEven(x * GRID) as real / 100_000_000.0
  {
  }

  /** For any positive step the planned loss exceeds the budget by at most half a grid
      unit's loss, and on grid steps it does not exceed it at all. */
  lemma OvershootBound(
    profit: Option<real>, entryPrice: real, stopLoss: Option<real>, equity: real, riskPercent: real, lo: real, hi: real, step: real)
    requires CalculateVolume(profit, entryPrice, stopLoss, equity, riskPercent, lo, hi, step).Sized?
    ensures step > 0.0 && profit.Some? && stopLoss.Some? && Abs(profit.value) > 0.0
    ensures var loss := CalculateVolume(profit, entryPrice, stopLoss, equity, riskPercent, lo, hi, step).volume * Abs(profit.value);
      && loss <= AllowedLoss(equity, riskPercent) + 0.5 / GRID * Abs(profit.value)
      && (OnGrid(step) ==> loss <= AllowedLoss(equity, riskPercent))
  {
    var budget, perLot := AllowedLoss(equity, riskPercent), Abs(profit.value);
    PricedResult(profit.value, entryPrice, stopLoss.value, equity, riskPercent, lo, hi, step);
    var k := WholeSteps(budget, perLot, step);
    var v := CalculateVolume(profit, entryPrice, stopLoss, equity, riskPercent, lo, hi, step).volume;
    WholeStepsGreatest(budget, perLot, step, k);
    Round8Near(Times(k, step));
    LossBound(v, Times(k, step), 0.5 / GRID, perLot, budget);
    if OnGrid(step) {
      GridMultiple(k, step);
      MulMonotone(v, Times(k, step), perLot);
    }
  }

  /** No input makes this step plan a loss above the budget. */
  ghost predicate NeverOvershoots(step: real) {
    forall profit, entryPrice, stopLoss, equity, riskPercent, lo, hi ::
      var r := CalculateVolume(profit, entryPrice, stopLoss, equity, riskPercent, lo, hi, step);
      r.Sized? ==> profit.Some? && r.volume * Abs(profit.value) <= AllowedLoss(equity, riskPercent)
  }

  lemma StrictMul(a: real, b: real, c: real)
    requires a < b && c > 0.0
    ensures a * c < b * c
  {
    assert (b - a) * c > 0.0;
    assert (b - a) * c == b * c - a * c;
  }

  lemma NextMultiple(r: real, next: real, f: real, p: real)
    requires next == r + 1.0 && p == r * f
    ensures next * f == p + f
  {
  }

  /** A fraction below one half has a multiple in the upper half of the unit interval. */
  lemma ReachHalf(f: real) returns (n: int, part: real)
    requires 0.0 < f < 0.5
    ensures n > 0 && part == n as real * f && 0.5 <= part < 1.0
  {
    var r := 0.5 / f;
    n := if r == r.Floor as real then r.Floor else r.Floor + 1;
    var m := n as real;
    part := m * f;
    var half := r * f;
    assert half == 0.5 && r <= m < r + 1.0;
    Bracket(r, m, f, half, part);
  }

  lemma Bracket(r: real, n: real, f: real, half: real, part: real)
    requires f > 0.0 && r * f == half && part == n * f && r <= n < r + 1.0
    ensures half <= part < half + f
  {
    AtLeast(r, n, f, half, part);
    NextMultiple(r, r + 1.0, f, half);
    BelowNext(n, r + 1.0, f, half, part);
  }

  lemma AtLeast(r: real, n: real, f: real, half: real, part: real)
    requires f > 0.0 && r * f == half && part == n * f && r <= n
    ensures half <= part
  {
    MulMonotone(r, n, f);
  }

  lemma BelowNext(n: real, next: real, f: real, half: real, part: real)
    requires f > 0.0 && next * f == half + f && part == n * f && n < next
    ensures part < half + f
  {
    StrictMul(n, next, f);
  }

  predicate RoundsUp(v: real) {
    RoundHalfEven(v) as real > v
  }

  lemma RoundedUp(whole: int, part: real, v: real)
    requires v == whole as real + part && 0.5 <= part < 1.0 && (part > 0.5 || whole % 2 != 0)
    ensures RoundsUp(v)
  {
    assert v.Floor == whole;
  }

  lemma SplitMultiple(n: int, whole: int, f: real, y: real, part: real)
    requires y == whole as real + f && part == n as real * f
    ensures Times(n, y) == (n * whole) as real + part
  {
    var a, b := n as real, whole as real;
    assert a * (b + f) == a * b + a * f;
    assert a * b == (n * whole) as real;
  }

  lemma TripleMultiple(n: int, y: real, product: int)
    requires Times(n, y) == product as real + 0.5
    ensures Times(3 * n, y) == (3 * product + 1) as real + 0.5
  {
    assert (3 * n) as real == 3.0 * n as real;
    assert Times(3 * n, y) == 3.0 * Times(n, y);
  }

  /** Some multiple of a number that is not an integer rounds up.  A tie goes to even; if
      that is down, three times the multiple is a tie that goes up. */
  lemma RoundsUpSomewhere(whole: int, f: real, y: real) returns (n: int)
    requires 0.0 < f < 1.0 && y == whole as real + f
    ensures n > 0 && RoundsUp(Times(n, y))
  {
    var part;
    if f < 0.5 {
      n, part := ReachHalf(f);
    } else {
      n, part := 1, f;
    }
    SplitMultiple(n, whole, f, y, part);
    n := RoundsUpFrom(n, y, n * whole, part);
  }

  lemma RoundsUpFrom(n: int, y: real, product: int, part: real) returns (m: int)
    requires n > 0 && Times(n, y) == product as real + part && 0.5 <= part < 1.0
    ensures m > 0 && RoundsUp(Times(m, y))
  {
    if part > 0.5 || product % 2 != 0 {
      m := n;
      RoundedUp(product, part, Times(n, y));
    } else {
      m := 3 * n;
      TripleMultiple(n, y, product);
      RoundedUp(3 * product + 1, 0.5, Times(m, y));
    }
  }

  lemma InUnits(n: int, step: real, y: real)
    requires step * GRID == y
    ensures Times(n, step) * GRID == Times(n, y)
  {
    assert n as real * step * GRID == n as real * (step * GRID);
  }

  lemma RoundedUpVolume(t: real, units: real)
    requires t * GRID == units && RoundsUp(units)
    ensures Round8(t) > t
  {
  }

  lemma WholeIsOnGrid(step: real)
    requires step * GRID == (step * GRID).Floor as real
    ensures OnGrid(step)
  {
    assert Times((step * GRID).Floor, UNIT) == step;
  }

  lemma OvershootInput(step: real, n: int)
    requires step > 0.0 && n > 0 && Round8(Times(n, step)) > Times(n, step)
    ensures !NeverOvershoots(step)
  {
    var budget := Times(n, step);
    var v := Round8(budget);
    assert budget / step == n as real;
    assert WholeSteps(budget, 1.0, step) == n;
    assert AllowedLoss(budget, 100.0) == budget;
    PricedResult(1.0, 1.0, 1.0, budget, 100.0, v, v, step);
    assert CalculateVolume(Some(1.0), 1.0, Some(1.0), budget, 100.0, v, v, step) == Sized(v);
  }

  /** The budget is kept for every input exactly when the step is a multiple of 1e-8. */
  lemma GridStepsAreTheSafeOnes(step: real)
    requires step > 0.0
    ensures NeverOvershoots(step) <==> OnGrid(step)
  {
    if OnGrid(step) {
      forall profit, entryPrice, stopLoss, equity, riskPercent, lo, hi |
        CalculateVolume(profit, entryPrice, stopLoss, equity, riskPercent, lo, hi, step).Sized?
      {
        OvershootBound(profit, entryPrice, stopLoss, equity, riskPercent, lo, hi, step);
      }
    } else {
      var whole := (step * GRID).Floor;
      var f := step * GRID - whole as real;
      if f == 0.0 {
        WholeIsOnGrid(step);
      }
      var n := RoundsUpSomewhere(whole, f, step * GRID);
      InUnits(n, step, step * GRID);
      RoundedUpVolume(Times(n, step), Times(n, step * GRID));
      OvershootInput(step, n);
    }
  }

  /** Which inputs give no volume, and which raise. */
  lemma SizingRefusals(
    profit: Option<real>, entryPrice: real, stopLoss: Option<real>, equity: real, riskPercent: real, lo: real, hi: real, step: real)
    ensures var r := CalculateVolume(profit, entryPrice, stopLoss, equity, riskPercent, lo, hi, step);
      && (r.Raised? <==> 0.0 < entryPrice && stopLoss == None)
      && (r.Unusable? <==>
            entryPrice <= 0.0
            || (stopLoss != None && (stopLoss.value <= 0.0 || profit in {None, Some(0.0)} || step <= 0.0)))
  {
  }
}
