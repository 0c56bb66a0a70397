/**
 * Exact-real versions of the numeric built-ins the system relies on:
 * Python's `round(x, n)` (round half to even), `math.ceil`, `int()` on a float
 * (truncation toward zero), JavaScript's `Math.round` and NumPy's `np.clip`.
 * Floats are modelled as exact reals, so each of these is applied to the exact value.
 */
module Numeric {

  /** The service and the trainer round to at most three decimals. */
  type Places = p: nat | p <= 3

  /** 10^places as a real. */
  function Scale(places: Places): (q: real)
    ensures q >= 1.0
  {
    if places == 0 then 1.0 else if places == 1 then 10.0 else if places == 2 then 100.0 else 1000.0
  }

  /** The least integer not below x (`math.ceil`). */
  function Ceil(x: real): (r: int)
    ensures r as real - 1.0 < x <= r as real
  {
    -((-x).Floor)
  }

  /** Python's `int(x)` on a float: drop the fractional part, toward zero. */
  function Trunc(x: real): (r: int)
    ensures x >= 0.0 ==> r as real <= x < r as real + 1.0
    ensures x < 0.0 ==> r as real - 1.0 < x <= r as real
  {
    if x >= 0.0 then x.Floor else -((-x).Floor)
  }

  /** Round to the nearest integer, ties to the even neighbour (Python's `round(x)`). */
  function RoundHalfEven(x: real): (r: int)
    ensures x - 0.5 <= r as real <= x + 0.5
    ensures r as real == x + 0.5 ==> r % 2 == 0
    ensures r as real == x - 0.5 ==> r % 2 == 0
  {
    var f := x.Floor;
    var d := x - f as real;
    if d < 0.5 then f
    else if d > 0.5 then f + 1
    else if f % 2 == 0 then f
    else f + 1
  }

  /** r has at most `places` decimals. */
  predicate OnGrid(r: real, places: Places)
  {
    (r * Scale(places)).Floor as real == r * Scale(places)
  }

  /** Python's `round(x, places)`, taken on the exact value of x. */
  function Round(x: real, places: Places): (r: real)
    ensures places == 0 ==> -0.5 <= r - x <= 0.5
    ensures places == 1 ==> -0.05 <= r - x <= 0.05
    ensures places == 2 ==> -0.005 <= r - x <= 0.005
    ensures places == 3 ==> -0.0005 <= r - x <= 0.0005
  {
    if places == 0 then RoundHalfEven(x) as real
    else if places == 1 then RoundHalfEven(x * 10.0) as real / 10.0
    else if places == 2 then RoundHalfEven(x * 100.0) as real / 100.0
    else RoundHalfEven(x * 1000.0) as real / 1000.0
  }

  /** The integer k read back on the grid of `places` decimals: k / 10^places. */
  function Rescaled(k: int, places: Places): real
  {
    k as real / Scale(places)
  }

  /** The result of `Round` has at most `places` decimals. */
  lemma RoundIsOnGrid(x: real, places: Places)
    ensures OnGrid(Round(x, places), places)
  {
    RoundFacts(x, places);
    RoundUnfold(x, places);
  }

  /** JavaScript's `Math.round`: nearest integer, ties toward positive infinity. */
  function MathRound(x: real): (r: int)
    ensures x - 0.5 < r as real <= x + 0.5
  {
    (x + 0.5).Floor
  }

  /** NumPy's `np.clip(x, lo, hi)` for a scalar: `min(max(x, lo), hi)`. */
  function Clip(x: real, lo: real, hi: real): (r: real)
    requires lo <= hi
    ensures lo <= r <= hi
    ensures lo <= x <= hi ==> r == x
    ensures x < lo ==> r == lo
    ensures x > hi ==> r == hi
  {
    var m := if x < lo then lo else x;
    if m > hi then hi else m
  }

  /** The rounding error bound and the grid property of `Round`, shown for each scale separately. */
  lemma RoundFacts(x: real, places: Places)
    ensures var r := RoundHalfEven(x * Scale(places)) as real / Scale(places);
            && OnGrid(r, places)
            && (places == 0 ==> -0.5 <= r - x <= 0.5)
            && (places == 1 ==> -0.05 <= r - x <= 0.05)
            && (places == 2 ==> -0.005 <= r - x <= 0.005)
            && (places == 3 ==> -0.0005 <= r - x <= 0.0005)
  {
    var k := RoundHalfEven(x * Scale(places));
    assert (k as real).Floor == k;
    if places == 0 {
    } else if places == 1 {
      assert (k as real / 10.0) * 10.0 == k as real;
    } else if places == 2 {
      assert (k as real / 100.0) * 100.0 == k as real;
    } else {
      assert (k as real / 1000.0) * 1000.0 == k as real;
    }
  }

  lemma RoundHalfEvenMonotone(x: real, y: real)
    requires x <= y
    ensures RoundHalfEven(x) <= RoundHalfEven(y)
  {
    if x.Floor == y.Floor {
      assert x - x.Floor as real <= y - y.Floor as real;
    }
  }

  lemma RoundHalfEvenOfInteger(k: int)
    ensures RoundHalfEven(k as real) == k
  {
    assert (k as real).Floor == k;
  }

  /** Rounding never reverses the order of two values. */
  lemma RoundMonotone(x: real, y: real, places: Places)
    requires x <= y
    ensures Round(x, places) <= Round(y, places)
  {
    if places == 0 {
      RoundHalfEvenMonotone(x, y);
    } else if places == 1 {
      RoundHalfEvenMonotone(x * 10.0, y * 10.0);
    } else if places == 2 {
      RoundHalfEvenMonotone(x * 100.0, y * 100.0);
    } else {
      RoundHalfEvenMonotone(x * 1000.0, y * 1000.0);
    }
  }

  lemma RoundUnfold(x: real, places: Places)
    ensures Round(x, places) == Rescaled(RoundHalfEven(x * Scale(places)), places)
  {
    if places == 0 {
      assert x * Scale(places) == x;
    }
  }

  /** A value already on the grid of `places` decimals is left unchanged by rounding. */
  lemma RoundOnGrid(k: int, places: Places)
    ensures Round(k as real / Scale(places), places) == k as real / Scale(places)
  {
    var x := k as real / Scale(places);
    assert x * Scale(places) == k as real;
    RoundHalfEvenOfInteger(k);
    assert Round(x, places) == RoundHalfEven(x * Scale(places)) as real / Scale(places);
  }

  /** Rounding to `places` decimals keeps a value inside any range whose ends lie on that grid. */
  lemma RoundStaysInGridRange(x: real, lo: int, hi: int, places: Places)
    requires lo as real / Scale(places) <= x <= hi as real / Scale(places)
    ensures lo as real / Scale(places) <= Round(x, places) <= hi as real / Scale(places)
  {
    RoundMonotone(lo as real / Scale(places), x, places);
    RoundMonotone(x, hi as real / Scale(places), places);
    RoundOnGrid(lo, places);
    RoundOnGrid(hi, places);
  }


  /** A common non-zero factor cancels from a share of a three-part total. */
  lemma ScaledShare(x: real, a: real, b: real, c: real, k: real)
    requires a + b + c != 0.0 && k != 0.0
    ensures k * a + k * b + k * c != 0.0
    ensures (k * x) / (k * a + k * b + k * c) == x / (a + b + c)
  {
    var t := a + b + c;
    assert k * a + k * b + k * c == k * t;
    assert (x / t) * (k * t) == k * x;
  }

  /** A value strictly within half a unit of the grid point k / 10^places rounds to it. */
  lemma RoundToNearest(x: real, places: Places, k: int)
    requires k as real - 0.5 < x * Scale(places) < k as real + 0.5
    ensures Round(x, places) == k as real / Scale(places)
  {
    RoundHalfEvenNearest(x * Scale(places), k);
    RoundUnfold(x, places);
  }

  lemma RoundHalfEvenNearest(y: real, k: int)
    requires k as real - 0.5 < y < k as real + 0.5
    ensures RoundHalfEven(y) == k
  {
  }

  /** Rounding never moves a value across zero. */
  lemma RoundKeepsSign(x: real, places: Places)
    ensures x >= 0.0 ==> Round(x, places) >= 0.0
    ensures x <= 0.0 ==> Round(x, places) <= 0.0
  {
    RoundOnGrid(0, places);
    if x >= 0.0 {
      RoundMonotone(0.0, x, places);
    } else {
      RoundMonotone(x, 0.0, places);
    }
  }
}
