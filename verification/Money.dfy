// Money arithmetic: integer paise, exact rational rates, and the rounding rules the
// rest of the platform relies on.
module Money {

  /** An integer number of paise. */
  type Paise = int

  const TICK_SIZE_PAISE := 5

  datatype Snap = Down | Up | Nearest

  /** `Math.round`: the nearest integer, halves going toward positive infinity. */
  function RoundHalfUp(x: real): (r: int)
    ensures x - 0.5 < r as real <= x + 0.5
  {
    (x + 0.5).Floor
  }

  /** `Math.round(n / d)` over exact rationals: `n / d - q` lies in [-1/2, 1/2). */
  function RoundDiv(n: int, d: int): (q: int)
    requires d != 0
    ensures d > 0 ==> -d <= 2 * (n - q * d) < d
    ensures d < 0 ==> d < 2 * (n - q * d) <= -d
  {
    if d > 0 then FloorHalf(n, d) else FloorHalf(-n, -d)
  }

  function FloorHalf(n: int, d: int): (q: int)
    requires d > 0
    ensures -d <= 2 * (n - q * d) < d
  {
    var q := (2 * n + d) / (2 * d);
    DivisionBounds(2 * n + d, 2 * d);
    assert q * (2 * d) == 2 * (q * d);
    q
  }

  lemma DivisionBounds(n: int, d: int)
    requires d > 0
    ensures (n / d) * d <= n < (n / d) * d + d
  {
  }

  /** Products of a positive factor are ordered like the other factor. */
  lemma StrictProduct(a: int, b: int, d: int)
    requires d > 0 && a < b
    ensures a * d + d <= b * d
  {
    assert (b - a - 1) * d >= 0;
    assert (b - a - 1) * d == b * d - a * d - d;
  }

  /** The integer whose distance to `n / d` meets the half-up bounds is unique. */
  lemma RoundDivUnique(n: int, d: int, q: int)
    requires d > 0
    requires -d <= 2 * (n - q * d) < d
    ensures RoundDiv(n, d) == q
  {
    hide FloorHalf;
    var r := RoundDiv(n, d);
    if r < q {
      StrictProduct(r, q, d);
    } else if q < r {
      StrictProduct(q, r, d);
    }
  }

  /** An exact multiple rounds to its quotient. */
  lemma RoundDivExact(q: int, d: int)
    requires d != 0
    ensures RoundDiv(q * d, d) == q
  {
    if d > 0 {
      RoundDivUnique(q * d, d, q);
    } else {
      assert -(q * d) == q * (-d);
      RoundDivUnique(q * (-d), -d, q);
    }
  }

  /** A quotient between two integers rounds to something between them. */
  lemma RoundDivBetween(n: int, d: int, lo: int, hi: int)
    requires d > 0
    requires lo * d <= n <= hi * d
    ensures lo <= RoundDiv(n, d) <= hi
  {
    hide FloorHalf;
    var q := RoundDiv(n, d);
    if q < lo { StrictProduct(q, lo, d); }
    if q > hi { StrictProduct(hi, q, d); }
  }

  /** Scales money by a rate, rounding half away from zero. */
  function MulRate(amount: Paise, rate: real): (r: Paise)
    ensures amount as real * rate - 0.5 <= r as real <= amount as real * rate + 0.5
  {
    var scaled := amount as real * rate;
    if scaled < 0.0 then -RoundHalfUp(-scaled) else RoundHalfUp(scaled)
  }

  lemma MulRateNonNegative(amount: Paise, rate: real)
    requires amount >= 0 && rate >= 0.0
    ensures MulRate(amount, rate) >= 0
  {
    assert amount as real * rate >= 0.0;
  }

  lemma MulRateAtMost(amount: Paise, rate: real)
    requires amount >= 0 && 0.0 <= rate <= 1.0
    ensures 0 <= MulRate(amount, rate) <= amount
  {
    assert 0.0 <= amount as real * rate;
    assert amount as real * rate <= amount as real * 1.0;
  }

  /** A charge never rounds in anybody's favour: negating the amount negates the charge. */
  lemma MulRateOdd(amount: Paise, rate: real)
    ensures MulRate(-amount, rate) == -MulRate(amount, rate)
  {
    assert (-amount) as real * rate == -(amount as real * rate);
    assert RoundHalfUp(0.0) == 0;
  }

  /** How many whole units fit in a budget; the unit price must be positive. */
  function DivFloor(budget: Paise, unitPrice: Paise): (q: nat)
    requires unitPrice > 0
    ensures budget >= 0 ==> q * unitPrice <= budget < (q + 1) * unitPrice
    ensures budget < 0 ==> q == 0
  {
    if budget <= 0 then 0
    else
      DivisionBounds(budget, unitPrice);
      budget / unitPrice
  }

  /** Snaps a price to the tick grid. */
  function RoundToTick(price: Paise, snap: Snap): (r: Paise)
    ensures r % TICK_SIZE_PAISE == 0
    ensures snap.Down? ==> r <= price < r + TICK_SIZE_PAISE
    ensures snap.Up? ==> r - TICK_SIZE_PAISE < price <= r
    ensures snap.Nearest? ==> -TICK_SIZE_PAISE <= 2 * (price - r) < TICK_SIZE_PAISE
  {
    var snapped :=
      match snap
      case Down => price / TICK_SIZE_PAISE
      case Up => -((-price) / TICK_SIZE_PAISE)
      case Nearest => RoundDiv(price, TICK_SIZE_PAISE);
    snapped * TICK_SIZE_PAISE
  }

  function Abs(x: int): (r: nat)
    ensures r == x || r == -x
  {
    if x < 0 then -x else x
  }

  function Min(a: int, b: int): (r: int)
    ensures r <= a && r <= b && (r == a || r == b)
  {
    if a <= b then a else b
  }

  function Max(a: int, b: int): (r: int)
    ensures a <= r && b <= r && (r == a || r == b)
  {
    if a >= b then a else b
  }

  function Pow2(n: nat): nat {
    if n == 0 then 1 else 2 * Pow2(n - 1)
  }

  function Sign(x: int): int {
    if x > 0 then 1 else if x < 0 then -1 else 0
  }
}
