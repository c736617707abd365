// The incrementally rounded average price that both the order manager and the simulated broker
// keep while an order fills in pieces.
module Averages {
  import opened Money
  import opened Domain

  predicate PositiveFills(fills: seq<Fill>) {
    forall f :: f in fills ==> f.quantity > 0
  }

  function FilledQuantity(fills: seq<Fill>): int {
    if fills == [] then 0 else FilledQuantity(fills[..|fills| - 1]) + fills[|fills| - 1].quantity
  }

  lemma {:induction false} FilledQuantityPositive(fills: seq<Fill>)
    requires PositiveFills(fills)
    ensures FilledQuantity(fills) >= |fills|
  {
    if fills != [] {
      FilledQuantityPositive(fills[..|fills| - 1]);
    }
  }

  /** What was actually paid or received, before charges. */
  function Notional(fills: seq<Fill>): int {
    if fills == [] then 0
    else Notional(fills[..|fills| - 1]) + fills[|fills| - 1].quantity * fills[|fills| - 1].price
  }

  /** One update of a recorded average: `Math.round` of the new weighted mean. */
  function Blend(average: Paise, filled: int, quantity: int, price: Paise): Paise
    requires filled + quantity != 0
  {
    RoundDiv(average * filled + quantity * price, filled + quantity)
  }

  /** The average after every fill, rounded at every step; zero before the first. */
  function RunningAverage(fills: seq<Fill>): Paise
    requires PositiveFills(fills)
  {
    if fills == [] then 0
    else
      var before := fills[..|fills| - 1];
      FilledQuantityPositive(before);
      Blend(RunningAverage(before), FilledQuantity(before), fills[|fills| - 1].quantity, fills[|fills| - 1].price)
  }

  function RecordedAverage(fills: seq<Fill>): Option<Paise>
    requires PositiveFills(fills)
  {
    if fills == [] then None else Some(RunningAverage(fills))
  }

  /** The quantity filled so far, summed over every fill but the first. */
  function RunningSizes(fills: seq<Fill>): int {
    if |fills| <= 1 then 0 else RunningSizes(fills[..|fills| - 1]) + FilledQuantity(fills)
  }

  lemma WeightedBetween(average: int, filled: int, quantity: int, price: int, lo: int, hi: int)
    requires filled >= 0 && quantity > 0
    requires filled > 0 ==> lo <= average <= hi
    requires lo <= price <= hi
    ensures lo <= Blend(average, filled, quantity, price) <= hi
  {
    hide RoundDiv;
    var n, d := average * filled + quantity * price, filled + quantity;
    if filled == 0 {
      assert average * filled == 0;
      assert lo * d <= n <= hi * d;
    } else {
      assert (average - lo) * filled >= 0 && (hi - average) * filled >= 0;
      assert (price - lo) * quantity >= 0 && (hi - price) * quantity >= 0;
    }
    RoundDivBetween(n, d, lo, hi);
  }

  /** Rounding at every step never carries the average outside the range of prices paid. */
  lemma {:induction false} AverageWithinPrices(fills: seq<Fill>, lo: Paise, hi: Paise)
    requires fills != [] && PositiveFills(fills)
    requires forall f :: f in fills ==> lo <= f.price <= hi
    ensures lo <= RunningAverage(fills) <= hi
  {
    hide Blend;
    var before, last := fills[..|fills| - 1], fills[|fills| - 1];
    FilledQuantityPositive(before);
    if before != [] {
      AverageWithinPrices(before, lo, hi);
    }
    WeightedBetween(RunningAverage(before), FilledQuantity(before), last.quantity, last.price, lo, hi);
  }

  lemma BlendDrift(average: int, filled: int, quantity: int, price: int)
    requires filled >= 0 && quantity > 0
    ensures var b := Blend(average, filled, quantity, price);
            Abs(2 * (b * (filled + quantity) - average * filled - quantity * price)) <= filled + quantity
    ensures filled == 0 ==> Blend(average, filled, quantity, price) == price
  {
    if filled == 0 {
      assert average * filled == 0;
      assert quantity * price == price * quantity;
      RoundDivExact(price, quantity);
    }
  }

  /** How far the recorded average can drift from the true one: half a paisa a share a step. */
  lemma {:induction false} AverageDrift(fills: seq<Fill>)
    requires PositiveFills(fills)
    ensures Abs(2 * (RunningAverage(fills) * FilledQuantity(fills) - Notional(fills))) <= RunningSizes(fills)
  {
    if fills != [] {
      hide Blend;
      var before, last := fills[..|fills| - 1], fills[|fills| - 1];
      AverageDrift(before);
      FilledQuantityPositive(before);
      BlendDrift(RunningAverage(before), FilledQuantity(before), last.quantity, last.price);
      if before == [] {
        assert RunningAverage(fills) == last.price;
        assert FilledQuantity(fills) == last.quantity;
        assert last.price * last.quantity == last.quantity * last.price;
      } else {
        var a, q := RunningAverage(fills), FilledQuantity(fills);
        assert q == FilledQuantity(before) + last.quantity;
        DriftAdds(a * q, RunningAverage(before) * FilledQuantity(before), last.quantity * last.price,
                  Notional(before), RunningSizes(before), q);
      }
    }
  }

  lemma DriftAdds(now: int, then_: int, paid: int, notional: int, drift: int, size: int)
    requires Abs(2 * (then_ - notional)) <= drift
    requires Abs(2 * (now - then_ - paid)) <= size
    ensures Abs(2 * (now - (notional + paid))) <= drift + size
  {
  }
}
