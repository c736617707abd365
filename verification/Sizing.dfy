// Position sizing from the distance to the stop, and the stop's ratchet.
module Sizing {
  import opened Money
  import opened Domain

  datatype SizingError = BadEntryPrice | BadLotSize | BadRiskFraction | BadLeverage | ZeroStopDistance

  /** The cap that decided a size. */
  datatype Cap = Risk | PositionCap | Cash

  datatype Input = Input(
    equity: Paise,
    entryPrice: Paise,
    stopLoss: Paise,
    riskFraction: real,
    maxPositionFraction: real,
    availableCash: Paise,
    lotSize: int,
    leverage: real)

  datatype Sized = Sized(quantity: nat, boundBy: Cap, notional: Paise, riskAmount: Paise)

  function StopDistance(input: Input): nat {
    Abs(input.entryPrice - input.stopLoss)
  }

  /** The money each cap allows, and what one share takes from it. */
  function Budget(input: Input, cap: Cap): Paise {
    match cap
    case Risk => MulRate(input.equity, input.riskFraction)
    case PositionCap => MulRate(input.equity, input.maxPositionFraction)
    case Cash => MulRate(input.availableCash, input.leverage)
  }

  function PerShare(input: Input, cap: Cap): Paise {
    match cap
    case Risk => StopDistance(input)
    case PositionCap => input.entryPrice
    case Cash => input.entryPrice
  }

  predicate Admits(input: Input, cap: Cap, quantity: nat) {
    quantity * PerShare(input, cap) <= Budget(input, cap)
  }

  /** Why an input is refused, in the order the checks run. */
  function Refusal(input: Input): Option<SizingError> {
    if input.entryPrice <= 0 then Some(BadEntryPrice)
    else if input.lotSize < 1 then Some(BadLotSize)
    else if input.riskFraction <= 0.0 || input.riskFraction > 1.0 then Some(BadRiskFraction)
    else if input.leverage <= 0.0 then Some(BadLeverage)
    else if StopDistance(input) == 0 then Some(ZeroStopDistance)
    else None
  }

  function WholeLots(raw: nat, lotSize: int): (q: nat)
    requires lotSize > 0
    ensures q % lotSize == 0 && q <= raw < q + lotSize
  {
    DivisionBounds(raw, lotSize);
    LotMultiple(raw / lotSize, lotSize);
    raw / lotSize * lotSize
  }

  lemma LotMultiple(n: nat, lotSize: int)
    requires lotSize > 0
    ensures n * lotSize >= 0 && (n * lotSize) % lotSize == 0
  {
    var total := n * lotSize;
    var d := total / lotSize;
    assert total == d * lotSize + total % lotSize;
    if d < n {
      StrictProduct(d, n, lotSize);
    } else if n < d {
      StrictProduct(n, d, lotSize);
    }
  }

  /** How many shares the risk budget covers. */
  function ByRisk(input: Input): nat
    requires Refusal(input).None? && input.equity > 0
  {
    MulRateNonNegative(input.equity, input.riskFraction);
    QuotientNonNegative(Budget(input, Risk), StopDistance(input));
    Budget(input, Risk) / StopDistance(input)
  }

  lemma QuotientNonNegative(budget: nat, unit: int)
    requires unit > 0
    ensures budget / unit >= 0
  {
  }

  function SizePosition(input: Input): (r: Result<Sized, SizingError>)
    ensures r.Failure? <==> Refusal(input).Some?
    ensures r.Failure? ==> r.error == Refusal(input).value
    ensures r.Success? ==> r.value.quantity % input.lotSize == 0
    ensures r.Success? ==> r.value.notional == r.value.quantity * input.entryPrice
    ensures r.Success? ==> r.value.riskAmount == r.value.quantity * StopDistance(input)
  {
    var refusal := Refusal(input);
    if refusal.Some? then Failure(refusal.value)
    else if input.equity <= 0 then Success(Sized(0, Risk, 0, 0))
    else
      var byRisk := ByRisk(input);
      var byPositionCap := DivFloor(Budget(input, PositionCap), input.entryPrice);
      var byCash := DivFloor(Budget(input, Cash), input.entryPrice);
      var raw := Min(byRisk, Min(byPositionCap, byCash));
      var quantity := WholeLots(raw, input.lotSize);
      var boundBy := if raw == byRisk then Risk else if raw == byPositionCap then PositionCap else Cash;
      Success(Sized(quantity, boundBy, quantity * input.entryPrice, quantity * StopDistance(input)))
  }

  // ----- The size is the greatest one -----

  /** A quotient rounded down counts exactly the quantities the budget pays for. */
  lemma QuotientCounts(budget: int, unit: int, q: nat)
    requires unit > 0 && q > 0
    ensures q * unit <= budget <==> budget >= 0 && q <= budget / unit
  {
    DivisionBounds(budget, unit);
    if budget >= 0 {
      if q <= budget / unit {
        assert (budget / unit - q) * unit >= 0;
      } else {
        StrictProduct(budget / unit, q, unit);
      }
    } else {
      assert q * unit > 0;
    }
  }

  lemma DivFloorCounts(budget: int, unit: int, q: nat)
    requires unit > 0 && q > 0
    ensures q * unit <= budget <==> q <= DivFloor(budget, unit)
  {
    QuotientCounts(budget, unit, q);
  }

  lemma MulRateNonPositive(amount: Paise, rate: real)
    requires amount <= 0 && rate >= 0.0
    ensures MulRate(amount, rate) <= 0
  {
    MulRateNonNegative(-amount, rate);
    MulRateOdd(amount, rate);
  }

  lemma LotsNeverRoundPast(q: nat, raw: nat, lotSize: int)
    requires lotSize > 0 && q % lotSize == 0
    ensures q <= raw <==> q <= WholeLots(raw, lotSize)
  {
    var w := WholeLots(raw, lotSize);
    var a, b := q / lotSize, w / lotSize;
    assert q == a * lotSize && w == b * lotSize;
    if w < q {
      if a < b {
        StrictProduct(a, b, lotSize);
      }
      StrictProduct(b, a, lotSize);
    }
  }

  lemma EveryCap(input: Input, q: nat)
    ensures (forall cap :: Admits(input, cap, q)) <==>
            Admits(input, Risk, q) && Admits(input, PositionCap, q) && Admits(input, Cash, q)
  {
    hide Admits;
    forall cap | Admits(input, Risk, q) && Admits(input, PositionCap, q) && Admits(input, Cash, q)
      ensures Admits(input, cap, q)
    {
      match cap case Risk => case PositionCap => case Cash =>
    }
  }

  lemma RiskCounts(input: Input, q: nat)
    requires Refusal(input).None? && q > 0
    ensures input.equity <= 0 ==> !Admits(input, Risk, q)
    ensures input.equity > 0 ==> (Admits(input, Risk, q) <==> q <= ByRisk(input))
  {
    hide MulRate;
    if input.equity <= 0 {
      MulRateNonPositive(input.equity, input.riskFraction);
      assert q * StopDistance(input) > 0;
    } else {
      MulRateNonNegative(input.equity, input.riskFraction);
      QuotientCounts(Budget(input, Risk), StopDistance(input), q);
    }
  }

  lemma ValueCounts(input: Input, q: nat)
    requires Refusal(input).None? && q > 0
    ensures Admits(input, PositionCap, q) <==> q <= DivFloor(Budget(input, PositionCap), input.entryPrice)
    ensures Admits(input, Cash, q) <==> q <= DivFloor(Budget(input, Cash), input.entryPrice)
  {
    hide DivFloor, Budget;
    DivFloorCounts(Budget(input, PositionCap), input.entryPrice, q);
    DivFloorCounts(Budget(input, Cash), input.entryPrice, q);
  }

  /**
   * Every cap at once: a positive whole-lot quantity is within the size exactly when the risk
   * budget pays its loss at the stop and both the position cap and the cash pay its value.
   */
  lemma SizeIsGreatest(input: Input, q: nat)
    requires Refusal(input).None? && q > 0 && q % input.lotSize == 0
    ensures q <= SizePosition(input).value.quantity <==> forall cap :: Admits(input, cap, q)
  {
    hide MulRate, DivFloor, WholeLots, Admits, ByRisk, Budget;
    EveryCap(input, q);
    RiskCounts(input, q);
    if input.equity > 0 {
      ValueCounts(input, q);
      var raw := Min(ByRisk(input),
        Min(DivFloor(Budget(input, PositionCap), input.entryPrice), DivFloor(Budget(input, Cash), input.entryPrice)));
      LotsNeverRoundPast(q, raw, input.lotSize);
    }
  }

  /** The size never loses more at the stop than the risk budget, and is always paid for. */
  lemma SizeIsAffordable(input: Input)
    requires Refusal(input).None?
    ensures var s := SizePosition(input).value;
      s.quantity > 0 ==>
        && s.riskAmount <= Budget(input, Risk)
        && s.notional <= Budget(input, PositionCap)
        && s.notional <= Budget(input, Cash)
  {
    hide Budget, DivFloor, WholeLots, ByRisk;
    var s := SizePosition(input).value;
    if s.quantity > 0 {
      SizeIsGreatest(input, s.quantity);
      assert Admits(input, Risk, s.quantity) && Admits(input, PositionCap, s.quantity) && Admits(input, Cash, s.quantity);
    }
  }

  /** The cap reported as binding is one that a further lot would break. */
  lemma ReportedCapBinds(input: Input)
    requires Refusal(input).None?
    ensures var s := SizePosition(input).value; !Admits(input, s.boundBy, s.quantity + input.lotSize)
  {
    hide MulRate, DivFloor, WholeLots, Admits, ByRisk, Budget;
    var s := SizePosition(input).value;
    var q: nat := s.quantity + input.lotSize;
    RiskCounts(input, q);
    if input.equity > 0 {
      ValueCounts(input, q);
    }
  }

  // ----- Stops -----

  /** A stop the nearest paisa to so many ranges away from the entry, below a long and above a short, or the floor of one paisa. */
  predicate StopFits(entryPrice: Paise, atr: real, direction: Direction, multiplier: real, stop: Paise) {
    var distance := atr * multiplier;
    var away := if direction.LONG? then entryPrice - stop else stop - entryPrice;
    || (stop >= 1 && distance - 0.5 <= away as real <= distance + 0.5)
    || (stop == 1 && (if direction.LONG? then entryPrice as real - distance else entryPrice as real + distance) <= 1.5)
  }

  /** A stop a number of average ranges away from the entry, never at or below zero. */
  function AtrStopLoss(entryPrice: Paise, atr: real, direction: Direction, multiplier: real): (r: Option<Paise>)
    ensures r.None? <==> atr <= 0.0
    ensures r.Some? ==> r.value >= 1 && StopFits(entryPrice, atr, direction, multiplier, r.value)
  {
    if atr <= 0.0 then None
    else
      var distance := RoundHalfUp(atr * multiplier);
      Some(Max(1, if direction.LONG? then entryPrice - distance else entryPrice + distance))
  }

  /**
   * A stop lies on the losing side of its entry: strictly when the distance makes at least half a
   * paisa and the floor of one paisa does not act, and within half a paisa of that distance.
   */
  lemma StopIsOnTheLosingSide(entryPrice: Paise, atr: real, direction: Direction, multiplier: real)
    requires atr > 0.0 && multiplier > 0.0 && entryPrice >= 1
    ensures var stop := AtrStopLoss(entryPrice, atr, direction, multiplier).value;
      && (if direction.LONG? then stop <= entryPrice else stop >= entryPrice)
      && (stop > 1 ==>
            && atr * multiplier - 0.5 <= Abs(entryPrice - stop) as real <= atr * multiplier + 0.5
            && (atr * multiplier > 0.5 ==> stop != entryPrice))
  {
    assert atr * multiplier > 0.0;
  }

  lemma StopIsThere(entryPrice: Paise, atr: real, direction: Direction, multiplier: real)
    requires atr > 0.0
    ensures AtrStopLoss(entryPrice, atr, direction, multiplier).Some?
    ensures StopFits(entryPrice, atr, direction, multiplier, AtrStopLoss(entryPrice, atr, direction, multiplier).value)
  {
  }

  /** A stop `looser` than another tolerates a worse price. */
  predicate AtLeastAsTight(stop: Paise, than: Paise, direction: Direction) {
    if direction.LONG? then stop >= than else stop <= than
  }

  function TrailStop(current: Paise, candidate: Paise, direction: Direction): (r: Paise)
    ensures AtLeastAsTight(r, current, direction) && AtLeastAsTight(r, candidate, direction)
    ensures r == current || r == candidate
  {
    if direction.LONG? then (if candidate > current then candidate else current)
    else if candidate < current then candidate else current
  }

  predicate IsStopTriggered(lastPrice: Paise, stop: Paise, direction: Direction) {
    if direction.LONG? then lastPrice <= stop else lastPrice >= stop
  }
}
