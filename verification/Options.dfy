// Defined-risk option structures and their payoff at expiry.
module Options {
  import opened Money
  import opened Domain

  /** A call or a put. */
  datatype Right = CE | PE

  datatype Leg = Leg(right: Right, strike: Paise, side: Side, lots: nat, expiry: Timestamp)

  datatype Kind = BULL_CALL_SPREAD | BEAR_PUT_SPREAD | LONG_STRADDLE | LONG_STRANGLE | IRON_CONDOR

  datatype Structure = Structure(kind: Kind, underlying: string, legs: seq<Leg>, lotSize: nat)

  datatype Params = Params(underlying: string, lotSize: nat, lots: nat, expiry: Timestamp)

  datatype StructureError = StrikesOutOfOrder

  // ----- Payoff -----

  /** What one share of the option is worth at a settlement, which need not be a whole paisa. */
  function Intrinsic(leg: Leg, settlement: real): real {
    var ahead := if leg.right.CE? then settlement - leg.strike as real else leg.strike as real - settlement;
    if ahead > 0.0 then ahead else 0.0
  }

  function Direction(leg: Leg): real {
    if leg.side.BUY? then 1.0 else -1.0
  }

  function LegPayoff(leg: Leg, settlement: real, lotSize: nat): real {
    Direction(leg) * Intrinsic(leg, settlement) * leg.lots as real * lotSize as real
  }

  function PayoffSum(legs: seq<Leg>, settlement: real, lotSize: nat): real {
    if legs == [] then 0.0
    else PayoffSum(legs[..|legs| - 1], settlement, lotSize) + LegPayoff(legs[|legs| - 1], settlement, lotSize)
  }

  function PayoffAtExpiry(st: Structure, settlement: real): Paise {
    RoundHalfUp(PayoffSum(st.legs, settlement, st.lotSize))
  }

  method Payoff(st: Structure, settlement: real) returns (total: Paise)
    ensures total == PayoffAtExpiry(st, settlement)
  {
    hide LegPayoff;
    var sum := 0.0;
    for i := 0 to |st.legs|
      invariant sum == PayoffSum(st.legs[..i], settlement, st.lotSize)
    {
      assert st.legs[..i + 1][..i] == st.legs[..i];
      sum := sum + LegPayoff(st.legs[i], settlement, st.lotSize);
    }
    assert st.legs[..|st.legs|] == st.legs;
    total := RoundHalfUp(sum);
  }

  function Net(st: Structure, cost: Paise, settlement: real): Paise {
    PayoffAtExpiry(st, settlement) - cost
  }

  // ----- The five constructors -----

  function BullCallSpread(p: Params, lower: Paise, upper: Paise): Result<Structure, StructureError> {
    if upper <= lower then Failure(StrikesOutOfOrder)
    else Success(Structure(BULL_CALL_SPREAD, p.underlying,
                           [Leg(CE, lower, BUY, p.lots, p.expiry), Leg(CE, upper, SELL, p.lots, p.expiry)], p.lotSize))
  }

  function BearPutSpread(p: Params, lower: Paise, upper: Paise): Result<Structure, StructureError> {
    if upper <= lower then Failure(StrikesOutOfOrder)
    else Success(Structure(BEAR_PUT_SPREAD, p.underlying,
                           [Leg(PE, upper, BUY, p.lots, p.expiry), Leg(PE, lower, SELL, p.lots, p.expiry)], p.lotSize))
  }

  function LongStraddle(p: Params, strike: Paise): Structure {
    Structure(LONG_STRADDLE, p.underlying,
              [Leg(CE, strike, BUY, p.lots, p.expiry), Leg(PE, strike, BUY, p.lots, p.expiry)], p.lotSize)
  }

  function LongStrangle(p: Params, put: Paise, call: Paise): Result<Structure, StructureError> {
    if call <= put then Failure(StrikesOutOfOrder)
    else Success(Structure(LONG_STRANGLE, p.underlying,
                           [Leg(CE, call, BUY, p.lots, p.expiry), Leg(PE, put, BUY, p.lots, p.expiry)], p.lotSize))
  }

  function IronCondor(p: Params, longPut: Paise, shortPut: Paise, shortCall: Paise, longCall: Paise)
    : Result<Structure, StructureError>
  {
    if !(longPut < shortPut < shortCall < longCall) then Failure(StrikesOutOfOrder)
    else Success(Structure(IRON_CONDOR, p.underlying,
                           [Leg(PE, longPut, BUY, p.lots, p.expiry), Leg(PE, shortPut, SELL, p.lots, p.expiry),
                            Leg(CE, shortCall, SELL, p.lots, p.expiry), Leg(CE, longCall, BUY, p.lots, p.expiry)],
                           p.lotSize))
  }

  // ----- Samples -----

  function InsertSorted(x: int, s: seq<int>): (r: seq<int>)
    ensures multiset(r) == multiset(s) + multiset{x}
  {
    if s == [] || x <= s[0] then [x] + s
    else
      assert s == [s[0]] + s[1..];
      [s[0]] + InsertSorted(x, s[1..])
  }

  function Sorted(s: seq<int>): (r: seq<int>)
    ensures multiset(r) == multiset(s)
  {
    if s == [] then []
    else
      assert s == [s[0]] + s[1..];
      InsertSorted(s[0], Sorted(s[1..]))
  }

  function Strikes(legs: seq<Leg>): (r: seq<int>)
    ensures |r| == |legs| && forall i :: 0 <= i < |legs| ==> r[i] == legs[i].strike
  {
    seq(|legs|, i requires 0 <= i < |legs| => legs[i].strike)
  }

  lemma SortedMembers(s: seq<int>, x: int)
    ensures x in Sorted(s) <==> x in s
    ensures |Sorted(s)| == |s|
  {
    assert multiset(Sorted(s))[x] == multiset(s)[x];
    assert |multiset(Sorted(s))| == |multiset(s)|;
  }

  function AtLeastOne(x: real): real {
    if x > 1.0 then x else 1.0
  }

  function MaxReal(a: real, b: real): real {
    if a >= b then a else b
  }

  function Width(lowest: Paise, highest: Paise): (w: real)
    ensures w >= 1.0
  {
    AtLeastOne(MaxReal((highest - lowest) as real, lowest as real * 0.2))
  }

  function Midpoints(strikes: seq<int>): seq<real> {
    if |strikes| < 2 then []
    else
      var n := |strikes|;
      Midpoints(strikes[..n - 1]) + [RoundHalfUp((strikes[n - 2] as real + strikes[n - 1] as real) / 2.0) as real]
  }

  function Reals(s: seq<int>): (r: seq<real>)
    ensures |r| == |s| && forall i :: 0 <= i < |s| ==> r[i] == s[i] as real
  {
    seq(|s|, i requires 0 <= i < |s| => s[i] as real)
  }

  /** Both sides far out, every strike, and the midpoints between neighbours. */
  function Samples(st: Structure): (r: seq<real>)
    requires st.legs != []
    ensures r != []
  {
    var strikes := Sorted(Strikes(st.legs));
    SortedMembers(Strikes(st.legs), 0);
    var lowest, highest := strikes[0], strikes[|strikes| - 1];
    var width := Width(lowest, highest);
    [AtLeastOne(lowest as real - width * 2.0), AtLeastOne(lowest as real - width)]
    + Reals(strikes)
    + [highest as real + width, highest as real + width * 2.0]
    + Midpoints(strikes)
  }

  lemma StrikesAreSampled(st: Structure, i: nat)
    requires i < |st.legs|
    ensures st.legs[i].strike as real in Samples(st)
  {
    hide Sorted, Samples;
    var strikes := Sorted(Strikes(st.legs));
    SortedMembers(Strikes(st.legs), st.legs[i].strike);
    assert Strikes(st.legs)[i] == st.legs[i].strike;
    var k :| 0 <= k < |strikes| && strikes[k] == st.legs[i].strike;
    assert Reals(strikes)[k] == st.legs[i].strike as real;
    StrikesAreInTheMiddle(st, strikes, st.legs[i].strike as real);
  }

  lemma StrikesAreInTheMiddle(st: Structure, strikes: seq<int>, x: real)
    requires st.legs != [] && strikes == Sorted(Strikes(st.legs)) && x in Reals(strikes)
    ensures x in Samples(st)
  {
    hide Reals, Sorted, Strikes, Midpoints, Width, AtLeastOne;
  }

  predicate IsWorst(st: Structure, cost: Paise, samples: seq<real>, worst: int) {
    && (forall s :: s in samples ==> Net(st, cost, s) >= worst)
    && (exists s :: s in samples && Net(st, cost, s) == worst)
  }

  predicate IsBest(st: Structure, cost: Paise, samples: seq<real>, best: int) {
    && (forall s :: s in samples ==> Net(st, cost, s) <= best)
    && (exists s :: s in samples && Net(st, cost, s) == best)
  }

  datatype Extremes = Extremes(maxProfit: Paise, maxLoss: Paise)

  /** Scans the samples, remembering the best and the worst. */
  method Analyse(st: Structure, cost: Paise) returns (e: Extremes)
    requires st.legs != []
    ensures IsWorst(st, cost, Samples(st), e.maxLoss) && IsBest(st, cost, Samples(st), e.maxProfit)
  {
    hide Net, Samples;
    var samples := Samples(st);
    var first := Payoff(st, samples[0]);
    NetIsPayoff(st, cost, samples[0]);
    var maxProfit, maxLoss := first - cost, first - cost;
    ghost var best, worst := samples[0], samples[0];
    for i := 1 to |samples|
      invariant forall k :: 0 <= k < i ==> maxLoss <= Net(st, cost, samples[k]) <= maxProfit
      invariant best in samples && Net(st, cost, best) == maxProfit
      invariant worst in samples && Net(st, cost, worst) == maxLoss
    {
      var payoff := Payoff(st, samples[i]);
      NetIsPayoff(st, cost, samples[i]);
      var net := payoff - cost;
      if net > maxProfit {
        maxProfit, best := net, samples[i];
      }
      if net < maxLoss {
        maxLoss, worst := net, samples[i];
      }
    }
    e := Extremes(maxProfit, maxLoss);
  }

  lemma NetIsPayoff(st: Structure, cost: Paise, settlement: real)
    ensures Net(st, cost, settlement) == PayoffAtExpiry(st, settlement) - cost
  {
  }

  // ----- Exactness over every settlement -----

  lemma Scaled(direction: real, intrinsic: real, lots: real, lotSize: real)
    ensures direction * intrinsic * lots * lotSize == (direction * intrinsic) * (lots * lotSize)
  {
  }

  /** The payoff of one share of every leg. */
  function Unit(legs: seq<Leg>, settlement: real): real {
    if legs == [] then 0.0
    else Unit(legs[..|legs| - 1], settlement) + Direction(legs[|legs| - 1]) * Intrinsic(legs[|legs| - 1], settlement)
  }

  lemma {:induction false} PayoffIsScaledUnit(legs: seq<Leg>, settlement: real, lots: nat, lotSize: nat)
    requires forall leg :: leg in legs ==> leg.lots == lots
    ensures PayoffSum(legs, settlement, lotSize) == Unit(legs, settlement) * (lots as real * lotSize as real)
  {
    hide Intrinsic;
    if legs != [] {
      var n := |legs| - 1;
      PayoffIsScaledUnit(legs[..n], settlement, lots, lotSize);
      Scaled(Direction(legs[n]), Intrinsic(legs[n], settlement), lots as real, lotSize as real);
      Distributes(Unit(legs[..n], settlement), Direction(legs[n]) * Intrinsic(legs[n], settlement), lots as real * lotSize as real);
    }
  }

  lemma Distributes(a: real, b: real, k: real)
    ensures (a + b) * k == a * k + b * k
  {
  }

  lemma SizeIsNonNegative(lots: nat, lotSize: nat)
    ensures lots as real * lotSize as real >= 0.0
  {
  }

  lemma ScaleKeepsOrder(a: real, b: real, k: real)
    requires a <= b && k >= 0.0
    ensures a * k <= b * k
  {
    assert (b - a) * k >= 0.0;
  }

  lemma RoundKeepsOrder(a: real, b: real)
    requires a <= b
    ensures RoundHalfUp(a) <= RoundHalfUp(b)
  {
  }

  /** If one share pays at least as much, the structure does. */
  lemma UnitOrdersNet(st: Structure, cost: Paise, lots: nat, s0: real, s1: real)
    requires forall leg :: leg in st.legs ==> leg.lots == lots
    requires Unit(st.legs, s0) <= Unit(st.legs, s1)
    ensures Net(st, cost, s0) <= Net(st, cost, s1)
  {
    hide Unit, PayoffSum, RoundHalfUp;
    PayoffIsScaledUnit(st.legs, s0, lots, st.lotSize);
    PayoffIsScaledUnit(st.legs, s1, lots, st.lotSize);
    SizeIsNonNegative(lots, st.lotSize);
    ScaleKeepsOrder(Unit(st.legs, s0), Unit(st.legs, s1), lots as real * st.lotSize as real);
    RoundKeepsOrder(PayoffSum(st.legs, s0, st.lotSize), PayoffSum(st.legs, s1, st.lotSize));
  }

  /** What a constructor built, with the strikes in the order it was given them. */
  datatype Built =
    | ABullCall(lower: Paise, upper: Paise)
    | ABearPut(lower: Paise, upper: Paise)
    | AStraddle(strike: Paise)
    | AStrangle(put: Paise, call: Paise)
    | ACondor(longPut: Paise, shortPut: Paise, shortCall: Paise, longCall: Paise)

  predicate IsBuilt(st: Structure, p: Params, b: Built) {
    match b
    case ABullCall(lower, upper) => BullCallSpread(p, lower, upper) == Success(st)
    case ABearPut(lower, upper) => BearPutSpread(p, lower, upper) == Success(st)
    case AStraddle(strike) => LongStraddle(p, strike) == st
    case AStrangle(put, call) => LongStrangle(p, put, call) == Success(st)
    case ACondor(lp, sp, sc, lc) => IronCondor(p, lp, sp, sc, lc) == Success(st)
  }

  lemma UnitOfTwo(a: Leg, b: Leg, s: real)
    ensures Unit([a, b], s) == Direction(a) * Intrinsic(a, s) + Direction(b) * Intrinsic(b, s)
  {
    assert [a, b][..1] == [a];
    assert [a][..0] == [];
    assert Unit([a], s) == Unit([], s) + Direction(a) * Intrinsic(a, s);
  }

  lemma UnitOfFour(a: Leg, b: Leg, c: Leg, d: Leg, s: real)
    ensures Unit([a, b, c, d], s) ==
            Direction(a) * Intrinsic(a, s) + Direction(b) * Intrinsic(b, s)
            + Direction(c) * Intrinsic(c, s) + Direction(d) * Intrinsic(d, s)
  {
    assert [a, b, c, d][..3] == [a, b, c];
    assert [a, b, c][..2] == [a, b];
    UnitOfTwo(a, b, s);
  }

  /** A strike whose payoff no settlement undercuts. */
  function WorstStrike(b: Built, condorBelow: bool): Paise {
    match b
    case ABullCall(lower, _) => lower
    case ABearPut(_, upper) => upper
    case AStraddle(strike) => strike
    case AStrangle(put, _) => put
    case ACondor(longPut, _, _, longCall) => if condorBelow then longPut else longCall
  }

  /** A condor loses its wider wing. */
  predicate WiderBelow(b: Built) {
    b.ACondor? && b.shortPut - b.longPut >= b.longCall - b.shortCall
  }

  function BestStrike(b: Built): Paise
    requires !b.AStraddle? && !b.AStrangle?
  {
    match b
    case ABullCall(_, upper) => upper
    case ABearPut(lower, _) => lower
    case ACondor(_, shortPut, _, _) => shortPut
  }

  lemma UnitIsLowestThere(st: Structure, p: Params, b: Built, s: real)
    requires IsBuilt(st, p, b)
    ensures Unit(st.legs, WorstStrike(b, WiderBelow(b)) as real) <= Unit(st.legs, s)
  {
    hide Unit;
    var k := WorstStrike(b, WiderBelow(b)) as real;
    var legs := st.legs;
    if b.ACondor? {
      UnitOfFour(legs[0], legs[1], legs[2], legs[3], s);
      UnitOfFour(legs[0], legs[1], legs[2], legs[3], k);
    } else {
      UnitOfTwo(legs[0], legs[1], s);
      UnitOfTwo(legs[0], legs[1], k);
    }
  }

  lemma UnitIsHighestThere(st: Structure, p: Params, b: Built, s: real)
    requires IsBuilt(st, p, b) && !b.AStraddle? && !b.AStrangle?
    ensures Unit(st.legs, s) <= Unit(st.legs, BestStrike(b) as real)
  {
    hide Unit;
    var k := BestStrike(b) as real;
    var legs := st.legs;
    if b.ACondor? {
      UnitOfFour(legs[0], legs[1], legs[2], legs[3], s);
      UnitOfFour(legs[0], legs[1], legs[2], legs[3], k);
    } else {
      UnitOfTwo(legs[0], legs[1], s);
      UnitOfTwo(legs[0], legs[1], k);
    }
  }

  lemma StrikeOf(st: Structure, p: Params, b: Built)
    requires IsBuilt(st, p, b)
    ensures st.legs != [] && (forall leg :: leg in st.legs ==> leg.lots == p.lots)
    ensures WorstStrike(b, WiderBelow(b)) as real in Samples(st)
    ensures !b.AStraddle? && !b.AStrangle? ==> BestStrike(b) as real in Samples(st)
  {
    hide Samples;
    forall i | 0 <= i < |st.legs|
      ensures st.legs[i].strike as real in Samples(st)
    {
      StrikesAreSampled(st, i);
    }
    assert st.legs[0].strike as real in Samples(st) && st.legs[1].strike as real in Samples(st);
    if b.ACondor? {
      assert st.legs[3].strike as real in Samples(st);
    }
  }

  /**
   * The sampled worst case is the worst case: it is attained, and no settlement at all does worse,
   * for every structure the constructors build and any cost.
   */
  lemma WorstCaseIsExact(st: Structure, p: Params, b: Built, cost: Paise, maxLoss: Paise)
    requires IsBuilt(st, p, b) && st.legs != [] && IsWorst(st, cost, Samples(st), maxLoss)
    ensures forall s: real :: Net(st, cost, s) >= maxLoss
    ensures Net(st, cost, WorstStrike(b, WiderBelow(b)) as real) == maxLoss
  {
    hide Samples, IsBuilt, Unit, WorstStrike, Net, WiderBelow;
    var k := WorstStrike(b, WiderBelow(b)) as real;
    StrikeOf(st, p, b);
    forall s: real
      ensures Net(st, cost, s) >= Net(st, cost, k)
    {
      UnitIsLowestThere(st, p, b, s);
      UnitOrdersNet(st, cost, p.lots, k, s);
    }
    var w :| w in Samples(st) && Net(st, cost, w) == maxLoss;
    assert Net(st, cost, w) >= Net(st, cost, k);
  }

  /** For the two spreads and the condor, so is the sampled best case. */
  lemma BestCaseIsExact(st: Structure, p: Params, b: Built, cost: Paise, maxProfit: Paise)
    requires IsBuilt(st, p, b) && st.legs != [] && !b.AStraddle? && !b.AStrangle?
    requires IsBest(st, cost, Samples(st), maxProfit)
    ensures forall s: real :: Net(st, cost, s) <= maxProfit
    ensures Net(st, cost, BestStrike(b) as real) == maxProfit
  {
    hide Samples, IsBuilt, Unit, BestStrike, Net;
    var k := BestStrike(b) as real;
    StrikeOf(st, p, b);
    forall s: real
      ensures Net(st, cost, s) <= Net(st, cost, k)
    {
      UnitIsHighestThere(st, p, b, s);
      UnitOrdersNet(st, cost, p.lots, s, k);
    }
    var w :| w in Samples(st) && Net(st, cost, w) == maxProfit;
    assert Net(st, cost, w) <= Net(st, cost, k);
  }

  /** A settlement that a long straddle or strangle turns into at least `gain` a share. */
  function FarOut(b: Built, gain: nat): real
    requires b.AStraddle? || b.AStrangle?
  {
    (if b.AStraddle? then b.strike + gain else b.call + gain) as real
  }

  lemma UnitFarOut(st: Structure, p: Params, b: Built, gain: nat)
    requires IsBuilt(st, p, b) && (b.AStraddle? || b.AStrangle?)
    ensures Unit(st.legs, FarOut(b, gain)) >= gain as real
  {
    hide Unit;
    UnitOfTwo(st.legs[0], st.legs[1], FarOut(b, gain));
  }

  lemma RoundAtLeast(n: int, x: real)
    requires x >= n as real
    ensures RoundHalfUp(x) >= n
  {
  }

  /** A long straddle or strangle of at least one share has no best case: every bound is beaten. */
  lemma LongVolatilityIsUnbounded(st: Structure, p: Params, b: Built, cost: Paise, bound: int)
    requires IsBuilt(st, p, b) && (b.AStraddle? || b.AStrangle?)
    requires p.lots >= 1 && p.lotSize >= 1
    ensures exists s: real :: Net(st, cost, s) > bound
  {
    hide Unit, PayoffSum, RoundHalfUp, FarOut;
    var gain := Max(0, bound + cost + 1);
    var s := FarOut(b, gain);
    UnitFarOut(st, p, b, gain);
    PayoffIsScaledUnit(st.legs, s, p.lots, p.lotSize);
    AtLeastItself(Unit(st.legs, s), p.lots, p.lotSize);
    RoundAtLeast(gain, PayoffSum(st.legs, s, p.lotSize));
    assert Net(st, cost, s) > bound;
  }

  lemma AtLeastItself(unit: real, lots: nat, lotSize: nat)
    requires unit >= 0.0 && lots >= 1 && lotSize >= 1
    ensures unit * (lots as real * lotSize as real) >= unit
  {
    var k := lots as real * lotSize as real;
    assert k >= 1.0 by {
      assert (lots as real - 1.0) * lotSize as real >= 0.0;
    }
    assert unit * (k - 1.0) >= 0.0;
  }

  // ----- What a structure pays -----

  function Clamp(s: real, lower: Paise, upper: Paise): real {
    if s < lower as real then lower as real else if s > upper as real then upper as real else s
  }

  function Positive(x: real): real {
    if x > 0.0 then x else 0.0
  }

  function Capped(x: real, cap: real): real {
    if x < cap then x else cap
  }

  /** What one share of a structure pays at a settlement, by its strikes alone. */
  function PerShare(b: Built, s: real): real {
    match b
    case ABullCall(lower, upper) => Clamp(s, lower, upper) - lower as real
    case ABearPut(lower, upper) => upper as real - Clamp(s, lower, upper)
    case AStraddle(strike) => if s >= strike as real then s - strike as real else strike as real - s
    case AStrangle(put, call) => Positive(MaxReal(put as real - s, s - call as real))
    case ACondor(longPut, shortPut, shortCall, longCall) =>
      -(Capped(Positive(shortPut as real - s), (shortPut - longPut) as real)
        + Capped(Positive(s - shortCall as real), (longCall - shortCall) as real))
  }

  function Size(p: Params): real {
    p.lots as real * p.lotSize as real
  }

  lemma UnitIsPerShare(st: Structure, p: Params, b: Built, s: real)
    requires IsBuilt(st, p, b)
    ensures Unit(st.legs, s) == PerShare(b, s)
  {
    hide Unit;
    var legs := st.legs;
    if b.ACondor? {
      UnitOfFour(legs[0], legs[1], legs[2], legs[3], s);
    } else {
      UnitOfTwo(legs[0], legs[1], s);
    }
  }

  lemma BuiltAlike(st: Structure, p: Params, b: Built)
    requires IsBuilt(st, p, b)
    ensures st.lotSize == p.lotSize && st.legs != [] && forall leg :: leg in st.legs ==> leg.lots == p.lots
  {
  }

  /** At every settlement a structure pays its lots and lot size times what its strikes say, rounded half up. */
  lemma PaysByItsStrikes(st: Structure, p: Params, b: Built, s: real)
    requires IsBuilt(st, p, b)
    ensures PayoffAtExpiry(st, s) == RoundHalfUp(PerShare(b, s) * Size(p))
  {
    hide Unit, PayoffSum, PerShare, IsBuilt, RoundHalfUp;
    BuiltAlike(st, p, b);
    UnitIsPerShare(st, p, b, s);
    PayoffIsScaledUnit(st.legs, s, p.lots, p.lotSize);
  }

  /** Strikes a constructor accepts, in the order it wants them. */
  predicate InOrder(b: Built) {
    match b
    case ABullCall(lower, upper) => lower < upper
    case ABearPut(lower, upper) => lower < upper
    case AStraddle(_) => true
    case AStrangle(put, call) => put < call
    case ACondor(longPut, shortPut, shortCall, longCall) => longPut < shortPut < shortCall < longCall
  }

  /** A constructor fails exactly on strikes out of order. */
  lemma BuiltExactly(p: Params, b: Built)
    ensures InOrder(b) <==> exists st :: IsBuilt(st, p, b)
  {
    if InOrder(b) {
      match b
      case ABullCall(lower, upper) => assert IsBuilt(BullCallSpread(p, lower, upper).value, p, b);
      case ABearPut(lower, upper) => assert IsBuilt(BearPutSpread(p, lower, upper).value, p, b);
      case AStraddle(strike) => assert IsBuilt(LongStraddle(p, strike), p, b);
      case AStrangle(put, call) => assert IsBuilt(LongStrangle(p, put, call).value, p, b);
      case ACondor(lp, sp, sc, lc) => assert IsBuilt(IronCondor(p, lp, sp, sc, lc).value, p, b);
    }
  }

  /** What a share can lose beyond its cost: nothing, but for a condor its wider wing. */
  function AtRisk(b: Built): int {
    if b.ACondor? then Max(b.shortPut - b.longPut, b.longCall - b.shortCall) else 0
  }

  /** What a share can bring at most: the distance of the strikes of a spread, nothing more than its credit for a condor. */
  function AtBest(b: Built): int
    requires !b.AStraddle? && !b.AStrangle?
  {
    match b
    case ABullCall(lower, upper) => upper - lower
    case ABearPut(lower, upper) => upper - lower
    case ACondor(_, _, _, _) => 0
  }

  lemma WholePaise(n: int, p: Params)
    ensures RoundHalfUp(n as real * Size(p)) == n * (p.lots * p.lotSize)
  {
    var size := p.lots * p.lotSize;
    assert n as real * Size(p) == (n * size) as real by { WholeProduct(n, p.lots, p.lotSize); }
    WholeRounds(n * size);
  }

  lemma WholeProduct(n: int, a: nat, b: nat)
    ensures n as real * (a as real * b as real) == (n * (a * b)) as real
  {
    assert a as real * b as real == (a * b) as real;
  }

  lemma WholeRounds(n: int)
    ensures RoundHalfUp(n as real) == n
  {
  }

  lemma WorstPerShare(st: Structure, p: Params, b: Built)
    requires IsBuilt(st, p, b)
    ensures PerShare(b, WorstStrike(b, WiderBelow(b)) as real) == (-AtRisk(b)) as real
  {
  }

  lemma BestPerShare(st: Structure, p: Params, b: Built)
    requires IsBuilt(st, p, b) && !b.AStraddle? && !b.AStrangle?
    ensures PerShare(b, BestStrike(b) as real) == AtBest(b) as real
  {
  }

  /** The worst case in numbers: the cost, and for a condor its wider wing as well. */
  lemma WorstCaseInNumbers(st: Structure, p: Params, b: Built, cost: Paise, maxLoss: Paise)
    requires IsBuilt(st, p, b) && st.legs != [] && IsWorst(st, cost, Samples(st), maxLoss)
    ensures maxLoss == -AtRisk(b) * (p.lots * p.lotSize) - cost
  {
    hide Samples, IsBuilt, WorstStrike, WiderBelow, PerShare, PayoffAtExpiry, Size, RoundHalfUp, AtRisk, IsWorst;
    WorstCaseIsExact(st, p, b, cost, maxLoss);
    PaysByItsStrikes(st, p, b, WorstStrike(b, WiderBelow(b)) as real);
    WorstPerShare(st, p, b);
    WholePaise(-AtRisk(b), p);
  }

  /** The best case in numbers: the distance of a spread's strikes less its cost; a condor keeps its credit. */
  lemma BestCaseInNumbers(st: Structure, p: Params, b: Built, cost: Paise, maxProfit: Paise)
    requires IsBuilt(st, p, b) && st.legs != [] && !b.AStraddle? && !b.AStrangle?
    requires IsBest(st, cost, Samples(st), maxProfit)
    ensures maxProfit == AtBest(b) * (p.lots * p.lotSize) - cost
  {
    hide Samples, IsBuilt, BestStrike, PerShare, PayoffAtExpiry, Size, RoundHalfUp, AtBest, IsBest;
    BestCaseIsExact(st, p, b, cost, maxProfit);
    PaysByItsStrikes(st, p, b, BestStrike(b) as real);
    BestPerShare(st, p, b);
    WholePaise(AtBest(b), p);
  }
}
