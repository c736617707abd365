// Where a structure breaks even: a scan between neighbouring strikes with a bounded bisection.
module BreakEvens {
  import opened Money
  import opened Domain
  import opened Options

  datatype PaiseError = NotWhole

  /** A reported price must be a whole number of paise. */
  function FromPaise(x: real): Result<Paise, PaiseError> {
    if x == x.Floor as real then Success(x.Floor) else Failure(NotWhole)
  }

  // ----- Distinct sorted lists -----

  predicate Increasing(s: seq<int>) {
    forall i, j :: 0 <= i < j < |s| ==> s[i] < s[j]
  }

  function InsertUnique(x: int, s: seq<int>): seq<int> {
    if s == [] || x < s[0] then [x] + s
    else if x == s[0] then s
    else [s[0]] + InsertUnique(x, s[1..])
  }

  lemma {:induction false} InsertUniqueMembers(x: int, s: seq<int>, y: int)
    ensures y in InsertUnique(x, s) <==> y == x || y in s
  {
    if s != [] {
      assert s == [s[0]] + s[1..];
      if x > s[0] {
        InsertUniqueMembers(x, s[1..], y);
      }
    }
  }

  lemma {:induction false} InsertUniqueIncreases(x: int, s: seq<int>)
    requires Increasing(s)
    ensures Increasing(InsertUnique(x, s))
  {
    if s != [] && x > s[0] {
      hide InsertUnique;
      TailIncreases(s);
      InsertUniqueIncreases(x, s[1..]);
      var r := InsertUnique(x, s[1..]);
      forall y | y in r
        ensures s[0] < y
      {
        InsertUniqueMembers(x, s[1..], y);
      }
      ConsIncreases(s[0], r);
      InsertedLater(x, s);
    }
  }

  lemma InsertedLater(x: int, s: seq<int>)
    requires s != [] && x > s[0]
    ensures InsertUnique(x, s) == [s[0]] + InsertUnique(x, s[1..])
  {
  }

  lemma TailIncreases(s: seq<int>)
    requires s != [] && Increasing(s)
    ensures Increasing(s[1..]) && forall y :: y in s[1..] ==> s[0] < y
  {
    assert forall k :: 0 <= k < |s| - 1 ==> s[1..][k] == s[k + 1];
  }

  lemma ConsIncreases(x: int, s: seq<int>)
    requires Increasing(s) && forall y :: y in s ==> x < y
    ensures Increasing([x] + s)
  {
    var r := [x] + s;
    forall i, j | 0 <= i < j < |r|
      ensures r[i] < r[j]
    {
      assert r[j] == s[j - 1] && s[j - 1] in s;
      if i > 0 {
        assert r[i] == s[i - 1];
      }
    }
  }

  function SortedSet(s: seq<int>): seq<int> {
    if s == [] then [] else InsertUnique(s[|s| - 1], SortedSet(s[..|s| - 1]))
  }

  lemma {:induction false} SortedSetMembers(s: seq<int>)
    ensures Increasing(SortedSet(s))
    ensures forall y :: y in SortedSet(s) <==> y in s
  {
    if s != [] {
      var before := s[..|s| - 1];
      SortedSetMembers(before);
      InsertUniqueIncreases(s[|s| - 1], SortedSet(before));
      assert s == before + [s[|s| - 1]];
      forall y
        ensures y in SortedSet(s) <==> y in s
      {
        InsertUniqueMembers(s[|s| - 1], SortedSet(before), y);
      }
    }
  }

  // ----- The search -----

  /** The upper end the bisection is left with. */
  function Bisect(st: Structure, cost: Paise, low: real, high: real, n: nat): real
    decreases n
  {
    if n == 0 || high - low <= 1.0 then high
    else
      var mid := RoundHalfUp((low + high) / 2.0) as real;
      if Net(st, cost, low) * Net(st, cost, mid) <= 0 then Bisect(st, cost, low, mid, n - 1)
      else Bisect(st, cost, mid, high, n - 1)
  }

  function Segment(st: Structure, cost: Paise, low: real, high: real): Result<seq<Paise>, PaiseError> {
    var zero := if Net(st, cost, low) == 0 then FromPaise(low) else Success(0);
    if zero.Failure? then Failure(zero.error)
    else
      var zeros := if Net(st, cost, low) == 0 then [zero.value] else [];
      if Net(st, cost, low) * Net(st, cost, high) > 0 then Success(zeros)
      else
        var crossing := FromPaise(Bisect(st, cost, low, high, 60));
        if crossing.Failure? then Failure(crossing.error) else Success(zeros + [crossing.value])
  }

  function Found(st: Structure, cost: Paise, bounds: seq<real>): Result<seq<Paise>, PaiseError> {
    if |bounds| < 2 then Success([])
    else
      var n := |bounds|;
      var before := Found(st, cost, bounds[..n - 1]);
      if before.Failure? then before
      else
        var segment := Segment(st, cost, bounds[n - 2], bounds[n - 1]);
        if segment.Failure? then segment else Success(before.value + segment.value)
  }

  function Bounds(st: Structure): (r: seq<real>)
    requires st.legs != []
    ensures |r| >= 2
  {
    SortedSetMembers(Strikes(st.legs));
    var strikes := SortedSet(Strikes(st.legs));
    assert Strikes(st.legs)[0] in strikes;
    var lowest, highest := strikes[0], strikes[|strikes| - 1];
    var width := Width(lowest, highest);
    [AtLeastOne(lowest as real - width)] + Reals(strikes) + [highest as real + width]
  }

  function FindBreakEvens(st: Structure, cost: Paise): Result<seq<Paise>, PaiseError>
    requires st.legs != []
  {
    var found := Found(st, cost, Bounds(st));
    if found.Failure? then found else Success(SortedSet(found.value))
  }

  /** The inner loop: sixty halvings at most, remembering the payoff at the lower end. */
  method BisectLoop(st: Structure, cost: Paise, low0: real, high0: real) returns (b: real)
    ensures b == Bisect(st, cost, low0, high0, 60)
  {
    hide Net, RoundHalfUp;
    var low, high := low0, high0;
    var fLow := NetAt(st, cost, low);
    var iteration := 0;
    while iteration < 60 && high - low > 1.0
      invariant 0 <= iteration <= 60 && fLow == Net(st, cost, low)
      invariant Bisect(st, cost, low0, high0, 60) == Bisect(st, cost, low, high, 60 - iteration)
    {
      var mid := RoundHalfUp((low + high) / 2.0) as real;
      var fMid := NetAt(st, cost, mid);
      if fLow * fMid <= 0 {
        high := mid;
      } else {
        low, fLow := mid, fMid;
      }
      iteration := iteration + 1;
    }
    b := high;
  }

  method NetAt(st: Structure, cost: Paise, settlement: real) returns (net: Paise)
    ensures net == Net(st, cost, settlement)
  {
    var payoff := Payoff(st, settlement);
    net := payoff - cost;
  }

  method ScanSegment(st: Structure, cost: Paise, low: real, high: real) returns (r: Result<seq<Paise>, PaiseError>)
    ensures r == Segment(st, cost, low, high)
  {
    hide Net, Bisect;
    var found: seq<Paise> := [];
    var fLow := NetAt(st, cost, low);
    var fHigh := NetAt(st, cost, high);
    if fLow == 0 {
      var zero := FromPaise(low);
      if zero.Failure? {
        return Failure(zero.error);
      }
      found := [zero.value];
    }
    if fLow * fHigh > 0 {
      return Success(found);
    }
    var b := BisectLoop(st, cost, low, high);
    var crossing := FromPaise(b);
    if crossing.Failure? {
      return Failure(crossing.error);
    }
    return Success(found + [crossing.value]);
  }

  method FindAll(st: Structure, cost: Paise) returns (r: Result<seq<Paise>, PaiseError>)
    requires st.legs != []
    ensures r == FindBreakEvens(st, cost)
  {
    hide Segment, Bounds;
    var bounds := Bounds(st);
    var found: seq<Paise> := [];
    for i := 1 to |bounds|
      invariant Found(st, cost, bounds[..i]) == Success(found)
    {
      assert bounds[..i + 1][..i] == bounds[..i];
      var segment := ScanSegment(st, cost, bounds[i - 1], bounds[i]);
      if segment.Failure? {
        FailuresStay(st, cost, bounds, i + 1);
        return Failure(segment.error);
      }
      found := found + segment.value;
    }
    assert bounds[..|bounds|] == bounds;
    return Success(SortedSet(found));
  }

  lemma {:induction false} FailuresStay(st: Structure, cost: Paise, bounds: seq<real>, n: nat)
    requires n <= |bounds| && Found(st, cost, bounds[..n]).Failure?
    ensures Found(st, cost, bounds) == Found(st, cost, bounds[..n])
  {
    hide Segment;
    if n == |bounds| {
      assert bounds[..n] == bounds;
    } else {
      assert bounds[..|bounds| - 1][..n] == bounds[..n];
      FailuresStay(st, cost, bounds[..|bounds| - 1], n);
    }
  }

  // ----- On the tick grid everything is whole -----

  const MAX_SAFE := 9_007_199_254_740_991

  predicate OnTick(st: Structure) {
    && st.legs != []
    && forall leg :: leg in st.legs ==> 0 < leg.strike <= MAX_SAFE && leg.strike % TICK_SIZE_PAISE == 0
  }

  /** The payoff at a whole settlement, in integers. */
  function Weight(leg: Leg, lotSize: nat): int {
    (if leg.side.BUY? then 1 else -1) * (leg.lots * lotSize)
  }

  function WholeIntrinsic(leg: Leg, s: int): nat {
    Max(0, if leg.right.CE? then s - leg.strike else leg.strike - s)
  }

  function WholePayoff(legs: seq<Leg>, s: int, lotSize: nat): int {
    if legs == [] then 0
    else WholePayoff(legs[..|legs| - 1], s, lotSize) + Weight(legs[|legs| - 1], lotSize) * WholeIntrinsic(legs[|legs| - 1], s)
  }

  lemma RealProduct(a: int, b: int)
    ensures (a * b) as real == a as real * b as real
  {
  }

  lemma LegOnGrid(leg: Leg, s: int, lotSize: nat)
    ensures LegPayoff(leg, s as real, lotSize) == (Weight(leg, lotSize) * WholeIntrinsic(leg, s)) as real
  {
    var d: int := if leg.side.BUY? then 1 else -1;
    var i, n, z := WholeIntrinsic(leg, s), leg.lots, lotSize;
    assert Intrinsic(leg, s as real) == i as real;
    RealProduct(n, z);
    RealProduct(d, n * z);
    RealProduct(d * (n * z), i);
    Reorder(d as real, i as real, n as real, z as real);
  }

  lemma Reorder(d: real, i: real, n: real, z: real)
    ensures d * i * n * z == d * (n * z) * i
  {
  }

  lemma {:induction false} PayoffOnGrid(legs: seq<Leg>, s: int, lotSize: nat)
    ensures PayoffSum(legs, s as real, lotSize) == WholePayoff(legs, s, lotSize) as real
  {
    hide LegPayoff, Weight, WholeIntrinsic;
    if legs != [] {
      PayoffOnGrid(legs[..|legs| - 1], s, lotSize);
      LegOnGrid(legs[|legs| - 1], s, lotSize);
    }
  }

  /** The net result at a whole settlement. */
  function NetOn(st: Structure, cost: Paise, s: int): int {
    Net(st, cost, s as real)
  }

  lemma NetOnGrid(st: Structure, cost: Paise, s: int)
    ensures NetOn(st, cost, s) == WholePayoff(st.legs, s, st.lotSize) - cost
  {
    hide PayoffSum, WholePayoff;
    PayoffOnGrid(st.legs, s, st.lotSize);
  }

  // ----- Between neighbouring strikes the payoff is a line -----

  predicate NoStrikeInside(legs: seq<Leg>, low: int, high: int) {
    forall leg :: leg in legs ==> leg.strike <= low || leg.strike >= high
  }

  function LegSlope(leg: Leg, low: int, high: int): int {
    if leg.right.CE? then (if leg.strike <= low then 1 else 0) else (if leg.strike >= high then -1 else 0)
  }

  function Slope(legs: seq<Leg>, low: int, high: int, lotSize: nat): int {
    if legs == [] then 0
    else Slope(legs[..|legs| - 1], low, high, lotSize) + Weight(legs[|legs| - 1], lotSize) * LegSlope(legs[|legs| - 1], low, high)
  }

  lemma LegIsALine(w: int, leg: Leg, low: int, high: int, s: int)
    requires low <= s <= high && low < high && (leg.strike <= low || leg.strike >= high)
    ensures w * WholeIntrinsic(leg, s) == w * WholeIntrinsic(leg, low) + w * LegSlope(leg, low, high) * (s - low)
  {
    assert WholeIntrinsic(leg, s) == WholeIntrinsic(leg, low) + LegSlope(leg, low, high) * (s - low);
    Expand(w, WholeIntrinsic(leg, low), LegSlope(leg, low, high), s - low);
  }

  lemma Expand(w: int, a: int, m: int, d: int)
    ensures w * (a + m * d) == w * a + w * m * d
  {
  }

  lemma {:induction false} PayoffIsALine(legs: seq<Leg>, low: int, high: int, s: int, lotSize: nat)
    requires low <= s <= high && low < high && NoStrikeInside(legs, low, high)
    ensures WholePayoff(legs, s, lotSize) == WholePayoff(legs, low, lotSize) + Slope(legs, low, high, lotSize) * (s - low)
  {
    hide Weight, WholeIntrinsic, LegSlope;
    if legs != [] {
      var before, last := legs[..|legs| - 1], legs[|legs| - 1];
      assert legs == before + [last];
      PayoffIsALine(before, low, high, s, lotSize);
      LegIsALine(Weight(last, lotSize), last, low, high, s);
      SumOfSlopes(Slope(before, low, high, lotSize), Weight(last, lotSize) * LegSlope(last, low, high), s - low);
    }
  }

  lemma SumOfSlopes(a: int, b: int, d: int)
    ensures (a + b) * d == a * d + b * d
  {
  }

  lemma NetIsALine(st: Structure, cost: Paise, low: int, high: int, s: int)
    requires low <= s <= high && low < high && NoStrikeInside(st.legs, low, high)
    ensures NetOn(st, cost, s) == NetOn(st, cost, low) + Slope(st.legs, low, high, st.lotSize) * (s - low)
  {
    hide NetOn, WholePayoff, Slope;
    NetOnGrid(st, cost, s);
    NetOnGrid(st, cost, low);
    PayoffIsALine(st.legs, low, high, s, st.lotSize);
  }

  // ----- The bisection on whole numbers -----

  function BisectWhole(st: Structure, cost: Paise, low: int, high: int, n: nat): int
    decreases n
  {
    if n == 0 || high - low <= 1 then high
    else
      var mid := (low + high + 1) / 2;
      if NetOn(st, cost, low) * NetOn(st, cost, mid) <= 0 then BisectWhole(st, cost, low, mid, n - 1)
      else BisectWhole(st, cost, mid, high, n - 1)
  }

  lemma MidpointIsWhole(low: int, high: int)
    ensures RoundHalfUp((low as real + high as real) / 2.0) == (low + high + 1) / 2
  {
    var m := (low + high + 1) / 2;
    var x := (low as real + high as real) / 2.0 + 0.5;
    assert m as real <= x < m as real + 1.0;
  }

  lemma {:induction false} BisectStaysWhole(st: Structure, cost: Paise, low: int, high: int, n: nat)
    ensures Bisect(st, cost, low as real, high as real, n) == BisectWhole(st, cost, low, high, n) as real
    decreases n
  {
    hide Net, RoundHalfUp;
    if n > 0 && high - low > 1 {
      MidpointIsWhole(low, high);
      var mid := (low + high + 1) / 2;
      BisectStaysWhole(st, cost, low, mid, n - 1);
      BisectStaysWhole(st, cost, mid, high, n - 1);
    }
  }

  lemma ProductSign(a: int, b: int)
    ensures a * b > 0 <==> (a > 0 && b > 0) || (a < 0 && b < 0)
    ensures a * b == 0 <==> a == 0 || b == 0
  {
  }

  lemma SignsMeet(a: int, b: int, c: int)
    requires a * c <= 0 && a * b > 0
    ensures b * c <= 0 && b != 0
  {
    ProductSign(a, b);
    ProductSign(a, c);
    ProductSign(b, c);
  }

  /** The bisection ends on a neighbouring pair around a sign change, within its allowance. */
  lemma {:induction false} BisectionConverges(st: Structure, cost: Paise, low: int, high: int, n: nat)
    requires low < high && high - low <= Pow2(n)
    requires NetOn(st, cost, low) * NetOn(st, cost, high) <= 0
    ensures var b := BisectWhole(st, cost, low, high, n);
      && low < b <= high
      && NetOn(st, cost, b - 1) * NetOn(st, cost, b) <= 0
      && (NetOn(st, cost, low) != 0 ==> NetOn(st, cost, b - 1) != 0)
      && (NetOn(st, cost, low) == 0 ==> b == low + 1)
    decreases n
  {
    hide NetOn;
    if high - low > 1 {
      var mid := (low + high + 1) / 2;
      var fLow, fMid, fHigh := NetOn(st, cost, low), NetOn(st, cost, mid), NetOn(st, cost, high);
      if fLow * fMid <= 0 {
        BisectionConverges(st, cost, low, mid, n - 1);
      } else {
        SignsMeet(fLow, fMid, fHigh);
        BisectionConverges(st, cost, mid, high, n - 1);
      }
    }
  }

  // ----- Exactly what is reported -----

  /** From a non-zero result, one paisa further reaches or passes zero. */
  predicate Crosses(before: int, after: int) {
    before != 0 && before * after <= 0
  }

  lemma CrossesBySign(before: int, after: int)
    ensures Crosses(before, after) <==> (before > 0 && after <= 0) || (before < 0 && after >= 0)
  {
    ProductSign(before, after);
  }

  lemma SlopeSign(m: int, d: nat)
    ensures m > 0 ==> m * d >= 0
    ensures m < 0 ==> m * d <= 0
  {
  }

  /** A line `a + m * t` that crosses zero at `t` starts non-zero, and ends on the other side. */
  lemma LineCrossesOnce(a: int, m: int, t: nat, d: nat)
    requires t < d && Crosses(a + m * t, a + m * (t + 1))
    ensures a != 0 && a * (a + m * d) <= 0
  {
    CrossesBySign(a + m * t, a + m * (t + 1));
    SlopeSign(m, t);
    SlopeSign(m, d - t - 1);
    assert a + m * (t + 1) == a + m * t + m;
    assert a + m * d == a + m * (t + 1) + m * (d - t - 1);
    ProductSign(a, a + m * d);
  }

  lemma NoSecondCrossing(a: int, m: int, t: nat, u: nat)
    requires t < u && Crosses(a + m * t, a + m * (t + 1))
    ensures !Crosses(a + m * u, a + m * (u + 1))
  {
    CrossesBySign(a + m * t, a + m * (t + 1));
    CrossesBySign(a + m * u, a + m * (u + 1));
    assert a + m * (t + 1) == a + m * t + m;
    assert a + m * (u + 1) == a + m * u + m;
    SlopeSign(m, u - t - 1);
    assert a + m * u == a + m * (t + 1) + m * (u - t - 1);
  }

  lemma LineCrossingIsUnique(a: int, m: int, t: nat, u: nat)
    requires Crosses(a + m * t, a + m * (t + 1)) && Crosses(a + m * u, a + m * (u + 1))
    ensures t == u
  {
    if t < u {
      NoSecondCrossing(a, m, t, u);
    } else if u < t {
      NoSecondCrossing(a, m, u, t);
    }
  }

  function SegmentWhole(st: Structure, cost: Paise, low: int, high: int): seq<int> {
    (if NetOn(st, cost, low) == 0 then [low] else [])
    + (if NetOn(st, cost, low) * NetOn(st, cost, high) > 0 then [] else [BisectWhole(st, cost, low, high, 60)])
  }

  lemma SegmentStaysWhole(st: Structure, cost: Paise, low: int, high: int)
    ensures Segment(st, cost, low as real, high as real) == Success(SegmentWhole(st, cost, low, high))
  {
    hide Net, Bisect, BisectWhole;
    BisectStaysWhole(st, cost, low, high, 60);
    WholeIsWhole(low);
    WholeIsWhole(BisectWhole(st, cost, low, high, 60));
    var zeros := if NetOn(st, cost, low) == 0 then [low] else [];
    assert zeros + [] == zeros;
  }

  lemma WholeIsWhole(x: int)
    ensures FromPaise(x as real) == Success(x)
  {
  }

  /** What one segment contributes: a zero at its lower end and the paisa after it, or its crossing. */
  predicate SegmentReports(st: Structure, cost: Paise, low: int, high: int, b: int) {
    || (NetOn(st, cost, low) == 0 && (b == low || b == low + 1))
    || (low < b <= high && Crosses(NetOn(st, cost, b - 1), NetOn(st, cost, b)))
  }

  lemma CrossingOnSegment(st: Structure, cost: Paise, low: int, high: int, b: int)
    requires low < b <= high && NoStrikeInside(st.legs, low, high)
    requires Crosses(NetOn(st, cost, b - 1), NetOn(st, cost, b))
    ensures NetOn(st, cost, low) != 0 && NetOn(st, cost, low) * NetOn(st, cost, high) <= 0
    ensures forall c :: low < c <= high && Crosses(NetOn(st, cost, c - 1), NetOn(st, cost, c)) ==> c == b
  {
    hide NetOn, Slope, Crosses;
    var a, m := NetOn(st, cost, low), Slope(st.legs, low, high, st.lotSize);
    NetIsALine(st, cost, low, high, b - 1);
    NetIsALine(st, cost, low, high, b);
    NetIsALine(st, cost, low, high, high);
    LineCrossesOnce(a, m, b - 1 - low, high - low);
    forall c | low < c <= high && Crosses(NetOn(st, cost, c - 1), NetOn(st, cost, c))
      ensures c == b
    {
      NetIsALine(st, cost, low, high, c - 1);
      NetIsALine(st, cost, low, high, c);
      LineCrossingIsUnique(a, m, b - 1 - low, c - 1 - low);
    }
  }

  lemma SegmentExactly(st: Structure, cost: Paise, low: int, high: int, b: int)
    requires low < high && high - low <= Pow2(60) && NoStrikeInside(st.legs, low, high)
    ensures b in SegmentWhole(st, cost, low, high) <==> SegmentReports(st, cost, low, high, b)
  {
    hide NetOn, Pow2, BisectWhole, NoStrikeInside;
    var fLow, fHigh := NetOn(st, cost, low), NetOn(st, cost, high);
    if fLow * fHigh <= 0 {
      BisectionConverges(st, cost, low, high, 60);
      var x := BisectWhole(st, cost, low, high, 60);
      if fLow != 0 {
        CrossingOnSegment(st, cost, low, high, x);
      }
    }
    if low < b <= high && Crosses(NetOn(st, cost, b - 1), NetOn(st, cost, b)) {
      CrossingOnSegment(st, cost, low, high, b);
    }
  }

  function FoundWhole(st: Structure, cost: Paise, bounds: seq<int>): seq<int> {
    if |bounds| < 2 then []
    else
      var n := |bounds|;
      FoundWhole(st, cost, bounds[..n - 1]) + SegmentWhole(st, cost, bounds[n - 2], bounds[n - 1])
  }

  lemma {:induction false} FoundStaysWhole(st: Structure, cost: Paise, bounds: seq<int>)
    ensures Found(st, cost, Reals(bounds)) == Success(FoundWhole(st, cost, bounds))
  {
    hide Segment, SegmentWhole;
    if |bounds| >= 2 {
      var n := |bounds|;
      assert Reals(bounds)[..n - 1] == Reals(bounds[..n - 1]);
      FoundStaysWhole(st, cost, bounds[..n - 1]);
      SegmentStaysWhole(st, cost, bounds[n - 2], bounds[n - 1]);
    }
  }

  predicate ZeroAt(st: Structure, cost: Paise, bounds: seq<int>, i: nat, b: int) {
    i < |bounds| && NetOn(st, cost, bounds[i]) == 0 && (b == bounds[i] || b == bounds[i] + 1)
  }

  /**
   * What a scan reports: a bound (not the last) that breaks even, together with the paisa after it,
   * and every price the net result crosses zero on the way to.
   */
  predicate Reported(st: Structure, cost: Paise, bounds: seq<int>, b: int) {
    || (exists i: nat :: i < |bounds| - 1 && ZeroAt(st, cost, bounds, i, b))
    || (|bounds| > 0 && bounds[0] < b <= bounds[|bounds| - 1] && Crosses(NetOn(st, cost, b - 1), NetOn(st, cost, b)))
  }

  predicate Scannable(st: Structure, bounds: seq<int>) {
    && Increasing(bounds)
    && (forall i :: 0 <= i < |bounds| - 1 ==> Adjacent(st, bounds[i], bounds[i + 1]))
  }

  /** Two bounds close enough for the bisection, with no kink of the payoff between them. */
  predicate Adjacent(st: Structure, low: int, high: int) {
    high - low <= Pow2(60) && NoStrikeInside(st.legs, low, high)
  }

  lemma {:induction false} FoundExactly(st: Structure, cost: Paise, bounds: seq<int>, b: int)
    requires Scannable(st, bounds)
    ensures b in FoundWhole(st, cost, bounds) <==> |bounds| >= 2 && Reported(st, cost, bounds, b)
  {
    hide NetOn, SegmentWhole, Adjacent, Crosses;
    if |bounds| >= 2 {
      var n := |bounds|;
      var before, low, high := bounds[..n - 1], bounds[n - 2], bounds[n - 1];
      assert forall i :: 0 <= i < n - 1 ==> before[i] == bounds[i];
      forall i | 0 <= i < |before| - 1
        ensures Adjacent(st, before[i], before[i + 1])
      {
        assert Adjacent(st, bounds[i], bounds[i + 1]);
      }
      assert Adjacent(st, bounds[n - 2], bounds[n - 2 + 1]);
      FoundExactly(st, cost, before, b);
      LastSegment(st, cost, low, high, b);
      ReportedSnoc(st, cost, bounds, b);
    }
  }

  lemma LastSegment(st: Structure, cost: Paise, low: int, high: int, b: int)
    requires low < high && Adjacent(st, low, high)
    ensures b in SegmentWhole(st, cost, low, high) <==> SegmentReports(st, cost, low, high, b)
  {
    SegmentExactly(st, cost, low, high, b);
  }

  lemma ReportedSnoc(st: Structure, cost: Paise, bounds: seq<int>, b: int)
    requires |bounds| >= 2 && Increasing(bounds)
    ensures var n := |bounds|;
      Reported(st, cost, bounds, b) <==>
        || (n > 2 && Reported(st, cost, bounds[..n - 1], b))
        || SegmentReports(st, cost, bounds[n - 2], bounds[n - 1], b)
  {
    hide NetOn, Crosses;
    var n := |bounds|;
    var before := bounds[..n - 1];
    assert forall i :: 0 <= i < n - 1 ==> before[i] == bounds[i];
    if exists i: nat :: i < n - 1 && ZeroAt(st, cost, bounds, i, b) {
      var i: nat :| i < n - 1 && ZeroAt(st, cost, bounds, i, b);
      if i < n - 2 {
        assert ZeroAt(st, cost, before, i, b);
      }
    }
    if exists i: nat :: i < n - 2 && ZeroAt(st, cost, before, i, b) {
      var i: nat :| i < n - 2 && ZeroAt(st, cost, before, i, b);
      assert ZeroAt(st, cost, bounds, i, b);
    }
    if NetOn(st, cost, bounds[n - 2]) == 0 && (b == bounds[n - 2] || b == bounds[n - 2] + 1) {
      assert ZeroAt(st, cost, bounds, n - 2, b);
    }
  }

  // ----- The bounds of a structure on the tick grid -----

  function WholeWidth(lowest: int, highest: int): int {
    Max(1, Max(highest - lowest, lowest / 5))
  }

  function WholeBounds(st: Structure): (r: seq<int>)
    requires st.legs != []
    ensures |r| >= 2
  {
    SortedSetMembers(Strikes(st.legs));
    var strikes := SortedSet(Strikes(st.legs));
    assert Strikes(st.legs)[0] in strikes;
    var lowest, highest := strikes[0], strikes[|strikes| - 1];
    var width := WholeWidth(lowest, highest);
    [Max(1, lowest - width)] + strikes + [highest + width]
  }

  lemma StrikesOnTick(st: Structure)
    requires OnTick(st)
    ensures var strikes := SortedSet(Strikes(st.legs));
      && strikes != [] && Increasing(strikes)
      && (forall k :: k in strikes ==> 0 < k <= MAX_SAFE && k % 5 == 0)
      && (forall leg :: leg in st.legs ==> leg.strike in strikes)
  {
    var strikes := SortedSet(Strikes(st.legs));
    SortedSetMembers(Strikes(st.legs));
    assert Strikes(st.legs)[0] in strikes;
    forall k | k in strikes
      ensures 0 < k <= MAX_SAFE && k % 5 == 0
    {
      var i :| 0 <= i < |st.legs| && Strikes(st.legs)[i] == k;
      assert st.legs[i] in st.legs;
    }
    forall leg | leg in st.legs
      ensures leg.strike in strikes
    {
      var i :| 0 <= i < |st.legs| && st.legs[i] == leg;
      assert Strikes(st.legs)[i] == leg.strike;
    }
  }

  lemma WidthIsWhole(lowest: int, highest: int)
    requires lowest % 5 == 0
    ensures Width(lowest, highest) == WholeWidth(lowest, highest) as real
  {
    assert lowest as real * 0.2 == (lowest / 5) as real;
  }

  lemma BoundsAreWhole(st: Structure)
    requires OnTick(st)
    ensures Bounds(st) == Reals(WholeBounds(st))
  {
    hide Width, WholeWidth, SortedSet;
    StrikesOnTick(st);
    var strikes := SortedSet(Strikes(st.legs));
    var lowest, highest := strikes[0], strikes[|strikes| - 1];
    assert lowest in strikes;
    WidthIsWhole(lowest, highest);
    var width := WholeWidth(lowest, highest);
    EndsAreWhole(lowest, highest, width, strikes);
  }

  lemma EndsAreWhole(lowest: int, highest: int, width: int, strikes: seq<int>)
    ensures [AtLeastOne(lowest as real - width as real)] + Reals(strikes) + [highest as real + width as real]
            == Reals([Max(1, lowest - width)] + strikes + [highest + width])
  {
    var whole := [Max(1, lowest - width)] + strikes + [highest + width];
    assert AtLeastOne(lowest as real - width as real) == Max(1, lowest - width) as real;
    assert forall i :: 0 <= i < |strikes| ==> whole[i + 1] == strikes[i];
  }

  lemma SafeIsSmall()
    ensures MAX_SAFE < Pow2(60)
  {
    DoubledTen(0);
    DoubledTen(10);
    DoubledTen(20);
    DoubledTen(30);
    DoubledTen(40);
    DoubledTen(50);
  }

  lemma DoubledTen(n: nat)
    ensures Pow2(n + 10) == 1024 * Pow2(n)
  {
    assert Pow2(n + 2) == 4 * Pow2(n);
    assert Pow2(n + 4) == 4 * Pow2(n + 2);
    assert Pow2(n + 6) == 4 * Pow2(n + 4);
    assert Pow2(n + 8) == 4 * Pow2(n + 6);
    assert Pow2(n + 10) == 4 * Pow2(n + 8);
  }

  lemma BoundsAreScannable(st: Structure)
    requires OnTick(st)
    ensures Scannable(st, WholeBounds(st))
  {
    hide Pow2, SortedSet, WholeBounds, WholeWidth, Increasing, NoStrikeInside;
    var bounds := WholeBounds(st);
    BoundsAreSpread(st);
    SafeIsSmall();
    forall i | 0 <= i < |bounds| - 1
      ensures Adjacent(st, bounds[i], bounds[i + 1])
    {
      NoKinkBetween(st, i);
      assert Gap(bounds, i) <= MAX_SAFE;
    }
  }

  function Gap(bounds: seq<int>, i: nat): int
    requires i + 1 < |bounds|
  {
    bounds[i + 1] - bounds[i]
  }

  /** Bounds increase, by no more than a safe integer at a time. */
  lemma BoundsAreSpread(st: Structure)
    requires OnTick(st)
    ensures Increasing(WholeBounds(st))
    ensures forall i :: 0 <= i < |WholeBounds(st)| - 1 ==> Gap(WholeBounds(st), i) <= MAX_SAFE
  {
    hide SortedSet, WholeWidth, Increasing, Gap;
    StrikesOnTick(st);
    var strikes := SortedSet(Strikes(st.legs));
    var n := |strikes|;
    FirstAndLast(strikes);
    EndsAreOutside(strikes[0], strikes[n - 1]);
    var width := WholeWidth(strikes[0], strikes[n - 1]);
    var first, last := Max(1, strikes[0] - width), strikes[n - 1] + width;
    assert WholeBounds(st) == [first] + strikes + [last];
    SpreadOf(strikes, first, last);
    forall i | 0 <= i < n + 1
      ensures Gap([first] + strikes + [last], i) <= MAX_SAFE
    {
      GapOf(strikes, first, last, i);
    }
  }

  lemma FirstAndLast(strikes: seq<int>)
    requires strikes != [] && Increasing(strikes)
    ensures strikes[0] in strikes && strikes[|strikes| - 1] in strikes && strikes[0] <= strikes[|strikes| - 1]
  {
  }

  lemma SpreadOf(strikes: seq<int>, first: int, last: int)
    requires strikes != [] && Increasing(strikes)
    requires first < strikes[0] && strikes[|strikes| - 1] < last
    ensures Increasing([first] + strikes + [last])
  {
    var r := [first] + strikes + [last];
    forall i, j | 0 <= i < j < |r|
      ensures r[i] < r[j]
    {
      if 0 < i && j < |r| - 1 {
        assert r[i] == strikes[i - 1] && r[j] == strikes[j - 1];
      } else if 0 < i {
        assert r[i] == strikes[i - 1];
      } else if j < |r| - 1 {
        assert r[j] == strikes[j - 1];
      }
    }
  }

  lemma GapOf(strikes: seq<int>, first: int, last: int, i: nat)
    requires strikes != [] && i <= |strikes|
    requires forall k :: k in strikes ==> 0 < k <= MAX_SAFE
    requires 1 <= first && last <= strikes[|strikes| - 1] + MAX_SAFE
    ensures Gap([first] + strikes + [last], i) <= MAX_SAFE
  {
    var r := [first] + strikes + [last];
    if i < |strikes| {
      assert r[i + 1] == strikes[i] && strikes[i] in strikes;
      if i > 0 {
        assert r[i] == strikes[i - 1] && strikes[i - 1] in strikes;
      }
    } else {
      assert r[i] == strikes[i - 1] && r[i + 1] == last;
    }
  }

  lemma NoKinkBetween(st: Structure, i: nat)
    requires OnTick(st) && i + 1 < |WholeBounds(st)|
    ensures NoStrikeInside(st.legs, WholeBounds(st)[i], WholeBounds(st)[i + 1])
  {
    hide SortedSet, WholeWidth;
    StrikesOnTick(st);
    BoundsAreSpread(st);
    var strikes, bounds := SortedSet(Strikes(st.legs)), WholeBounds(st);
    forall leg | leg in st.legs
      ensures leg.strike <= bounds[i] || leg.strike >= bounds[i + 1]
    {
      var k :| 0 <= k < |strikes| && strikes[k] == leg.strike;
      assert bounds[k + 1] == leg.strike;
    }
  }

  lemma EndsAreOutside(lowest: int, highest: int)
    requires 0 < lowest <= highest <= MAX_SAFE && lowest % 5 == 0
    ensures var width := WholeWidth(lowest, highest);
      && 1 <= width <= MAX_SAFE && 1 <= Max(1, lowest - width) < lowest
  {
  }

  /**
   * On the tick grid the search always succeeds and reports exactly the prices `Reported` names,
   * whatever the structure and its cost.
   */
  lemma BreakEvensAreExact(st: Structure, cost: Paise, b: int)
    requires OnTick(st)
    ensures FindBreakEvens(st, cost).Success?
    ensures b in FindBreakEvens(st, cost).value <==> Reported(st, cost, WholeBounds(st), b)
    ensures Increasing(FindBreakEvens(st, cost).value)
  {
    hide Found, FoundWhole, Bounds, WholeBounds, Reported, Scannable, SortedSet;
    BoundsAreWhole(st);
    BoundsAreScannable(st);
    FoundStaysWhole(st, cost, WholeBounds(st));
    FoundExactly(st, cost, WholeBounds(st), b);
    SortedSetMembers(FoundWhole(st, cost, WholeBounds(st)));
  }

  /** Every reported price has a result of opposite sign, or none, one paisa below. */
  lemma ReportedPricesBreakEven(st: Structure, cost: Paise, b: int)
    requires OnTick(st) && FindBreakEvens(st, cost).Success? && b in FindBreakEvens(st, cost).value
    ensures NetOn(st, cost, b - 1) * NetOn(st, cost, b) <= 0
  {
    hide FindBreakEvens, WholeBounds, NetOn;
    BreakEvensAreExact(st, cost, b);
    ProductSign(NetOn(st, cost, b - 1), NetOn(st, cost, b));
  }

  /** Every strict change of sign between the outermost bounds is reported. */
  lemma SignChangesAreReported(st: Structure, cost: Paise, b: int)
    requires OnTick(st)
    requires WholeBounds(st)[0] < b <= WholeBounds(st)[|WholeBounds(st)| - 1]
    requires NetOn(st, cost, b - 1) * NetOn(st, cost, b) < 0
    ensures FindBreakEvens(st, cost).Success? && b in FindBreakEvens(st, cost).value
  {
    hide FindBreakEvens, WholeBounds, NetOn;
    BreakEvensAreExact(st, cost, b);
    ProductSign(NetOn(st, cost, b - 1), NetOn(st, cost, b));
  }

  // ----- Off the tick grid -----

  /** Any positive strikes, on the tick grid or not. */
  predicate Priced(st: Structure) {
    st.legs != [] && forall leg :: leg in st.legs ==> 0 < leg.strike <= MAX_SAFE
  }

  predicate Fractional(x: real) {
    x != x.Floor as real
  }

  /** The lowest bound breaks even and is not a whole number of paise. */
  predicate LowerEndFails(st: Structure, cost: Paise, first: real) {
    Fractional(first) && Net(st, cost, first) == 0
  }

  /**
   * The result changes sign between the highest strike and the last bound, but not on the way to the
   * last whole price: no midpoint takes the place of a bound that is not whole.
   */
  predicate UpperEndFails(st: Structure, cost: Paise, highest: int, last: real) {
    && Fractional(last)
    && NetOn(st, cost, highest) * Net(st, cost, last) <= 0
    && NetOn(st, cost, highest) * NetOn(st, cost, last.Floor) > 0
  }

  /** A bisection that starts from a whole upper end stays with whole upper ends. */
  lemma {:induction false} WholeUpperStaysWhole(st: Structure, cost: Paise, low: real, high: int, n: nat)
    ensures !Fractional(Bisect(st, cost, low, high as real, n))
    decreases n
  {
    hide Net, RoundHalfUp;
    if n > 0 && high as real - low > 1.0 {
      var mid := RoundHalfUp((low + high as real) / 2.0);
      WholeUpperStaysWhole(st, cost, low, mid, n - 1);
      WholeUpperStaysWhole(st, cost, mid as real, high, n - 1);
    }
  }

  lemma MidpointBelow(low: int, high: real, mid: int)
    requires high - low as real > 1.0 && mid == RoundHalfUp((low as real + high) / 2.0)
    ensures low < mid && mid as real < high
    ensures low < mid <= high.Floor && 2 * (high.Floor - mid) <= high.Floor - low
  {
    assert 2.0 * mid as real > low as real + high - 1.0;
    assert 2.0 * mid as real <= low as real + high + 1.0;
    assert high.Floor as real <= high < high.Floor as real + 1.0;
  }

  /** With one sign on every whole price below it, a fractional upper end is never replaced. */
  lemma {:induction false} UpperIsKept(st: Structure, cost: Paise, low: int, high: real, n: nat)
    requires low as real < high
    requires forall c :: low <= c <= high.Floor ==> NetOn(st, cost, low) * NetOn(st, cost, c) > 0
    ensures Bisect(st, cost, low as real, high, n) == high
    decreases n
  {
    hide Net, RoundHalfUp;
    if n > 0 && high - low as real > 1.0 {
      var mid := RoundHalfUp((low as real + high) / 2.0);
      MidpointBelow(low, high, mid);
      forall c | mid <= c <= high.Floor
        ensures NetOn(st, cost, mid) * NetOn(st, cost, c) > 0
      {
        SameSigns(NetOn(st, cost, low), NetOn(st, cost, mid), NetOn(st, cost, c));
      }
      UpperIsKept(st, cost, mid, high, n - 1);
    }
  }

  lemma SameSigns(a: int, b: int, c: int)
    requires a * b > 0 && a * c > 0
    ensures b * c > 0
  {
    ProductSign(a, b);
    ProductSign(a, c);
    ProductSign(b, c);
  }

  /** A change of sign before the last whole price replaces the upper end by a whole one. */
  lemma {:induction false} UpperIsReplaced(st: Structure, cost: Paise, low: int, high: real, n: nat)
    requires high - low as real > 1.0 && high.Floor - low < Pow2(n) && Fractional(high)
    requires NetOn(st, cost, low) * NetOn(st, cost, high.Floor) <= 0
    ensures !Fractional(Bisect(st, cost, low as real, high, n))
    decreases n
  {
    hide Net, RoundHalfUp;
    var mid := RoundHalfUp((low as real + high) / 2.0);
    MidpointBelow(low, high, mid);
    var fLow, fMid, fLast := NetOn(st, cost, low), NetOn(st, cost, mid), NetOn(st, cost, high.Floor);
    if fLow * fMid <= 0 {
      WholeUpperStaysWhole(st, cost, low as real, mid, n - 1);
    } else {
      SignsMeet(fLow, fMid, fLast);
      LastWholePrice(mid, high);
      if mid == high.Floor {
        ProductSign(fMid, fLast);
      }
      UpperIsReplaced(st, cost, mid, high, n - 1);
    }
  }

  lemma LastWholePrice(mid: int, high: real)
    requires mid <= high.Floor && Fractional(high)
    ensures high - mid as real > 1.0 <==> mid < high.Floor
  {
    assert high.Floor as real < high < high.Floor as real + 1.0;
  }

  lemma LineKeepsSign(a: int, m: int, t: nat, d: nat)
    requires t <= d && a * (a + m * d) > 0
    ensures a * (a + m * t) > 0
  {
    ProductSign(a, a + m * d);
    ProductSign(a, a + m * t);
    SlopeSign(m, t);
    SlopeSign(m, d - t);
    assert a + m * d == a + m * t + m * (d - t);
  }

  /** Above the highest strike the payoff is a line, so one sign at both ends is one sign throughout. */
  lemma OneSignAbove(st: Structure, cost: Paise, highest: int, last: int)
    requires highest < last && forall leg :: leg in st.legs ==> leg.strike <= highest
    requires NetOn(st, cost, highest) * NetOn(st, cost, last) > 0
    ensures forall c :: highest <= c <= last ==> NetOn(st, cost, highest) * NetOn(st, cost, c) > 0
  {
    hide NetOn, Slope;
    var a, m := NetOn(st, cost, highest), Slope(st.legs, highest, last, st.lotSize);
    NetIsALine(st, cost, highest, last, last);
    forall c | highest <= c <= last
      ensures a * NetOn(st, cost, c) > 0
    {
      NetIsALine(st, cost, highest, last, c);
      LineKeepsSign(a, m, c - highest, last - highest);
    }
  }

  lemma FirstSegmentFails(st: Structure, cost: Paise, first: real, lowest: int)
    ensures Segment(st, cost, first, lowest as real).Failure? <==> LowerEndFails(st, cost, first)
  {
    hide Net, Bisect;
    WholeUpperStaysWhole(st, cost, first, lowest, 60);
  }

  lemma LastSegmentFails(st: Structure, cost: Paise, highest: int, last: real)
    requires forall leg :: leg in st.legs ==> leg.strike <= highest
    requires highest as real < last && last - highest as real <= MAX_SAFE as real
    requires Fractional(last) ==> last - highest as real > 1.0
    ensures Segment(st, cost, highest as real, last).Failure? <==> UpperEndFails(st, cost, highest, last)
  {
    hide Net, Bisect;
    WholeIsWhole(highest);
    var b := Bisect(st, cost, highest as real, last, 60);
    if !Fractional(last) {
      WholeUpperStaysWhole(st, cost, highest as real, last.Floor, 60);
    } else {
      LastWholePrice(highest, last);
      SafeIsSmall();
      if NetOn(st, cost, highest) * NetOn(st, cost, last.Floor) > 0 {
        OneSignAbove(st, cost, highest, last.Floor);
        UpperIsKept(st, cost, highest, last, 60);
      } else {
        UpperIsReplaced(st, cost, highest, last, 60);
      }
    }
  }

  /** A scan fails exactly when one of its segments does. */
  lemma {:induction false} ScanFails(st: Structure, cost: Paise, bounds: seq<real>)
    ensures Found(st, cost, bounds).Failure? <==>
            exists i :: 0 <= i < |bounds| - 1 && Segment(st, cost, bounds[i], bounds[i + 1]).Failure?
  {
    hide Segment;
    if |bounds| >= 2 {
      var n := |bounds|;
      var before := bounds[..n - 1];
      ScanFails(st, cost, before);
      if i :| 0 <= i < n - 1 && Segment(st, cost, bounds[i], bounds[i + 1]).Failure? {
        if i < n - 2 {
          assert Segment(st, cost, before[i], before[i + 1]).Failure?;
        }
      }
    }
  }

  /** The search's outermost bounds: only these can be fractional. */
  function FirstBound(st: Structure): real
    requires st.legs != []
  {
    Bounds(st)[0]
  }

  function LastBound(st: Structure): real
    requires st.legs != []
  {
    Bounds(st)[|Bounds(st)| - 1]
  }

  function HighestStrike(st: Structure): int
    requires st.legs != []
  {
    SortedSetMembers(Strikes(st.legs));
    assert Strikes(st.legs)[0] in SortedSet(Strikes(st.legs));
    SortedSet(Strikes(st.legs))[|SortedSet(Strikes(st.legs))| - 1]
  }

  lemma PricedStrikes(st: Structure)
    requires Priced(st)
    ensures var strikes := SortedSet(Strikes(st.legs));
      && strikes != [] && Increasing(strikes)
      && (forall k :: k in strikes ==> 0 < k <= MAX_SAFE)
      && (forall leg :: leg in st.legs ==> leg.strike in strikes)
  {
    var strikes := SortedSet(Strikes(st.legs));
    SortedSetMembers(Strikes(st.legs));
    assert Strikes(st.legs)[0] in strikes;
    forall k | k in strikes
      ensures 0 < k <= MAX_SAFE
    {
      var i :| 0 <= i < |st.legs| && Strikes(st.legs)[i] == k;
      assert st.legs[i] in st.legs;
    }
    forall leg | leg in st.legs
      ensures leg.strike in strikes
    {
      var i :| 0 <= i < |st.legs| && st.legs[i] == leg;
      assert Strikes(st.legs)[i] == leg.strike;
    }
  }

  lemma WidthFits(lowest: int, highest: int)
    requires 0 < lowest <= highest <= MAX_SAFE
    ensures 1.0 <= Width(lowest, highest) <= MAX_SAFE as real
    ensures Fractional(highest as real + Width(lowest, highest)) ==> Width(lowest, highest) > 1.0
  {
    if Width(lowest, highest) == 1.0 {
      assert highest as real + 1.0 == (highest + 1) as real;
    }
  }

  lemma ListEnds(first: real, strikes: seq<int>, last: real)
    requires strikes != []
    ensures var bounds := [first] + Reals(strikes) + [last];
      && |bounds| == |strikes| + 2 && bounds[0] == first && bounds[|bounds| - 1] == last
      && (forall i :: 0 <= i < |strikes| ==> bounds[i + 1] == strikes[i] as real)
  {
  }

  lemma BoundsAreListed(st: Structure)
    requires st.legs != []
    ensures var strikes := SortedSet(Strikes(st.legs));
      && strikes != [] && HighestStrike(st) == strikes[|strikes| - 1]
      && var width := Width(strikes[0], strikes[|strikes| - 1]);
         Bounds(st) == [AtLeastOne(strikes[0] as real - width)] + Reals(strikes) + [HighestStrike(st) as real + width]
  {
    hide Width;
    SortedSetMembers(Strikes(st.legs));
    assert Strikes(st.legs)[0] in SortedSet(Strikes(st.legs));
  }

  lemma StrikesInBounds(st: Structure)
    requires st.legs != []
    ensures var strikes, bounds := SortedSet(Strikes(st.legs)), Bounds(st);
      && |bounds| == |strikes| + 2 && strikes != [] && HighestStrike(st) == strikes[|strikes| - 1]
      && (forall i :: 0 <= i < |strikes| ==> bounds[i + 1] == strikes[i] as real)
  {
    hide SortedSet, Width, Bounds, HighestStrike, AtLeastOne, Reals;
    BoundsAreListed(st);
    var strikes := SortedSet(Strikes(st.legs));
    var width := Width(strikes[0], strikes[|strikes| - 1]);
    ListEnds(AtLeastOne(strikes[0] as real - width), strikes, HighestStrike(st) as real + width);
  }

  lemma NothingAboveHighest(st: Structure)
    requires Priced(st)
    ensures forall leg :: leg in st.legs ==> leg.strike <= HighestStrike(st)
  {
    hide SortedSet, Increasing, HighestStrike, Bounds;
    PricedStrikes(st);
    BoundsAreListed(st);
    forall leg | leg in st.legs
      ensures leg.strike <= HighestStrike(st)
    {
      UpToLast(SortedSet(Strikes(st.legs)), leg.strike);
    }
  }

  lemma LastBoundFits(st: Structure)
    requires Priced(st)
    ensures var highest, last := HighestStrike(st), LastBound(st);
      && highest as real < last && last - highest as real <= MAX_SAFE as real
      && (Fractional(last) ==> last - highest as real > 1.0)
  {
    hide SortedSet, Width, Increasing, Fractional, HighestStrike, Bounds, AtLeastOne, Reals;
    PricedStrikes(st);
    var strikes := SortedSet(Strikes(st.legs));
    FirstAndLast(strikes);
    WidthFits(strikes[0], strikes[|strikes| - 1]);
    hide Priced;
    BoundsAreListed(st);
  }

  lemma UpToLast(strikes: seq<int>, k: int)
    requires Increasing(strikes) && k in strikes
    ensures k <= strikes[|strikes| - 1]
  {
  }

  /**
   * The search fails exactly when one of its outermost bounds does: the lowest is a break-even that
   * is not whole, or the result changes sign between the last whole price and a last bound that is
   * not. Everything else it meets is whole.
   */
  lemma SearchFailsExactly(st: Structure, cost: Paise)
    requires Priced(st)
    ensures FindBreakEvens(st, cost).Failure? <==>
            LowerEndFails(st, cost, FirstBound(st)) || UpperEndFails(st, cost, HighestStrike(st), LastBound(st))
  {
    hide Found, Segment, Bounds, LowerEndFails, UpperEndFails, SortedSet, HighestStrike, Fractional;
    StrikesInBounds(st);
    NothingAboveHighest(st);
    LastBoundFits(st);
    var strikes, bounds := SortedSet(Strikes(st.legs)), Bounds(st);
    var n := |strikes|;
    ScanFails(st, cost, bounds);
    assert bounds[0 + 1] == strikes[0] as real && bounds[n - 1 + 1] == strikes[n - 1] as real;
    FirstSegmentFails(st, cost, bounds[0], strikes[0]);
    LastSegmentFails(st, cost, HighestStrike(st), bounds[n + 1]);
    forall i | 0 < i < n
      ensures Segment(st, cost, bounds[i], bounds[i + 1]).Success?
    {
      assert bounds[i - 1 + 1] == strikes[i - 1] as real;
      SegmentStaysWhole(st, cost, strikes[i - 1], strikes[i]);
    }
    assert Segment(st, cost, bounds[0], bounds[0 + 1]).Failure? <==> LowerEndFails(st, cost, FirstBound(st));
    assert Segment(st, cost, bounds[n], bounds[n + 1]).Failure? <==> UpperEndFails(st, cost, HighestStrike(st), LastBound(st));
  }

  /** On the tick grid both bounds are whole, so the search never fails. */
  lemma OnTickNeverFails(st: Structure, cost: Paise)
    requires OnTick(st)
    ensures FindBreakEvens(st, cost).Success?
  {
    hide FindBreakEvens, Bounds, WholeBounds;
    BoundsAreWhole(st);
    var whole := WholeBounds(st);
    assert Bounds(st)[0] == whole[0] as real && Bounds(st)[|whole| - 1] == whole[|whole| - 1] as real;
    SearchFailsExactly(st, cost);
  }

  /** A straddle at seven paise costing one: the lowest bound, 5.6 paise, breaks even. */
  lemma OffTickLowerEndFails(expiry: Timestamp)
    ensures FindBreakEvens(LongStraddle(Params("", 1, 1, expiry), 7), 1) == Failure(NotWhole)
  {
    hide FindBreakEvens;
    var st := LongStraddle(Params("", 1, 1, expiry), 7);
    OffTickBounds(st, 1, expiry);
    OffTickNet(st, 1, 1, 5.6, expiry);
    assert LowerEndFails(st, 1, FirstBound(st));
    SearchFailsExactly(st, 1);
    OnlyOneError(st, 1);
  }

  /** Ten of them costing twelve: the result crosses zero between eight paise and the last bound, 8.4. */
  lemma OffTickUpperEndFails(expiry: Timestamp)
    ensures FindBreakEvens(LongStraddle(Params("", 10, 1, expiry), 7), 12) == Failure(NotWhole)
  {
    hide FindBreakEvens;
    var st := LongStraddle(Params("", 10, 1, expiry), 7);
    OffTickBounds(st, 10, expiry);
    OffTickNet(st, 10, 12, 7.0, expiry);
    OffTickNet(st, 10, 12, 8.0, expiry);
    OffTickNet(st, 10, 12, 8.4, expiry);
    assert UpperEndFails(st, 12, HighestStrike(st), LastBound(st));
    SearchFailsExactly(st, 12);
    OnlyOneError(st, 12);
  }

  lemma OnlyOneError(st: Structure, cost: Paise)
    requires st.legs != [] && FindBreakEvens(st, cost).Failure?
    ensures FindBreakEvens(st, cost) == Failure(NotWhole)
  {
    hide FindBreakEvens;
    assert FindBreakEvens(st, cost).error.NotWhole?;
  }

  lemma OffTickBounds(st: Structure, lotSize: nat, expiry: Timestamp)
    requires st == LongStraddle(Params("", lotSize, 1, expiry), 7)
    ensures Bounds(st) == [5.6, 7.0, 8.4] && HighestStrike(st) == 7 && Priced(st)
  {
    assert Strikes(st.legs) == [7, 7];
    assert [7, 7][..1] == [7];
    assert [7][..0] == [];
    assert SortedSet([7]) == [7];
    assert SortedSet([7, 7]) == [7];
    assert Reals([7]) == [7.0];
    assert Width(7, 7) == 1.4;
  }

  lemma OffTickNet(st: Structure, lotSize: nat, cost: Paise, settlement: real, expiry: Timestamp)
    requires st == LongStraddle(Params("", lotSize, 1, expiry), 7)
    ensures Net(st, cost, settlement) ==
            RoundHalfUp((if settlement > 7.0 then settlement - 7.0 else 7.0 - settlement) * lotSize as real) - cost
  {
    var a, b := st.legs[0], st.legs[1];
    OneLot(a, settlement, lotSize);
    OneLot(b, settlement, lotSize);
    hide LegPayoff;
    assert st.legs[..1] == [a];
    assert [a][..0] == [];
    assert PayoffSum([a], settlement, lotSize) == LegPayoff(a, settlement, lotSize);
    assert PayoffSum(st.legs, settlement, lotSize) == LegPayoff(a, settlement, lotSize) + LegPayoff(b, settlement, lotSize);
  }

  lemma OneLot(leg: Leg, settlement: real, lotSize: nat)
    requires leg.lots == 1 && leg.side.BUY?
    ensures LegPayoff(leg, settlement, lotSize) == Intrinsic(leg, settlement) * lotSize as real
  {
  }
}
