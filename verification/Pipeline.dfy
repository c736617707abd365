// The live workflow: a bar is observed, limits are checked, a signal is sized, judged, and staged or sent.
module Pipelines {
  import opened Money
  import opened Domain
  import opened Portfolios
  import opened Risk
  import opened RiskEngines
  import Sizing
  import Oms

  datatype Mode = MANUAL | APPROVAL | AUTOMATIC

  datatype PendingApproval = PendingApproval(request: OrderRequest, signal: Signal, stagedAt: Timestamp)

  datatype Config = Config(limits: Limits, lotSizes: map<Symbol, int>)

  /** Everything a step reads or writes: the pipeline's own fields and what it shares. */
  datatype Pipe = Pipe(
    mode: Mode,
    approvals: seq<PendingApproval>,
    startOfDay: Paise,
    peak: Paise,
    day: Option<int>,
    streak: Streak,
    engagedAt: Option<Timestamp>,
    book: Book,
    submissions: seq<Timestamp>)

  /** What the collaborators answer while one bar is judged. */
  datatype Answers = Answers(signal: Option<Signal>, allowed: bool, marketOpen: bool, dataIsStale: bool)

  datatype Outcome =
    | NoSignal
    | ModelVetoed
    | SizedToZero
    | SizingFailed(error: Sizing.SizingError)
    | RiskRejected(reasons: seq<Code>)
    | AwaitingApproval(request: OrderRequest)
    | Handed(request: OrderRequest)

  /** The civil day in India, as a number. */
  function IstDay(now: Timestamp): int {
    (now + 19_800_000) / 86_400_000
  }

  // ----- Staged approvals: a dictionary by key, in the order keys were first staged -----

  function KeyOf(a: PendingApproval): Key {
    a.request.idempotencyKey
  }

  function Find(approvals: seq<PendingApproval>, key: Key): (i: nat)
    ensures i <= |approvals|
    ensures i < |approvals| ==> KeyOf(approvals[i]) == key
    ensures forall k :: 0 <= k < i ==> KeyOf(approvals[k]) != key
  {
    if approvals == [] || KeyOf(approvals[0]) == key then 0 else 1 + Find(approvals[1..], key)
  }

  function Put(approvals: seq<PendingApproval>, a: PendingApproval): seq<PendingApproval> {
    var i := Find(approvals, KeyOf(a));
    if i < |approvals| then approvals[i := a] else approvals + [a]
  }

  function Drop(approvals: seq<PendingApproval>, key: Key): seq<PendingApproval> {
    var i := Find(approvals, key);
    if i < |approvals| then approvals[..i] + approvals[i + 1..] else approvals
  }

  predicate DistinctKeys(approvals: seq<PendingApproval>) {
    forall i, j :: 0 <= i < j < |approvals| ==> KeyOf(approvals[i]) != KeyOf(approvals[j])
  }

  function PutAll(approvals: seq<PendingApproval>): seq<PendingApproval> {
    if approvals == [] then [] else Put(PutAll(approvals[..|approvals| - 1]), approvals[|approvals| - 1])
  }

  // ----- Observing -----

  /** Looking at the account forgets an elapsed cooling-off period and submissions over a minute old. */
  function Looked(cfg: Config, p: Pipe, now: Timestamp): Pipe {
    p.(streak := Cooled(cfg.limits.consecutiveLossCooldownMs, p.streak, now),
       submissions := Oms.Recent(p.submissions, now))
  }

  /** The orders that count toward the rate are those still remembered. */
  lemma {:induction false} LastMinuteIsRecent(s: seq<Timestamp>, now: Timestamp)
    ensures LastMinute(s, now) == multiset(Oms.Recent(s, now))
  {
    if s != [] {
      LastMinuteIsRecent(s[..|s| - 1], now);
    }
  }

  function AccountOf(p: Pipe): Account
    requires p.book.Valid()
  {
    var equity := Equity(p.book);
    Account(equity, p.book.cash, p.startOfDay, p.peak, OpenPositions(p.book.symbols, p.book.positions),
            equity - p.startOfDay, p.streak.losses, p.submissions, map[], map[])
  }

  function RolledDay(p: Pipe, now: Timestamp): Pipe
    requires p.book.Valid()
  {
    if p.day == Some(IstDay(now)) then p else p.(day := Some(IstDay(now)), startOfDay := Equity(p.book))
  }

  function Seen(p: Pipe, symbol: Symbol, close: Paise): Pipe
    requires p.book.Valid()
  {
    MarkKeepsCost(p.book, symbol, close);
    var book := Mark(p.book, symbol, close);
    p.(book := book, peak := Max(p.peak, Equity(book)))
  }

  /** The account with the loss limits checked: a breach engages the switch at once. */
  function Halted(cfg: Config, p: Pipe, now: Timestamp): Pipe
    requires p.book.Valid()
  {
    if Breaches(cfg.limits, AccountOf(p)) != [] && p.engagedAt.None? then p.(engagedAt := Some(now)) else p
  }

  function Observed(cfg: Config, p: Pipe, symbol: Symbol, candle: Candle): (q: Pipe)
    requires p.book.Valid()
    ensures q.book == Mark(p.book, symbol, candle.close) && q.book.Valid()
    ensures q.mode == p.mode && q.approvals == p.approvals
    ensures q.peak == Max(p.peak, Equity(q.book))
    ensures p.engagedAt.Some? ==> q.engagedAt == p.engagedAt
    ensures q.engagedAt.Some? <==> p.engagedAt.Some? || Breaches(cfg.limits, AccountOf(q)) != []
  {
    hide Equity, Breaches, Mark, AccountOf, Oms.Recent;
    MarkKeepsCost(p.book, symbol, candle.close);
    var now := candle.timestamp;
    var seen := Looked(cfg, Seen(RolledDay(p, now), symbol, candle.close), now);
    Halted(cfg, seen, now)
  }

  // ----- Deciding -----

  function MarketOrder(strategyId: string, symbol: Symbol, side: Side, quantity: int, decisionBar: Timestamp): OrderRequest {
    OrderRequest(symbol, side, quantity, MARKET, MIS, DAY, None, None, strategyId,
                 TradeIntent(strategyId, symbol, side, quantity, decisionBar))
  }

  function SizingInput(cfg: Config, p: Pipe, signal: Signal, symbol: Symbol): Sizing.Input
    requires p.book.Valid() && signal.stopLoss.Some?
  {
    var conviction := if signal.strength > 0.25 then signal.strength else 0.25;
    Sizing.Input(Equity(p.book), signal.referencePrice, signal.stopLoss.value,
                 cfg.limits.riskPerTradeFraction * conviction, cfg.limits.maxPositionFraction,
                 p.book.cash, if symbol in cfg.lotSizes then cfg.lotSizes[symbol] else 1, 1.0)
  }

  /** The order a signal asks for, nothing when there is nothing to do, or a sizing failure. */
  function BuildRequest(cfg: Config, p: Pipe, signal: Signal, symbol: Symbol): Result<Option<OrderRequest>, Sizing.SizingError>
    requires p.book.Valid()
  {
    var held := p.book.Quantity(symbol);
    if signal.direction.FLAT? then
      if held == 0 then Success(None)
      else Success(Some(MarketOrder(signal.strategyId, symbol, if held > 0 then SELL else BUY, Abs(held), signal.timestamp)))
    else if held != 0 || signal.stopLoss.None? then Success(None)
    else
      var sizing := Sizing.SizePosition(SizingInput(cfg, p, signal, symbol));
      if sizing.Failure? then Failure(sizing.error)
      else if sizing.value.quantity <= 0 then Success(None)
      else
        Success(Some(MarketOrder(signal.strategyId, symbol, if signal.direction.LONG? then BUY else SELL,
                                 sizing.value.quantity, signal.timestamp)))
  }

  function Judged(cfg: Config, p: Pipe, request: OrderRequest, signal: Signal, now: Timestamp, marketOpen: bool, stale: bool): Decision
    requires p.book.Valid()
  {
    Evaluated(cfg.limits, p.engagedAt.Some?,
              Context(request, signal.referencePrice, signal.stopLoss, now, marketOpen, stale), AccountOf(p))
  }

  /** A signal on an observed account. */
  function Decided(cfg: Config, p: Pipe, symbol: Symbol, signal: Signal, now: Timestamp, marketOpen: bool, stale: bool): (Pipe, Outcome)
    requires p.book.Valid()
  {
    var plan := BuildRequest(cfg, p, signal, symbol);
    if plan.Failure? then (p, SizingFailed(plan.error))
    else if plan.value.None? then (p, SizedToZero)
    else
      var request := plan.value.value;
      var decision := Judged(cfg, p, request, signal, now, marketOpen, stale);
      if !decision.approved then (p, RiskRejected(decision.rejections))
      else
        var approved := MarketOrder(request.strategyId, symbol, request.side, decision.approvedQuantity, signal.timestamp);
        if p.mode.AUTOMATIC? then (p, Handed(approved))
        else (p.(approvals := Put(p.approvals, PendingApproval(approved, signal, now))), AwaitingApproval(approved))
  }

  function OnBar(cfg: Config, p: Pipe, symbol: Symbol, candles: seq<Candle>, answers: Answers): (r: (Pipe, Outcome))
    requires p.book.Valid()
  {
    if candles == [] then (p, NoSignal)
    else
      var candle := candles[|candles| - 1];
      var q := Observed(cfg, p, symbol, candle);
      if answers.signal.None? then (q, NoSignal)
      else if !answers.allowed then (q, ModelVetoed)
      else Decided(cfg, q, symbol, answers.signal.value, candle.timestamp, answers.marketOpen, answers.dataIsStale)
  }

  /** Approval judges the staged order again, then sends it exactly as it was staged. */
  function OnApprove(cfg: Config, p: Pipe, key: Key, now: Timestamp, marketOpen: bool, stale: bool): (r: (Pipe, Outcome))
    requires p.book.Valid()
  {
    var i := Find(p.approvals, key);
    if i == |p.approvals| then (p, NoSignal)
    else
      var staged := p.approvals[i];
      var q := Looked(cfg, p, now);
      var decision := Judged(cfg, q, staged.request, staged.signal, now, marketOpen, stale);
      var dropped := q.(approvals := Drop(q.approvals, key));
      if !decision.approved then (dropped, RiskRejected(decision.rejections)) else (dropped, Handed(staged.request))
  }

  // ----- Capture and restore -----

  datatype Saved = Saved(day: Option<int>, startOfDay: Paise, peak: Paise, streak: Streak, approvals: seq<PendingApproval>)

  function Captured(p: Pipe): Saved {
    Saved(p.day, p.startOfDay, p.peak, p.streak, p.approvals)
  }

  function Restored(p: Pipe, saved: Saved): Pipe
    requires p.book.Valid()
  {
    p.(day := saved.day, startOfDay := saved.startOfDay, peak := Max(saved.peak, Equity(p.book)),
       streak := RestoredStreak(saved.streak), approvals := PutAll(saved.approvals))
  }

  lemma {:induction false} PutAllDistinct(approvals: seq<PendingApproval>)
    requires DistinctKeys(approvals)
    ensures PutAll(approvals) == approvals
  {
    if approvals != [] {
      var before, last := approvals[..|approvals| - 1], approvals[|approvals| - 1];
      PutAllDistinct(before);
      forall k | 0 <= k < |before|
        ensures KeyOf(before[k]) != KeyOf(last)
      {
        assert before[k] == approvals[k];
      }
    }
  }

  lemma PutKeepsDistinct(approvals: seq<PendingApproval>, a: PendingApproval)
    requires DistinctKeys(approvals)
    ensures DistinctKeys(Put(approvals, a))
  {
  }

  lemma DropKeepsDistinct(approvals: seq<PendingApproval>, key: Key)
    requires DistinctKeys(approvals)
    ensures DistinctKeys(Drop(approvals, key))
    ensures forall a :: a in Drop(approvals, key) <==> a in approvals && KeyOf(a) != key
  {
    var i := Find(approvals, key);
    if i < |approvals| {
      var r := approvals[..i] + approvals[i + 1..];
      assert forall k :: 0 <= k < |r| ==> r[k] == approvals[if k < i then k else k + 1];
      forall a | a in approvals && KeyOf(a) != key
        ensures a in r
      {
        var k :| 0 <= k < |approvals| && approvals[k] == a;
        assert r[if k < i then k else k - 1] == a;
      }
    }
  }

  /** Restoring what was captured loses nothing; the peak can only rise to present equity. */
  lemma RestoreUndoesCapture(p: Pipe, q: Pipe)
    requires q.book.Valid() && DistinctKeys(p.approvals) && p.streak.losses >= 0
    ensures var r := Restored(q, Captured(p));
      && Captured(r) == Captured(p).(peak := r.peak)
      && r.peak == Max(p.peak, Equity(q.book))
  {
    PutAllDistinct(p.approvals);
  }
}
