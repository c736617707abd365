// How many orders a backtest sent in the last minute: as many as were executed in it.
module BacktestRates {
  import opened Money
  import opened Domain
  import opened Portfolios
  import opened Backtests
  import opened BacktestRuns
  import opened BacktestExecutions
  import opened BacktestCurves
  import Averages
  import Ledgers
  import Oms
  import Pipelines
  import Risk
  import Sizing
  import PB = PaperBrokers

  /** When executions happened. */
  function Times(fills: seq<Fill>): (t: seq<Timestamp>)
    ensures |t| == |fills|
  {
    seq(|fills|, i requires 0 <= i < |fills| => fills[i].timestamp)
  }

  /** The submissions remembered are, at any later moment, the executions of its last minute. */
  ghost predicate Remembers(submissions: seq<Timestamp>, times: seq<Timestamp>, t: Timestamp) {
    forall now :: now >= t ==> Oms.Recent(submissions, now) == Oms.Recent(times, now)
  }

  lemma {:induction false} RecentJoins(a: seq<Timestamp>, b: seq<Timestamp>, now: Timestamp)
    ensures Oms.Recent(a + b, now) == Oms.Recent(a, now) + Oms.Recent(b, now)
  {
    if b == [] {
      assert a + b == a;
    } else {
      assert (a + b)[..|a + b| - 1] == a + b[..|b| - 1];
      RecentJoins(a, b[..|b| - 1], now);
    }
  }

  lemma RemembersMore(submissions: seq<Timestamp>, times: seq<Timestamp>, more: seq<Timestamp>, t: Timestamp, u: Timestamp)
    requires Remembers(submissions, times, t) && t <= u
    ensures Remembers(submissions + more, times + more, u)
  {
    hide Oms.Recent;
    forall now | now >= u
      ensures Oms.Recent(submissions + more, now) == Oms.Recent(times + more, now)
    {
      RecentJoins(submissions, more, now);
      RecentJoins(times, more, now);
    }
  }

  lemma ForgettingRemembers(submissions: seq<Timestamp>, times: seq<Timestamp>, t: Timestamp)
    requires Remembers(submissions, times, t)
    ensures Remembers(Oms.Recent(submissions, t), times, t)
  {
    hide Oms.Recent;
    forall now | now >= t
      ensures Oms.Recent(Oms.Recent(submissions, t), now) == Oms.Recent(times, now)
    {
      Oms.ForgettingIsUnseen(submissions, t, now);
    }
  }

  // ----- What a bar notes -----

  lemma {:induction false} DeliveryNotesNothing(oms: Oms.State, fills: seq<Fill>)
    requires oms.Valid() && Averages.PositiveFills(fills)
    ensures Ledgers.Deliver(oms, fills).submissions == oms.submissions
  {
    hide Oms.Filled, Oms.State.Valid;
    if fills != [] {
      DeliveryNotesNothing(oms, fills[..|fills| - 1]);
      FillNotesNothing(Ledgers.Deliver(oms, fills[..|fills| - 1]), fills[|fills| - 1]);
    }
  }

  lemma FillNotesNothing(s: Oms.State, fill: Fill)
    requires s.Valid() && fill.quantity > 0
    ensures Oms.Filled(s, fill).0.submissions == s.submissions
  {
    hide Oms.Seen, Oms.AfterFill, Oms.FindByBrokerId;
  }

  lemma PublishNotesNothing(cfg: Config, bt: Bt, symbol: Symbol, price: nat)
    requires cfg.Valid() && bt.Valid()
    ensures Publish(cfg, bt, symbol, price).desk.oms.submissions == bt.desk.oms.submissions
  {
    hide Oms.State.Valid, Ledgers.Deliver, Ledgers.BookAll, PB.WorkQueue;
    DeliveryNotesNothing(bt.desk.oms, Ledgers.Produced(cfg.broker, bt.desk.broker, PB.Quote(symbol, price, None)));
  }

  /** A new market order is noted when it is sent. */
  lemma SentIsNoted(cfg: Config, bt: Bt, opening: Paise, request: OrderRequest, now: Timestamp)
    requires cfg.Valid() && bt.Valid() && Quiet(bt.desk, opening)
    requires IsMarket(request) && request.idempotencyKey !in bt.desk.oms.registry
    ensures Send(cfg, bt, request, now).desk.oms.submissions == bt.desk.oms.submissions + [now]
  {
    hide Ledgers.Balanced, Oms.Submitted, Oms.State.Valid, PB.Acceptable, PB.Accept, IsMarket;
    AcceptedAlone(bt.desk, opening, request);
    Oms.AcceptedIsNoted(bt.desk.oms, bt.desk.broker, request, cfg.maxRetries, now);
  }

  lemma OpenNotes(cfg: Config, bt: Bt, opening: Paise, symbol: Symbol, c: Candle, t: Timestamp)
    requires cfg.Valid() && Quotable(c) && Between(cfg, bt, opening, symbol, t)
    ensures bt.Valid()
    ensures OpenBar(cfg, bt, symbol, c).desk.oms.submissions ==
            bt.desk.oms.submissions + if Opens(cfg, bt) then [c.timestamp] else []
  {
    hide Ledgers.Balanced, Oms.State.Valid, StopKeysUpTo, AllOpenOrFlatten, WholeLots, Publish, Send, LotFloor, Quiet;
    QuietPublishChangesNothing(cfg, bt, opening, symbol, c.open);
    if bt.pending.Some? {
      var p := bt.pending.value;
      var quantity := LotFloor(p.quantity, cfg.lotSize);
      if quantity > 0 {
        var request := PendingOrder(cfg, p);
        SendShape(cfg, bt, request, c.timestamp);
        PublishNotesNothing(cfg, Send(cfg, bt, request, c.timestamp), symbol, c.open);
        if request.idempotencyKey in bt.desk.oms.registry {
          DuplicateChangesNothing(cfg, bt, request, c.timestamp);
        } else {
          SentIsNoted(cfg, bt, opening, request, c.timestamp);
        }
      }
    }
  }

  lemma TouchNotesNothing(cfg: Config, bt: Bt, symbol: Symbol, price: nat)
    requires cfg.Valid() && bt.Valid()
    ensures Touch(cfg, bt, symbol, price).desk.oms.submissions == bt.desk.oms.submissions
  {
    hide Publish, Bt.Valid;
    PublishNotesNothing(cfg, bt, symbol, price);
  }

  lemma EnforceNotes(cfg: Config, bt: Bt, opening: Paise, symbol: Symbol, price: nat, now: Timestamp, t: Timestamp)
    requires cfg.Valid() && Inside(cfg, bt, opening, symbol) && t < now
    requires StopKeysUpTo(bt.desk.oms.registry.Keys, if bt.openRisk.Some? then t else now)
    ensures EnforceStop(cfg, bt, symbol, price, now).desk.oms.submissions ==
            bt.desk.oms.submissions + if Reaches(bt.Held(symbol), bt.openRisk, price) then [now] else []
  {
    hide Ledgers.Balanced, Oms.State.Valid, StopKeysUpTo, AllOpenOrFlatten, WholeLots, Publish, Send, Quiet;
    var held := bt.Held(symbol);
    if Reaches(held, bt.openRisk, price) {
      var request := StopOrder(symbol, held, now);
      StopOrderIsNew(bt.desk.oms.registry.Keys, t, now, request);
      SentIsNoted(cfg, bt, opening, request, now);
      PublishNotesNothing(cfg, Send(cfg, bt, request, now), symbol, price);
    }
  }

  lemma ExtremeNotes(cfg: Config, bt: Bt, opening: Paise, symbol: Symbol, price: nat, now: Timestamp, t: Timestamp)
    requires cfg.Valid() && Inside(cfg, bt, opening, symbol) && t < now
    requires StopKeysUpTo(bt.desk.oms.registry.Keys, if bt.openRisk.Some? then t else now)
    ensures bt.Valid()
    ensures Extreme(cfg, bt, symbol, price, now).desk.oms.submissions ==
            bt.desk.oms.submissions + if Reaches(bt.Held(symbol), bt.openRisk, price) then [now] else []
  {
    hide Inside, StopKeysUpTo, Touch, EnforceStop, Reaches, Bt.Valid;
    InsideIsValid(cfg, bt, opening, symbol);
    TouchStage(cfg, bt, opening, symbol, price);
    TouchNotesNothing(cfg, bt, symbol, price);
    InsideIsValid(cfg, Touch(cfg, bt, symbol, price), opening, symbol);
    EnforceNotes(cfg, Touch(cfg, bt, symbol, price), opening, symbol, price, now, t);
  }

  lemma ExtremesNote(cfg: Config, bt: Bt, opening: Paise, symbol: Symbol, c: Candle, t: Timestamp)
    requires cfg.Valid() && Quotable(c) && Inside(cfg, bt, opening, symbol) && t < c.timestamp
    requires StopKeysUpTo(bt.desk.oms.registry.Keys, t)
    ensures bt.Valid()
    ensures Extremes(cfg, bt, symbol, c).desk.oms.submissions ==
            bt.desk.oms.submissions + if Stops(bt.Held(symbol), bt.openRisk, c) then [c.timestamp] else []
  {
    hide Inside, StopKeysUpTo, Extreme, Bt.Valid;
    InsideIsValid(cfg, bt, opening, symbol);
    StopKeysLater(bt.desk.oms.registry.Keys, t, c.timestamp);
    var held, now := bt.Held(symbol), c.timestamp;
    var p, q := Adverse(held, c), Favourable(held, c);
    var first := Extreme(cfg, bt, symbol, p, now);
    ExtremeStage(cfg, bt, opening, symbol, p, now, t);
    ExtremeNotes(cfg, bt, opening, symbol, p, now, t);
    InsideIsValid(cfg, first, opening, symbol);
    ExtremeNotes(cfg, first, opening, symbol, q, now, t);
    UnreachedIsUntouched(cfg, bt, opening, symbol, p, now, t);
  }

  lemma BeginNotesNothing(bt: Bt, now: Timestamp)
    requires bt.Valid()
    ensures BeginBar(bt, now).desk.oms == bt.desk.oms
  {
    hide Equity;
  }

  /** A walk notes one submission for every execution, at the bar's own time. */
  lemma WalkNotes(cfg: Config, bt: Bt, opening: Paise, symbol: Symbol, c: Candle, t: Timestamp)
    requires cfg.Valid() && Quotable(c) && Between(cfg, bt, opening, symbol, t) && t < c.timestamp
    ensures bt.Valid()
    ensures WalkBar(cfg, bt, symbol, c).desk.oms.submissions ==
            bt.desk.oms.submissions + (if Opens(cfg, bt) then [c.timestamp] else [])
            + if Stops(HeldAtOpen(cfg, bt, symbol), StopAhead(bt), c) then [c.timestamp] else []
  {
    hide Inside, StopKeysUpTo, BeginBar, OpenBar, Extremes, Touch, Bt.Valid, PendingFits, Opens, HeldAtOpen, StopAhead,
        Stops, Equity, RecordTrades, TrailedStop;
    InsideIsValid(cfg, bt, opening, symbol);
    var begun := BeginBar(bt, c.timestamp);
    BeginStage(cfg, bt, opening, symbol, t, c.timestamp);
    InsideIsValid(cfg, begun, opening, symbol);
    BeginExecutes(cfg, bt, c.timestamp, symbol);
    var quoted := OpenBar(cfg, begun, symbol, c);
    OpenStage(cfg, begun, opening, symbol, c, t);
    OpenNotes(cfg, begun, opening, symbol, c, t);
    OpenHolds(cfg, begun, opening, symbol, c, t);
    InsideIsValid(cfg, quoted, opening, symbol);
    ExtremesStage(cfg, quoted, opening, symbol, c, t);
    ExtremesNote(cfg, quoted, opening, symbol, c, t);
    TouchNotesNothing(cfg, Extremes(cfg, quoted, symbol, c), symbol, c.close);
  }

  /** The executions of a bar, by number and by time. */
  lemma WalkTimes(cfg: Config, before: Bt, after: Bt, symbol: Symbol, c: Candle)
    requires cfg.Valid() && BarExecutes(cfg, before, after, symbol, c)
    ensures Times(after.desk.broker.fills) ==
            Times(before.desk.broker.fills) + (if Opens(cfg, before) then [c.timestamp] else [])
            + if Stops(HeldAtOpen(cfg, before, symbol), StopAhead(before), c) then [c.timestamp] else []
  {
    hide PB.Slipped, LotFloor, HeldAtOpen, StopAhead, Adds, Stops, StopPrice;
    var b :| Opened(cfg, before, c, b) && Stopped(cfg, before, symbol, c, b, after.desk.broker);
    var held, ahead := HeldAtOpen(cfg, before, symbol), StopAhead(before);
    if Opens(cfg, before) {
      AddsOne(cfg.broker.slippage, before.desk.broker.(clock := c.timestamp), b, true, PendingOrder(cfg,
          before.pending.value), c.open);
    }
    AddsOne(cfg.broker.slippage, b, after.desk.broker, Stops(held, ahead, c), StopOrder(symbol, held, c.timestamp),
        StopPrice(held, ahead, c));
  }

  lemma DecideRemembers(cfg: Config, bt: Bt, symbol: Symbol, advice: Advice, now: Timestamp, times: seq<Timestamp>)
    requires bt.Valid() && Remembers(bt.desk.oms.submissions, times, now)
    ensures var r := Decide(cfg, bt, symbol, advice, now); r.Success? ==> Remembers(r.value.desk.oms.submissions, times, now)
  {
    hide PlanOrder, Bt.Valid, Oms.Recent, Remembers;
    ForgettingRemembers(bt.desk.oms.submissions, times, now);
  }

  lemma NothingSentYet(cfg: Config, t: Timestamp)
    requires cfg.Valid()
    ensures Remembers(Start(cfg).desk.oms.submissions, Times(Start(cfg).desk.broker.fills), t)
  {
  }

  lemma BarRemembers(cfg: Config, bt: Bt, opening: Paise, symbol: Symbol, c: Candle, last: bool,
        advise: Option<Position> -> Advice, t: Timestamp)
    requires cfg.Valid() && Quotable(c) && Between(cfg, bt, opening, symbol, t) && t < c.timestamp
    requires Remembers(bt.desk.oms.submissions, Times(bt.desk.broker.fills), t)
    ensures bt.Valid()
    ensures var r := Bar(cfg, bt, symbol, c, last, advise);
      r.Success? ==> Remembers(r.value.desk.oms.submissions, Times(r.value.desk.broker.fills), c.timestamp)
  {
    hide Inside, StopKeysUpTo, WalkBar, Decide, Bt.Valid, PendingFits, Opens, HeldAtOpen, StopAhead, Stops,
        BarExecutes, Remembers, Times;
    WalkExecutes(cfg, bt, opening, symbol, c, t);
    WalkNotes(cfg, bt, opening, symbol, c, t);
    var walked := WalkBar(cfg, bt, symbol, c);
    WalkTimes(cfg, bt, walked, symbol, c);
    var atOpen := if Opens(cfg, bt) then [c.timestamp] else [];
    var stopped := if Stops(HeldAtOpen(cfg, bt, symbol), StopAhead(bt), c) then [c.timestamp] else [];
    RemembersMore(bt.desk.oms.submissions, Times(bt.desk.broker.fills), atOpen, t, c.timestamp);
    RemembersMore(bt.desk.oms.submissions + atOpen, Times(bt.desk.broker.fills) + atOpen, stopped, c.timestamp, c.timestamp);
    if !last {
      var advice := advise(PositionOf(walked.desk.book, symbol));
      DecideKeepsRecord(cfg, walked, symbol, advice, c.timestamp);
      DecideRemembers(cfg, walked, symbol, advice, c.timestamp, Times(walked.desk.broker.fills));
    }
  }

  /** After any bar of any run the orders counted for the last minute are those executed in it. */
  lemma {:induction false} OrdersAreExecutions<P(!new)>(cfg: Config, strategy: Strategy<P>, gate: Gate,
        candles: seq<Candle>, n: nat)
    requires cfg.Valid() && candles != [] && AllQuotable(candles) && n <= |candles|
    requires Increasing(candles) && WellNamed(strategy)
    ensures var r := Run(cfg, strategy, gate, candles, n);
      r.Success? ==>
        Remembers(r.value.desk.oms.submissions, Times(r.value.desk.broker.fills),
                  if n == 0 then candles[0].timestamp - 1 else candles[n - 1].timestamp)
  {
    hide Between, Bar, Bt.Valid, Remembers;
    var symbol := candles[0].symbol;
    if n == 0 {
      NothingSentYet(cfg, candles[0].timestamp - 1);
    } else {
      OrdersAreExecutions(cfg, strategy, gate, candles, n - 1);
      EveryBarIsGuarded(cfg, strategy, gate, candles, n - 1);
      var before := Run(cfg, strategy, gate, candles, n - 1);
      if before.Success? {
        BarRemembers(cfg, before.value, cfg.openingCash, symbol, candles[n - 1], n == |candles|,
                     Advisor(strategy, gate, candles, symbol, n - 1),
                     if n == 1 then candles[0].timestamp - 1 else candles[n - 2].timestamp);
      }
    }
  }

  lemma SameLastMinute(submissions: seq<Timestamp>, times: seq<Timestamp>, t: Timestamp)
    requires Remembers(submissions, times, t)
    ensures Risk.LastMinute(submissions, t) == Risk.LastMinute(times, t)
  {
    hide Oms.Recent, Risk.LastMinute;
    Pipelines.LastMinuteIsRecent(submissions, t);
    Pipelines.LastMinuteIsRecent(times, t);
  }
}
