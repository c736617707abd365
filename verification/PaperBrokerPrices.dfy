// At what price the simulated exchange executes: every execution of every run, and every order that must trade.
module PaperBrokerPrices {
  import opened Money
  import opened Domain
  import opened PaperBrokers
  import opened PaperBrokerRuns
  import Costs

  /** How many shares of an order a quote pays for. */
  function Due(cfg: Config, o: Order, quote: Quote): int {
    var remaining := o.request.quantity - o.filledQuantity;
    Min(remaining, Capacity(cfg, remaining, quote.volume))
  }

  predicate MustTrade(cfg: Config, o: Order, quote: Quote) {
    o.request.symbol == quote.symbol && Trades(o.request, quote.price) && Due(cfg, o, quote) > 0
  }

  /** An execution of an order by a quote: its own side and symbol, what is due, a fair price, the charges of its turnover. */
  predicate Executes(cfg: Config, clock: Timestamp, o: Order, quote: Quote, f: Fill) {
    && MustTrade(cfg, o, quote)
    && f.orderId == o.id && f.symbol == o.request.symbol && f.side == o.request.side && f.timestamp == clock
    && f.quantity == Due(cfg, o, quote)
    && FairPrice(cfg.slippage, o.request, quote.price, f.price)
    && f.quantity * f.price >= 0
    && f.commission == Costs.ComputeCosts(f.quantity * f.price, f.side, o.request.product, cfg.schedule).Total()
  }

  lemma WorkingExecutes(cfg: Config, clock: Timestamp, o: Order, quote: Quote)
    requires cfg.Valid()
    ensures var w := WorkOrder(cfg, clock, o, quote);
      (w.fill.Some? <==> MustTrade(cfg, o, quote)) && (w.fill.Some? ==> Executes(cfg, clock, o, quote, w.fill.value))
  {
    hide ResolveFillPrice, Capacity, Costs.ComputeCosts, FairPrice, Trades;
  }

  ghost predicate ComesFrom(cfg: Config, clock: Timestamp, orders: seq<Order>, quote: Quote, f: Fill) {
    exists i :: 0 <= i < |orders| && Executes(cfg, clock, orders[i], quote, f)
  }

  ghost predicate IsExecuted(cfg: Config, clock: Timestamp, o: Order, quote: Quote, fills: seq<Fill>) {
    exists k :: 0 <= k < |fills| && Executes(cfg, clock, o, quote, fills[k])
  }

  /** One pass over the resting orders executes exactly those that must trade, each as it must. */
  lemma {:induction false} PassExecutes(cfg: Config, clock: Timestamp, orders: seq<Order>, quote: Quote)
    requires cfg.Valid()
    ensures var fills := WorkQueue(cfg, clock, orders, quote).fills;
      && (forall f :: f in fills ==> ComesFrom(cfg, clock, orders, quote, f))
      && (forall i :: 0 <= i < |orders| && MustTrade(cfg, orders[i], quote) ==> IsExecuted(cfg, clock, orders[i], quote, fills))
  {
    hide WorkOrder, MustTrade, Executes;
    if orders != [] {
      var n := |orders| - 1;
      var before := WorkQueue(cfg, clock, orders[..n], quote);
      var w := WorkOrder(cfg, clock, orders[n], quote);
      PassExecutes(cfg, clock, orders[..n], quote);
      WorkingExecutes(cfg, clock, orders[n], quote);
      assert WorkQueue(cfg, clock, orders, quote) == Extend(before, w);
      var fills := Extend(before, w).fills;
      assert before.fills <= fills;
      forall f | f in fills
        ensures ComesFrom(cfg, clock, orders, quote, f)
      {
        if f in before.fills {
          assert ComesFrom(cfg, clock, orders[..n], quote, f);
          var i :| 0 <= i < n && Executes(cfg, clock, orders[..n][i], quote, f);
          assert orders[i] == orders[..n][i];
        }
      }
      forall i | 0 <= i < |orders| && MustTrade(cfg, orders[i], quote)
        ensures IsExecuted(cfg, clock, orders[i], quote, fills)
      {
        if i < n {
          assert orders[..n][i] == orders[i];
          var k :| 0 <= k < |before.fills| && Executes(cfg, clock, orders[i], quote, before.fills[k]);
          assert fills[k] == before.fills[k];
        } else {
          assert fills[|before.fills|] == w.fill.value;
        }
      }
    }
  }

  /** One call adds executions only at the end, and only a quote adds any. */
  lemma StepExecutes(cfg: Config, s: State, e: Event, f: Fill)
    requires cfg.Valid()
    ensures s.fills <= Step(cfg, s, e).fills
    ensures f in Step(cfg, s, e).fills ==> f in s.fills || (e.Quoted? && ComesFrom(cfg, s.clock, s.resting, e.quote, f))
  {
    hide WorkQueue, Archive, CashFlows, ComesFrom;
    if e.Quoted? {
      PassExecutes(cfg, s.clock, s.resting, e.quote);
    }
  }

  ghost predicate ExecutedAt(cfg: Config, opening: Paise, events: seq<Event>, i: nat, f: Fill)
    requires cfg.Valid() && i < |events|
  {
    var s := Run(cfg, opening, events[..i]);
    events[i].Quoted? && ComesFrom(cfg, s.clock, s.resting, events[i].quote, f)
  }

  /**
   * Every execution of every run comes from a quote and an order that rested when it was published:
   * at a fair price of that quote, for what was due, stamped with the clock, charged by its turnover.
   */
  lemma {:induction false} EveryExecutionIsFair(cfg: Config, opening: Paise, events: seq<Event>, f: Fill)
    requires cfg.Valid() && f in Run(cfg, opening, events).fills
    ensures exists i :: 0 <= i < |events| && ExecutedAt(cfg, opening, events, i, f)
  {
    hide Step, ComesFrom;
    if events == [] {
      NothingExecuted(cfg, opening, f);
    } else {
      var n := |events| - 1;
      var before := Run(cfg, opening, events[..n]);
      StepExecutes(cfg, before, events[n], f);
      if f in before.fills {
        EveryExecutionIsFair(cfg, opening, events[..n], f);
        var i :| 0 <= i < n && ExecutedAt(cfg, opening, events[..n], i, f);
        assert events[..n][..i] == events[..i];
        assert ExecutedAt(cfg, opening, events, i, f);
      } else {
        assert ExecutedAt(cfg, opening, events, n, f);
      }
    }
  }

  lemma NothingExecuted(cfg: Config, opening: Paise, f: Fill)
    requires cfg.Valid()
    ensures f !in Run(cfg, opening, []).fills
  {
  }

  /** And whatever rests at a quote that it must trade at is executed by it. */
  lemma EveryDueOrderTrades(cfg: Config, s: State, quote: Quote, o: Order)
    requires cfg.Valid() && o in s.resting && MustTrade(cfg, o, quote)
    ensures s.fills <= Publish(cfg, s, quote).fills
    ensures IsExecuted(cfg, s.clock, o, quote, Publish(cfg, s, quote).fills[|s.fills|..])
  {
    hide WorkQueue, Archive, CashFlows, IsExecuted;
    PassExecutes(cfg, s.clock, s.resting, quote);
    var fills := WorkQueue(cfg, s.clock, s.resting, quote).fills;
    assert (s.fills + fills)[|s.fills|..] == fills;
  }

  /** A market order at ten thousand with a slippage of five basis points pays, or gets, five paise less well. */
  lemma SlippageCosts(cfg: Config)
    requires cfg.Valid() && cfg.slippage == 0.0005
    ensures ApplySlippage(cfg, 10000, BUY) == 10005 && ApplySlippage(cfg, 10000, SELL) == 9995
  {
    hide MulRate;
    assert MulRate(10000, 0.0005) == 5;
  }

  // ----- What is worth accepting -----

  /** A stop-limit order whose limit lies short of its trigger. */
  predicate OutOfReach(request: OrderRequest) {
    && request.orderType.STOP_LIMIT? && request.limitPrice.Some? && request.triggerPrice.Some?
    && if request.side.BUY? then request.limitPrice.value < request.triggerPrice.value
       else request.limitPrice.value > request.triggerPrice.value
  }

  /** A price an order would trade at, wherever there is one. */
  function TradingPrice(request: OrderRequest): Paise {
    match request.orderType
    case MARKET => 0
    case LIMIT =>
      if request.limitPrice.None? then 0
      else if request.side.BUY? then request.limitPrice.value - 1 else request.limitPrice.value + 1
    case _ => if request.triggerPrice.None? then 0 else request.triggerPrice.value
  }

  /**
   * Of new orders for a positive quantity the exchange refuses only such as no price would ever
   * execute; of those it accepts, only a stop-limit order whose limit lies short of its trigger
   * never executes.
   */
  lemma AcceptanceIsAboutTrading(s: State, request: OrderRequest)
    requires request.quantity > 0 && request.idempotencyKey !in s.seenKeys
    ensures (exists price :: Trades(request, price)) <==> Acceptable(s, request) && !OutOfReach(request)
    ensures (exists price :: Trades(request, price)) ==> Trades(request, TradingPrice(request))
  {
    if Acceptable(s, request) && !OutOfReach(request) {
      assert Trades(request, TradingPrice(request));
    }
  }

  /** An order for nothing, or under a key it has seen, the exchange refuses for good, and changes nothing. */
  lemma RefusalChangesNothing(s: State, request: OrderRequest)
    ensures var (t, reply) := Accept(s, request);
      && (request.quantity <= 0 || request.idempotencyKey in s.seenKeys ==> !Acceptable(s, request))
      && (reply.Ack? <==> Acceptable(s, request))
      && (!reply.Ack? ==> t == s && reply == Refused(false))
      && (reply.Ack? ==>
            && t.fills == s.fills && t.cash == s.cash && t.completed == s.completed
            && |t.resting| == |s.resting| + 1 && t.resting[..|s.resting|] == s.resting
            && t.resting[|s.resting|].request == request && t.resting[|s.resting|].id == reply.brokerOrderId
            && t.resting[|s.resting|].filledQuantity == 0)
  {
  }
}
