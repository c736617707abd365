// Positions, cash and profit: the accounting every other component trusts.
module Portfolios {
  import opened Money
  import opened Domain

  /** A closing execution, with the profit it realised net of its own commission. */
  datatype ClosedTrade = ClosedTrade(
    symbol: Symbol,
    direction: Direction,
    quantity: int,
    entryPrice: Paise,
    exitPrice: Paise,
    pnl: Paise,
    closedAt: Timestamp)

  /** The value of a portfolio: `symbols` lists the positions in the order they were first traded. */
  datatype Book = Book(
    cash: Paise,
    commission: Paise,
    symbols: seq<Symbol>,
    positions: map<Symbol, Position>,
    trades: seq<ClosedTrade>)
  {
    ghost predicate Valid() {
      && Distinct(symbols)
      && (forall s :: s in symbols <==> s in positions)
      && (forall s :: s in positions ==> positions[s].symbol == s)
    }

    function Quantity(s: Symbol): int {
      if s in positions then positions[s].quantity else 0
    }
  }

  function Opening(cash: Paise): Book {
    Book(cash, 0, [], map[], [])
  }

  // ----- One fill -----

  predicate OpensOrAdds(quantity: int, signed: int) {
    quantity == 0 || Sign(quantity) == Sign(signed)
  }

  /** The position a fill leaves behind, and the trade it closes if it reduces the position. */
  function Settle(p: Position, fill: Fill): (Position, Option<ClosedTrade>) {
    var signed := Signed(fill.side, fill.quantity);
    var next := p.quantity + signed;
    if OpensOrAdds(p.quantity, signed) then
      var cost := p.quantity * p.averagePrice + signed * fill.price;
      (p.(quantity := next,
          averagePrice := if next == 0 then 0 else RoundDiv(cost, next),
          lastPrice := fill.price),
       None)
    else
      var closing := Min(Abs(signed), Abs(p.quantity));
      var perShare := if p.quantity > 0 then fill.price - p.averagePrice else p.averagePrice - fill.price;
      var pnl := perShare * closing - fill.commission;
      (p.(quantity := next,
          averagePrice := if next == 0 then 0
                          else if Sign(next) != Sign(p.quantity) then fill.price
                          else p.averagePrice,
          realisedPnl := p.realisedPnl + pnl,
          lastPrice := fill.price),
       Some(ClosedTrade(fill.symbol, if p.quantity > 0 then LONG else SHORT, closing,
                        p.averagePrice, fill.price, pnl, fill.timestamp)))
  }

  function PositionOrFlat(b: Book, fill: Fill): Position {
    if fill.symbol in b.positions then b.positions[fill.symbol]
    else Position(fill.symbol, 0, 0, 0, fill.price)
  }

  /** The book after a fill. A fill of no quantity is refused and changes nothing. */
  function Booked(b: Book, fill: Fill): Book {
    if fill.quantity <= 0 then b
    else
      var (p, closed) := Settle(PositionOrFlat(b, fill), fill);
      Book(b.cash + CashFlow(fill),
           b.commission + fill.commission,
           if fill.symbol in b.positions then b.symbols else b.symbols + [fill.symbol],
           b.positions[fill.symbol := p],
           if closed.Some? then b.trades + [closed.value] else b.trades)
  }

  function Mark(b: Book, symbol: Symbol, price: Paise): Book {
    if symbol in b.positions then
      b.(positions := b.positions[symbol := b.positions[symbol].(lastPrice := price)])
    else b
  }

  lemma SettleKeepsSymbol(p: Position, fill: Fill)
    ensures Settle(p, fill).0.symbol == p.symbol
  {
  }

  lemma SettleRealises(p: Position, fill: Fill)
    ensures var (q, closed) := Settle(p, fill);
            q.realisedPnl - p.realisedPnl == if closed.Some? then closed.value.pnl else 0
  {
  }

  /**
   * A fill closes a trade exactly when it goes against what is held: as many shares as both have, from
   * the average paid to the fill's price, at the profit between the two less the fill's charges.
   */
  lemma TradesTellTheirExit(p: Position, fill: Fill)
    requires fill.quantity > 0
    ensures var closed, against := Settle(p, fill).1, p.quantity != 0 && (p.quantity > 0 <==> fill.side.SELL?);
      && (closed.Some? <==> against)
      && (against ==>
            var t := closed.value;
            && t.symbol == fill.symbol && t.closedAt == fill.timestamp
            && (t.direction.LONG? <==> p.quantity > 0) && (t.direction.SHORT? <==> p.quantity < 0)
            && t.quantity == Min(Abs(p.quantity), fill.quantity)
            && t.entryPrice == p.averagePrice && t.exitPrice == fill.price
            && t.pnl + fill.commission ==
               t.quantity * (if t.direction.LONG? then t.exitPrice - t.entryPrice else t.entryPrice - t.exitPrice))
  {
  }

  // ----- Totals -----

  /** What a total adds up: value at the mark, its size, profit at the mark, profit taken, value at cost. */
  datatype Measure = Market | Gross | Unrealised | Realised | Cost

  function Value(m: Measure, p: Position): int {
    match m
    case Market => p.quantity * p.lastPrice
    case Gross => Abs(p.quantity * p.lastPrice)
    case Unrealised => p.quantity * (p.lastPrice - p.averagePrice)
    case Realised => p.realisedPnl
    case Cost => p.quantity * p.averagePrice
  }

  function Total(m: Measure, symbols: seq<Symbol>, positions: map<Symbol, Position>): int
    requires forall s :: s in symbols ==> s in positions
  {
    if symbols == [] then 0
    else
      var last := |symbols| - 1;
      Total(m, symbols[..last], positions) + Value(m, positions[symbols[last]])
  }

  function Sum(m: Measure, b: Book): int
    requires b.Valid()
  {
    Total(m, b.symbols, b.positions)
  }

  function Equity(b: Book): int
    requires b.Valid()
  {
    b.cash + Sum(Market, b)
  }

  lemma {:induction false} TotalUnchanged(m: Measure, symbols: seq<Symbol>, p0: map<Symbol, Position>, p1: map<Symbol, Position>)
    requires forall s :: s in symbols ==> s in p0 && s in p1 && Value(m, p0[s]) == Value(m, p1[s])
    ensures Total(m, symbols, p0) == Total(m, symbols, p1)
  {
    if symbols != [] {
      TotalUnchanged(m, symbols[..|symbols| - 1], p0, p1);
    }
  }

  lemma {:induction false} TotalUpdate(m: Measure, symbols: seq<Symbol>, positions: map<Symbol, Position>, p: Position, s: Symbol)
    requires Distinct(symbols) && s in symbols
    requires forall t :: t in symbols ==> t in positions
    ensures Total(m, symbols, positions[s := p]) == Total(m, symbols, positions) - Value(m, positions[s]) + Value(m, p)
  {
    var last := |symbols| - 1;
    if symbols[last] == s {
      TotalUnchanged(m, symbols[..last], positions, positions[s := p]);
    } else {
      TotalUpdate(m, symbols[..last], positions, p, s);
    }
  }

  lemma TotalAppend(m: Measure, symbols: seq<Symbol>, positions: map<Symbol, Position>, p: Position, s: Symbol)
    requires s !in symbols
    requires forall t :: t in symbols ==> t in positions
    ensures Total(m, symbols + [s], positions[s := p]) == Total(m, symbols, positions) + Value(m, p)
  {
    assert (symbols + [s])[..|symbols|] == symbols;
    TotalUnchanged(m, symbols, positions, positions[s := p]);
  }

  // ----- Whole histories -----

  /** What a portfolio can be told: an execution happened, or a price was published. */
  datatype Event = Filled(fill: Fill) | Marked(symbol: Symbol, price: Paise)

  /**
   * A book with what its history did: commissions paid on fills that opened or added to a
   * position, and the summed absolute size of positions right after an adding fill.
   */
  datatype History = History(book: Book, entryCommission: int, added: nat)

  function Next(h: History, e: Event): History {
    match e
    case Marked(symbol, price) => h.(book := Mark(h.book, symbol, price))
    case Filled(fill) =>
      if fill.quantity <= 0 then h
      else
        var held := h.book.Quantity(fill.symbol);
        var signed := Signed(fill.side, fill.quantity);
        History(Booked(h.book, fill),
                h.entryCommission + if OpensOrAdds(held, signed) then fill.commission else 0,
                h.added + if held != 0 && OpensOrAdds(held, signed) then Abs(held + signed) else 0)
  }

  function Replayed(opening: Paise, events: seq<Event>): History {
    if events == [] then History(Opening(opening), 0, 0)
    else Next(Replayed(opening, events[..|events| - 1]), events[|events| - 1])
  }

  /** Every measure of a book moves by exactly what the touched position moved. */
  lemma FillMovesOnePosition(m: Measure, b: Book, fill: Fill)
    requires b.Valid() && fill.quantity > 0
    ensures Booked(b, fill).Valid()
    ensures Sum(m, Booked(b, fill)) ==
            Sum(m, b) - Value(m, PositionOrFlat(b, fill)) + Value(m, Settle(PositionOrFlat(b, fill), fill).0)
  {
    assert fill.symbol !in b.positions ==> Value(m, PositionOrFlat(b, fill)) == 0;
    hide Settle, CashFlow, Value;
    SettleKeepsSymbol(PositionOrFlat(b, fill), fill);
    var p := Settle(PositionOrFlat(b, fill), fill).0;
    if fill.symbol in b.positions {
      TotalUpdate(m, b.symbols, b.positions, p, fill.symbol);
    } else {
      TotalAppend(m, b.symbols, b.positions, p, fill.symbol);
    }
  }

  lemma MarkKeepsCost(b: Book, symbol: Symbol, price: Paise)
    requires b.Valid()
    ensures Mark(b, symbol, price).Valid()
    ensures Sum(Cost, Mark(b, symbol, price)) == Sum(Cost, b)
    ensures Sum(Realised, Mark(b, symbol, price)) == Sum(Realised, b)
  {
    if symbol in b.positions {
      var p := b.positions[symbol].(lastPrice := price);
      TotalUpdate(Cost, b.symbols, b.positions, p, symbol);
      TotalUpdate(Realised, b.symbols, b.positions, p, symbol);
    }
  }

  /** Twice the amount by which rounding the average moved the cost of a position. */
  function Slack(p: Position, fill: Fill): int {
    2 * (Value(Cost, Settle(p, fill).0) - Value(Cost, p) - Signed(fill.side, fill.quantity) * fill.price)
  }

  lemma EntrySlack(p: Position, fill: Fill)
    requires fill.quantity > 0
    requires OpensOrAdds(p.quantity, Signed(fill.side, fill.quantity))
    ensures p.quantity == 0 ==> Slack(p, fill) == 0
    ensures Abs(Slack(p, fill)) <= Abs(p.quantity + Signed(fill.side, fill.quantity))
  {
    var signed := Signed(fill.side, fill.quantity);
    var next := p.quantity + signed;
    var cost := p.quantity * p.averagePrice + signed * fill.price;
    var average := RoundDiv(cost, next);
    assert next * average == average * next;
    if p.quantity == 0 {
      assert cost == fill.price * next;
      RoundDivExact(fill.price, next);
    }
  }

  /** A reducing or reversing fill realises exactly what it removes from cost. */
  lemma ExitBalances(p: Position, fill: Fill)
    requires fill.quantity > 0
    requires !OpensOrAdds(p.quantity, Signed(fill.side, fill.quantity))
    ensures Value(Cost, Settle(p, fill).0) - Value(Cost, p)
            == Signed(fill.side, fill.quantity) * fill.price + Settle(p, fill).0.realisedPnl - p.realisedPnl + fill.commission
  {
    var signed := Signed(fill.side, fill.quantity);
    var next := p.quantity + signed;
    var closing := Min(Abs(signed), Abs(p.quantity));
    var perShare := if p.quantity > 0 then fill.price - p.averagePrice else p.averagePrice - fill.price;
    if Abs(signed) <= Abs(p.quantity) {
      assert perShare * closing == -signed * (fill.price - p.averagePrice);
    } else {
      assert perShare * closing == p.quantity * (fill.price - p.averagePrice);
    }
  }

  /** The amount, doubled, by which the books fail to balance. */
  function Imbalance(opening: Paise, h: History): int
    requires h.book.Valid()
  {
    2 * (Equity(h.book)
         - (opening + Sum(Realised, h.book) + Sum(Unrealised, h.book) - h.entryCommission))
  }

  lemma {:induction false} MarketIsCostPlusUnrealised(symbols: seq<Symbol>, positions: map<Symbol, Position>)
    requires forall s :: s in symbols ==> s in positions
    ensures Total(Market, symbols, positions) == Total(Cost, symbols, positions) + Total(Unrealised, symbols, positions)
  {
    if symbols != [] {
      MarketIsCostPlusUnrealised(symbols[..|symbols| - 1], positions);
    }
  }

  lemma ImbalanceAtCost(opening: Paise, h: History)
    requires h.book.Valid()
    ensures Imbalance(opening, h) ==
            2 * (h.book.cash + Sum(Cost, h.book) - opening - Sum(Realised, h.book) + h.entryCommission)
  {
    MarketIsCostPlusUnrealised(h.book.symbols, h.book.positions);
  }

  lemma FillBalances(opening: Paise, h: History, fill: Fill)
    requires h.book.Valid() && fill.quantity > 0
    ensures Next(h, Filled(fill)).book.Valid()
    ensures Abs(Imbalance(opening, Next(h, Filled(fill))) - Imbalance(opening, h)) <= Next(h, Filled(fill)).added - h.added
  {
    var p := PositionOrFlat(h.book, fill);
    var signed := Signed(fill.side, fill.quantity);
    FillMovesOnePosition(Cost, h.book, fill);
    FillMovesOnePosition(Realised, h.book, fill);
    ImbalanceAtCost(opening, h);
    ImbalanceAtCost(opening, Next(h, Filled(fill)));
    assert CashFlow(fill) == -(signed * fill.price) - fill.commission;
    if OpensOrAdds(p.quantity, signed) {
      EntrySlack(p, fill);
      assert Settle(p, fill).0.realisedPnl == p.realisedPnl;
    } else {
      ExitBalances(p, fill);
    }
    BalanceStep(opening, h, fill, p, Settle(p, fill).0);
  }

  /** The arithmetic of one fill, over the sums alone. */
  lemma BalanceStep(opening: Paise, h: History, fill: Fill, p: Position, q: Position)
    requires h.book.Valid() && Next(h, Filled(fill)).book.Valid() && fill.quantity > 0
    requires p == PositionOrFlat(h.book, fill)
    requires forall m | m == Cost || m == Realised ::
      Sum(m, Next(h, Filled(fill)).book) == Sum(m, h.book) - Value(m, p) + Value(m, q)
    requires Imbalance(opening, h) ==
      2 * (h.book.cash + Sum(Cost, h.book) - opening - Sum(Realised, h.book) + h.entryCommission)
    requires var g := Next(h, Filled(fill));
      Imbalance(opening, g) == 2 * (g.book.cash + Sum(Cost, g.book) - opening - Sum(Realised, g.book) + g.entryCommission)
    requires var signed := Signed(fill.side, fill.quantity);
      && CashFlow(fill) == -(signed * fill.price) - fill.commission
      && if OpensOrAdds(p.quantity, signed) then
           && q.realisedPnl == p.realisedPnl
           && Abs(2 * (Value(Cost, q) - Value(Cost, p) - signed * fill.price)) <= (if p.quantity == 0 then 0 else Abs(p.quantity + signed))
         else
           Value(Cost, q) - Value(Cost, p) == signed * fill.price + q.realisedPnl - p.realisedPnl + fill.commission
    ensures Abs(Imbalance(opening, Next(h, Filled(fill))) - Imbalance(opening, h)) <= Next(h, Filled(fill)).added - h.added
  {
    hide Settle, Total, Imbalance, CashFlow, Signed;
    var g := Next(h, Filled(fill));
    assert h.book.Quantity(fill.symbol) == p.quantity;
    assert g.book.cash == h.book.cash + CashFlow(fill);
    assert Sum(Cost, g.book) == Sum(Cost, h.book) - Value(Cost, p) + Value(Cost, q);
    assert Sum(Realised, g.book) == Sum(Realised, h.book) - p.realisedPnl + q.realisedPnl;
  }

  lemma StepBalances(opening: Paise, h: History, e: Event)
    requires h.book.Valid()
    ensures Next(h, e).book.Valid()
    ensures Abs(Imbalance(opening, Next(h, e)) - Imbalance(opening, h)) <= Next(h, e).added - h.added
  {
    match e
    case Marked(symbol, price) =>
      MarkKeepsCost(h.book, symbol, price);
      ImbalanceAtCost(opening, h);
      ImbalanceAtCost(opening, Next(h, e));
    case Filled(fill) =>
      if fill.quantity > 0 {
        FillBalances(opening, h, fill);
      }
  }

  /**
   * The accounting identity. For any history of fills and marks over any symbols, equity differs
   * from opening cash plus realised plus unrealised profit less entry commissions by at most half
   * the summed size of positions after adding fills.
   */
  lemma {:induction false} AccountingIdentity(opening: Paise, events: seq<Event>)
    ensures Replayed(opening, events).book.Valid()
    ensures Abs(Imbalance(opening, Replayed(opening, events))) <= Replayed(opening, events).added
  {
    if events != [] {
      var before := events[..|events| - 1];
      AccountingIdentity(opening, before);
      StepBalances(opening, Replayed(opening, before), events[|events| - 1]);
    }
  }

  /** No fill of the history adds to a position that is already open. */
  predicate EnteredByOneFill(opening: Paise, events: seq<Event>) {
    forall i :: 0 <= i < |events| && events[i].Filled? && events[i].fill.quantity > 0 ==>
      var held := Replayed(opening, events[..i]).book.Quantity(events[i].fill.symbol);
      held == 0 || Sign(held) != Sign(Signed(events[i].fill.side, events[i].fill.quantity))
  }

  /** The books balance to the paisa when every position is entered by one fill. */
  lemma {:induction false} ExactWhenEnteredByOneFill(opening: Paise, events: seq<Event>)
    requires EnteredByOneFill(opening, events)
    ensures Replayed(opening, events).book.Valid()
    ensures Replayed(opening, events).added == 0
    ensures var b := Replayed(opening, events).book;
            Equity(b) == opening + Sum(Realised, b) + Sum(Unrealised, b) - Replayed(opening, events).entryCommission
  {
    AccountingIdentity(opening, events);
    if events != [] {
      var before := events[..|events| - 1];
      assert forall i :: 0 <= i < |before| ==> before[..i] == events[..i];
      ExactWhenEnteredByOneFill(opening, before);
    }
  }

  function OneShare(id: Id, symbol: Symbol, price: Paise): Fill {
    Fill(id, None, symbol, BUY, 1, price, 0, 0)
  }

  function Holding(cash: Paise, p: Position): Book {
    Book(cash, 0, [p.symbol], map[p.symbol := p], [])
  }

  lemma FirstShare(id: Id, symbol: Symbol)
    ensures Next(History(Opening(0), 0, 0), Filled(OneShare(id, symbol, 1))) ==
            History(Holding(-1, Position(symbol, 1, 1, 0, 1)), 0, 0)
  {
    hide RoundDiv, FloorHalf;
    RoundDivUnique(1, 1, 1);
  }

  lemma SecondShare(id: Id, symbol: Symbol)
    ensures Next(History(Holding(-1, Position(symbol, 1, 1, 0, 1)), 0, 0), Filled(OneShare(id, symbol, 2))) ==
            History(Holding(-3, Position(symbol, 2, 2, 0, 2)), 0, 2)
  {
    hide RoundDiv, FloorHalf;
    RoundDivUnique(3, 2, 2);
    var p := Position(symbol, 1, 1, 0, 1);
    assert Settle(p, OneShare(id, symbol, 2)) == (Position(symbol, 2, 2, 0, 2), None);
    assert map[symbol := p][symbol := Position(symbol, 2, 2, 0, 2)] == map[symbol := Position(symbol, 2, 2, 0, 2)];
  }

  lemma HoldingTotals(m: Measure, cash: Paise, p: Position)
    ensures Holding(cash, p).Valid()
    ensures Sum(m, Holding(cash, p)) == Value(m, p)
  {
    hide Value;
    var symbols, positions := [p.symbol], map[p.symbol := p];
    assert symbols[..0] == [];
    assert Total(m, symbols, positions) == Total(m, symbols[..0], positions) + Value(m, positions[symbols[0]]);
  }

  /** Two one-share fills a paisa apart already use the whole allowance, so the bound is the best one. */
  lemma BoundIsAttained(id: Id, symbol: Symbol)
    ensures var h := Replayed(0, [Filled(OneShare(id, symbol, 1)), Filled(OneShare(id, symbol, 2))]);
      h.book.Valid() && h.added == 2 && Imbalance(0, h) == 2
  {
    hide Next, Sum, Imbalance;
    var events := [Filled(OneShare(id, symbol, 1)), Filled(OneShare(id, symbol, 2))];
    var h0, h1, h2 := Replayed(0, events[..1][..0]), Replayed(0, events[..1]), Replayed(0, events);
    assert h0 == History(Opening(0), 0, 0);
    assert h1 == Next(h0, events[..1][0]);
    assert h2 == Next(h1, events[1]);
    FirstShare(id, symbol);
    SecondShare(id, symbol);
    var p := Position(symbol, 2, 2, 0, 2);
    HoldingTotals(Cost, -3, p);
    HoldingTotals(Realised, -3, p);
    ImbalanceAtCost(0, h2);
  }

  // ----- What is held -----

  /** Shares of a symbol bought less shares sold, over the fills a portfolio takes. */
  function NetFilled(events: seq<Event>, symbol: Symbol): int {
    if events == [] then 0
    else
      var last := events[|events| - 1];
      NetFilled(events[..|events| - 1], symbol)
      + if Trades(last, symbol) then Signed(last.fill.side, last.fill.quantity) else 0
  }

  predicate Trades(e: Event, symbol: Symbol) {
    e.Filled? && e.fill.quantity > 0 && e.fill.symbol == symbol
  }

  lemma SettleMovesQuantity(p: Position, fill: Fill)
    ensures Settle(p, fill).0.quantity == p.quantity + Signed(fill.side, fill.quantity)
  {
    hide RoundDiv;
  }

  lemma StepMovesQuantity(h: History, e: Event, symbol: Symbol)
    ensures var b, c := h.book, Next(h, e).book;
      && c.Quantity(symbol) == b.Quantity(symbol) + (if Trades(e, symbol) then Signed(e.fill.side, e.fill.quantity) else 0)
      && (symbol in c.positions <==> symbol in b.positions || Trades(e, symbol))
  {
    hide Settle, CashFlow;
    if e.Filled? {
      SettleMovesQuantity(PositionOrFlat(h.book, e.fill), e.fill);
    }
  }

  /**
   * After any history a symbol has a position exactly when it was ever traded, and the position is
   * what was bought of it less what was sold.
   */
  lemma {:induction false} PositionIsNetOfFills(opening: Paise, events: seq<Event>, symbol: Symbol)
    ensures var b := Replayed(opening, events).book;
      && (symbol in b.positions <==> exists i :: 0 <= i < |events| && Trades(events[i], symbol))
      && b.Quantity(symbol) == NetFilled(events, symbol)
  {
    hide Next, Trades;
    if events != [] {
      var before, last := events[..|events| - 1], events[|events| - 1];
      assert events == before + [last];
      PositionIsNetOfFills(opening, before, symbol);
      StepMovesQuantity(Replayed(opening, before), last, symbol);
      assert forall i :: 0 <= i < |before| ==> before[i] == events[i];
      if Trades(last, symbol) {
        assert Trades(events[|events| - 1], symbol);
      }
    }
  }

  // ----- Conservation of realised profit -----

  function TradePnl(trades: seq<ClosedTrade>): int {
    if trades == [] then 0 else TradePnl(trades[..|trades| - 1]) + trades[|trades| - 1].pnl
  }

  lemma FillRealisesItsTrade(b: Book, fill: Fill)
    requires b.Valid() && fill.quantity > 0
    ensures Booked(b, fill).Valid()
    ensures Sum(Realised, Booked(b, fill)) - Sum(Realised, b) == TradePnl(Booked(b, fill).trades) - TradePnl(b.trades)
  {
    hide Settle, CashFlow, Total, RoundDiv;
    FillMovesOnePosition(Realised, b, fill);
    var p := PositionOrFlat(b, fill);
    var (q, closed) := Settle(p, fill);
    SettleRealises(p, fill);
    if closed.Some? {
      assert (b.trades + [closed.value])[..|b.trades|] == b.trades;
    }
  }

  /** Realised profit is exactly the profit of the closed trades, whatever the history. */
  lemma {:induction false} RealisedIsTradePnl(opening: Paise, events: seq<Event>)
    ensures Replayed(opening, events).book.Valid()
    ensures Sum(Realised, Replayed(opening, events).book) == TradePnl(Replayed(opening, events).book.trades)
  {
    AccountingIdentity(opening, events);
    if events != [] {
      var before := events[..|events| - 1];
      RealisedIsTradePnl(opening, before);
      var b, e := Replayed(opening, before).book, events[|events| - 1];
      match e
      case Marked(symbol, price) => MarkKeepsCost(b, symbol, price);
      case Filled(fill) =>
        if fill.quantity > 0 {
          FillRealisesItsTrade(b, fill);
        }
    }
  }

  // ----- The object -----

  datatype FillError = NonPositiveQuantity

  class Portfolio {
    var cashBalance: Paise
    var commissionPaid: Paise
    var symbols: seq<Symbol>
    var positions: map<Symbol, Position>
    var trades: seq<ClosedTrade>

    ghost function Model(): Book
      reads this
    {
      Book(cashBalance, commissionPaid, symbols, positions, trades)
    }

    ghost predicate Valid()
      reads this
    {
      Model().Valid()
    }

    constructor (openingCash: Paise)
      requires openingCash >= 0
      ensures Valid() && Model() == Opening(openingCash)
    {
      cashBalance := openingCash;
      commissionPaid := 0;
      symbols := [];
      positions := map[];
      trades := [];
    }

    /** Works one fill into a position: opening, adding, reducing, or reversing through zero. */
    static method SettleFill(position: Position, fill: Fill) returns (existing: Position, closed: Option<ClosedTrade>)
      ensures (existing, closed) == Settle(position, fill)
    {
      hide RoundDiv, FloorHalf, Sign, Abs, Min;
      existing := position.(lastPrice := fill.price);
      closed := None;
      var signedQuantity := Signed(fill.side, fill.quantity);
      var previousQuantity := existing.quantity;
      var newQuantity := previousQuantity + signedQuantity;

      if previousQuantity == 0 || Sign(previousQuantity) == Sign(signedQuantity) {
        var totalCost := previousQuantity * existing.averagePrice + signedQuantity * fill.price;
        var average := 0;
        if newQuantity != 0 {
          average := RoundDiv(totalCost, newQuantity);
        }
        existing := existing.(averagePrice := average, quantity := newQuantity);
      } else {
        var closingQuantity := Min(Abs(signedQuantity), Abs(previousQuantity));
        var direction := if previousQuantity > 0 then LONG else SHORT;
        var perShare :=
          if direction.LONG? then fill.price - existing.averagePrice else existing.averagePrice - fill.price;
        var netPnl := perShare * closingQuantity - fill.commission;
        closed := Some(ClosedTrade(fill.symbol, direction, closingQuantity, existing.averagePrice,
                                   fill.price, netPnl, fill.timestamp));
        existing := existing.(realisedPnl := existing.realisedPnl + netPnl, quantity := newQuantity);
        if newQuantity == 0 {
          existing := existing.(averagePrice := 0);
        } else if Sign(newQuantity) != Sign(previousQuantity) {
          existing := existing.(averagePrice := fill.price);
        }
      }
    }

    method ApplyFill(fill: Fill) returns (r: Result<Option<ClosedTrade>, FillError>)
      requires Valid()
      modifies this
      ensures Valid() && Model() == Booked(old(Model()), fill)
      ensures r.Failure? <==> fill.quantity <= 0
      ensures r.Success? ==> r.value == Settle(PositionOrFlat(old(Model()), fill), fill).1
    {
      hide Settle, Total;
      if fill.quantity <= 0 {
        return Failure(NonPositiveQuantity);
      }
      var existing := Position(fill.symbol, 0, 0, 0, fill.price);
      if fill.symbol in positions {
        existing := positions[fill.symbol];
      }
      var settled, closed := SettleFill(existing, fill);
      SettleKeepsSymbol(existing, fill);
      cashBalance := cashBalance - Signed(fill.side, fill.quantity) * fill.price - fill.commission;
      commissionPaid := commissionPaid + fill.commission;
      if closed.Some? {
        trades := trades + [closed.value];
      }
      if fill.symbol !in positions {
        symbols := symbols + [fill.symbol];
      }
      positions := positions[fill.symbol := settled];
      return Success(closed);
    }

    method MarkPrice(symbol: Symbol, price: Paise)
      requires Valid()
      modifies this`positions
      ensures Valid() && Model() == Mark(old(Model()), symbol, price)
    {
      if symbol in positions {
        positions := positions[symbol := positions[symbol].(lastPrice := price)];
      }
    }

    method GetPosition(symbol: Symbol) returns (p: Option<Position>)
      ensures p == if symbol in positions then Some(positions[symbol]) else None
    {
      p := if symbol in positions then Some(positions[symbol]) else None;
    }

    /** Adds up one measure over every position. */
    method Accumulate(m: Measure) returns (total: int)
      requires Valid()
      ensures total == Sum(m, Model())
    {
      total := 0;
      for i := 0 to |symbols|
        invariant total == Total(m, symbols[..i], positions)
      {
        assert symbols[..i + 1][..i] == symbols[..i];
        total := total + Value(m, positions[symbols[i]]);
      }
      assert symbols[..|symbols|] == symbols;
    }

    method GetEquity() returns (equity: Paise)
      requires Valid()
      ensures equity == Equity(Model())
    {
      var marketValue := Accumulate(Market);
      equity := cashBalance + marketValue;
    }

    /** Open positions only, in the order their symbols were first traded. */
    method GetOpenPositions() returns (open: seq<Position>)
      requires Valid()
      ensures open == OpenPositions(symbols, positions)
    {
      open := [];
      for i := 0 to |symbols|
        invariant open == OpenPositions(symbols[..i], positions)
      {
        assert symbols[..i + 1][..i] == symbols[..i];
        if positions[symbols[i]].quantity != 0 {
          open := open + [positions[symbols[i]]];
        }
      }
      assert symbols[..|symbols|] == symbols;
    }
  }

  function OpenPositions(symbols: seq<Symbol>, positions: map<Symbol, Position>): (open: seq<Position>)
    requires forall s :: s in symbols ==> s in positions
    requires forall s :: s in positions ==> positions[s].symbol == s
    ensures forall p :: p in open ==> p.quantity != 0 && p.symbol in symbols && positions[p.symbol] == p
    ensures forall s :: s in symbols && positions[s].quantity != 0 ==> positions[s] in open
    ensures Distinct(symbols) ==> forall i, j :: 0 <= i < j < |open| ==> open[i].symbol != open[j].symbol
  {
    if symbols == [] then []
    else
      var last := |symbols| - 1;
      var rest := OpenPositions(symbols[..last], positions);
      var p := positions[symbols[last]];
      assert symbols == symbols[..last] + [symbols[last]];
      if p.quantity != 0 then rest + [p] else rest
  }
}
