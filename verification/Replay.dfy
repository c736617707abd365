// Fills as the durable truth: storing each once, replaying them at startup, adopting missed ones.
module Replays {
  import opened Money
  import opened Domain
  import opened Averages
  import opened Portfolios
  import Oms
  import Ledgers
  import PB = PaperBrokers

  // ----- The fill table -----

  datatype FillKey = FillKey(orderId: Id, timestamp: Timestamp, quantity: int, price: Paise)

  datatype Store = Store(fills: seq<Fill>, seen: set<FillKey>)

  function KeyOf(fill: Fill): FillKey {
    FillKey(fill.orderId, fill.timestamp, fill.quantity, fill.price)
  }

  predicate IsNew(store: Store, fill: Fill) {
    KeyOf(fill) !in store.seen
  }

  function Append(store: Store, fill: Fill): Store {
    if IsNew(store, fill) then Store(store.fills + [fill], store.seen + {KeyOf(fill)}) else store
  }

  /** No two stored fills share a key, and the keys seen are those of the stored fills. */
  ghost predicate Keyed(store: Store) {
    && (forall f :: f in store.fills ==> KeyOf(f) in store.seen)
    && (forall k :: k in store.seen ==> exists f :: f in store.fills && KeyOf(f) == k)
    && DistinctKeys(store.fills)
  }

  ghost predicate DistinctKeys(fills: seq<Fill>) {
    forall i, j :: 0 <= i < j < |fills| ==> KeyOf(fills[i]) != KeyOf(fills[j])
  }

  lemma AppendKeepsKeyed(store: Store, fill: Fill)
    requires Keyed(store)
    ensures Keyed(Append(store, fill))
    ensures store.seen <= Append(store, fill).seen && KeyOf(fill) in Append(store, fill).seen
  {
    hide KeyOf;
    var after := Append(store, fill);
    forall k | k in after.seen
      ensures exists f :: f in after.fills && KeyOf(f) == k
    {
      if k in store.seen {
        var f :| f in store.fills && KeyOf(f) == k;
        assert f in after.fills;
      } else {
        assert IsNew(store, fill) && k == KeyOf(fill) && fill in after.fills;
      }
    }
  }

  lemma {:induction false} DistinctMeansOnce(fills: seq<Fill>, f: Fill)
    requires DistinctKeys(fills)
    ensures multiset(fills)[f] <= 1
  {
    hide KeyOf;
    if fills != [] {
      var n := |fills| - 1;
      var before := fills[..n];
      assert fills == before + [fills[n]];
      DistinctMeansOnce(before, f);
      if f == fills[n] {
        forall i | 0 <= i < n
          ensures before[i] != f
        {
          assert KeyOf(fills[i]) != KeyOf(fills[n]);
        }
      }
      assert f in multiset(before) <==> f in before;
    }
  }

  /** Any part of a list without repeated keys has none either. */
  lemma DistinctInPart(part: seq<Fill>, whole: seq<Fill>)
    requires DistinctKeys(whole) && multiset(part) <= multiset(whole)
    ensures DistinctKeys(part)
  {
    hide KeyOf;
    forall i, j | 0 <= i < j < |part|
      ensures KeyOf(part[i]) != KeyOf(part[j])
    {
      var f, g := part[i], part[j];
      assert f in multiset(part) && g in multiset(part);
      assert f in whole && g in whole;
      if f == g {
        assert part == part[..j] + part[j..];
        assert f in part[..j] && f in part[j..];
        DistinctMeansOnce(whole, f);
      } else {
        var a :| 0 <= a < |whole| && whole[a] == f;
        var b :| 0 <= b < |whole| && whole[b] == g;
        assert a < b || b < a;
      }
    }
  }

  /** A fill goes after every fill not later than it: the sort is stable. */
  function InsertByTime(sorted: seq<Fill>, fill: Fill): seq<Fill> {
    if sorted == [] then [fill]
    else
      var last := sorted[|sorted| - 1];
      if last.timestamp <= fill.timestamp then sorted + [fill]
      else InsertByTime(sorted[..|sorted| - 1], fill) + [last]
  }

  function SortedByTime(fills: seq<Fill>): seq<Fill> {
    if fills == [] then [] else InsertByTime(SortedByTime(fills[..|fills| - 1]), fills[|fills| - 1])
  }

  function NotBefore(fills: seq<Fill>, from: Timestamp): seq<Fill> {
    if fills == [] then []
    else
      var last := fills[|fills| - 1];
      NotBefore(fills[..|fills| - 1], from) + if last.timestamp >= from then [last] else []
  }

  function Since(store: Store, from: Timestamp): seq<Fill> {
    SortedByTime(NotBefore(store.fills, from))
  }

  predicate InTimeOrder(fills: seq<Fill>) {
    forall i, j :: 0 <= i < j < |fills| ==> fills[i].timestamp <= fills[j].timestamp
  }

  lemma {:induction false} InsertKeepsFills(sorted: seq<Fill>, fill: Fill)
    ensures multiset(InsertByTime(sorted, fill)) == multiset(sorted) + multiset{fill}
  {
    if sorted != [] {
      var n := |sorted| - 1;
      assert sorted == sorted[..n] + [sorted[n]];
      if sorted[n].timestamp > fill.timestamp {
        InsertKeepsFills(sorted[..n], fill);
      }
    }
  }

  lemma {:induction false} SortKeepsFills(fills: seq<Fill>)
    ensures multiset(SortedByTime(fills)) == multiset(fills)
  {
    if fills != [] {
      var n := |fills| - 1;
      assert fills == fills[..n] + [fills[n]];
      SortKeepsFills(fills[..n]);
      InsertKeepsFills(SortedByTime(fills[..n]), fills[n]);
    }
  }

  /** Fills stored in time order are replayed in exactly the order they were stored. */
  lemma {:induction false} SortKeepsOrder(fills: seq<Fill>)
    requires InTimeOrder(fills)
    ensures SortedByTime(fills) == fills
  {
    if fills != [] {
      var n := |fills| - 1;
      assert fills == fills[..n] + [fills[n]];
      SortKeepsOrder(fills[..n]);
      if n > 0 {
        assert fills[n - 1].timestamp <= fills[n].timestamp;
      }
    }
  }

  lemma {:induction false} InsertKeepsOrder(sorted: seq<Fill>, fill: Fill)
    requires InTimeOrder(sorted)
    ensures InTimeOrder(InsertByTime(sorted, fill))
    ensures forall f :: f in InsertByTime(sorted, fill) ==> f in sorted || f == fill
  {
    if sorted != [] && sorted[|sorted| - 1].timestamp > fill.timestamp {
      var n := |sorted| - 1;
      InsertKeepsOrder(sorted[..n], fill);
      assert forall f :: f in sorted[..n] ==> f.timestamp <= sorted[n].timestamp;
    }
  }

  /** Whatever order fills were stored in, they are replayed in time order. */
  lemma {:induction false} SortSorts(fills: seq<Fill>)
    ensures InTimeOrder(SortedByTime(fills))
  {
    if fills != [] {
      var n := |fills| - 1;
      SortSorts(fills[..n]);
      InsertKeepsOrder(SortedByTime(fills[..n]), fills[n]);
    }
  }

  lemma {:induction false} EpochHidesNothing(fills: seq<Fill>)
    requires forall f :: f in fills ==> f.timestamp >= 0
    ensures NotBefore(fills, 0) == fills
  {
    if fills != [] {
      var n := |fills| - 1;
      assert fills == fills[..n] + [fills[n]];
      EpochHidesNothing(fills[..n]);
    }
  }

  // ----- Totals do not depend on order -----

  lemma {:induction false} CashFlowsAppend(a: seq<Fill>, b: seq<Fill>)
    ensures PB.CashFlows(a + b) == PB.CashFlows(a) + PB.CashFlows(b)
  {
    hide CashFlow;
    if b == [] {
      assert a + b == a;
    } else {
      assert (a + b)[..|a + b| - 1] == a + b[..|b| - 1];
      CashFlowsAppend(a, b[..|b| - 1]);
    }
  }

  lemma TotalsOfOne(fill: Fill, symbol: Symbol)
    ensures PB.CashFlows([fill]) == CashFlow(fill)
    ensures Ledgers.NetBought([fill], symbol) == if fill.symbol == symbol then Signed(fill.side, fill.quantity) else 0
  {
    hide CashFlow, Signed;
    assert [fill][..0] == [];
    assert PB.CashFlows([]) == 0 && Ledgers.NetBought([], symbol) == 0;
  }

  /** Taking one fill out of a list takes exactly its share out of every total. */
  lemma TotalsOfRemoval(before: seq<Fill>, fill: Fill, after: seq<Fill>, symbol: Symbol)
    ensures PB.CashFlows(before + [fill] + after) == PB.CashFlows(before + after) + CashFlow(fill)
    ensures Ledgers.NetBought(before + [fill] + after, symbol) ==
            Ledgers.NetBought(before + after, symbol) + if fill.symbol == symbol then Signed(fill.side, fill.quantity) else 0
  {
    hide CashFlow, Signed, PB.CashFlows, Ledgers.NetBought;
    TotalsOfOne(fill, symbol);
    CashFlowsAppend(before + [fill], after);
    CashFlowsAppend(before, [fill]);
    CashFlowsAppend(before, after);
    Ledgers.NetBoughtAppend(before + [fill], after, symbol);
    Ledgers.NetBoughtAppend(before, [fill], symbol);
    Ledgers.NetBoughtAppend(before, after, symbol);
  }

  lemma RemovalKeepsTheRest(a: seq<Fill>, b: seq<Fill>, i: nat)
    requires a != [] && i < |b| && b[i] == a[|a| - 1] && multiset(a) == multiset(b)
    ensures multiset(a[..|a| - 1]) == multiset(b[..i] + b[i + 1..])
    ensures b == b[..i] + [b[i]] + b[i + 1..]
  {
    var x, n := b[i], |a| - 1;
    assert a == a[..n] + [x];
    assert b == b[..i] + [x] + b[i + 1..];
    assert multiset(a[..n]) == multiset(a) - multiset{x};
    assert multiset(b[..i] + b[i + 1..]) == multiset(b) - multiset{x};
  }

  /** Two lists of the same fills move cash and every position by the same amount. */
  lemma {:induction false} TotalsIgnoreOrder(a: seq<Fill>, b: seq<Fill>, symbol: Symbol)
    requires multiset(a) == multiset(b)
    ensures PB.CashFlows(a) == PB.CashFlows(b) && Ledgers.NetBought(a, symbol) == Ledgers.NetBought(b, symbol)
  {
    hide CashFlow, Signed;
    if a == [] {
      assert |multiset(b)| == 0;
      assert b == [];
    } else {
      var n := |a| - 1;
      assert a[n] in multiset(b);
      var i :| 0 <= i < |b| && b[i] == a[n];
      RemovalKeepsTheRest(a, b, i);
      TotalsOfRemoval(b[..i], b[i], b[i + 1..], symbol);
      TotalsIgnoreOrder(a[..n], b[..i] + b[i + 1..], symbol);
    }
  }

  lemma TotalsOfUnion(a: seq<Fill>, b: seq<Fill>, c: seq<Fill>, whole: seq<Fill>, symbol: Symbol)
    requires multiset(a) + multiset(b) + multiset(c) == multiset(whole)
    ensures PB.CashFlows(whole) == PB.CashFlows(a) + PB.CashFlows(b) + PB.CashFlows(c)
    ensures Ledgers.NetBought(whole, symbol) ==
            Ledgers.NetBought(a, symbol) + Ledgers.NetBought(b, symbol) + Ledgers.NetBought(c, symbol)
  {
    hide CashFlow, Signed, PB.CashFlows, Ledgers.NetBought;
    assert multiset(a + b + c) == multiset(whole);
    TotalsIgnoreOrder(whole, a + b + c, symbol);
    Ledgers.NetBoughtAppend(a + b, c, symbol);
    Ledgers.NetBoughtAppend(a, b, symbol);
    CashFlowsAppend(a + b, c);
    CashFlowsAppend(a, b);
  }

  // ----- Books that agree on everything but the marks -----

  predicate SameHolding(p: Position, q: Position) {
    p.symbol == q.symbol && p.quantity == q.quantity && p.averagePrice == q.averagePrice && p.realisedPnl == q.realisedPnl
  }

  predicate SameAccounts(a: Book, b: Book) {
    && a.cash == b.cash && a.commission == b.commission && a.symbols == b.symbols && a.trades == b.trades
    && a.positions.Keys == b.positions.Keys
    && forall s :: s in a.positions ==> SameHolding(a.positions[s], b.positions[s])
  }

  lemma SettleIgnoresMarks(p: Position, q: Position, fill: Fill)
    requires SameHolding(p, q)
    ensures SameHolding(Settle(p, fill).0, Settle(q, fill).0) && Settle(p, fill).1 == Settle(q, fill).1
  {
    hide RoundDiv;
  }

  lemma BookingIgnoresMarks(a: Book, b: Book, fill: Fill)
    requires SameAccounts(a, b)
    ensures SameAccounts(Booked(a, fill), Booked(b, fill))
  {
    hide Settle, CashFlow;
    SettleIgnoresMarks(PositionOrFlat(a, fill), PositionOrFlat(b, fill), fill);
  }

  lemma MarkingKeepsAccounts(a: Book, b: Book, symbol: Symbol, price: Paise)
    requires SameAccounts(a, b)
    ensures SameAccounts(Mark(a, symbol, price), b) && SameAccounts(a, Mark(b, symbol, price))
  {
  }

  lemma AccountsAgree(a: Book, b: Book)
    requires SameAccounts(a, b)
    ensures SameAccounts(b, a) && a.cash == b.cash && forall s :: a.Quantity(s) == b.Quantity(s)
  {
  }

  // ----- The order table and the service -----

  /** `ids` lists rows in the order they were inserted. */
  datatype Table = Table(ids: seq<Id>, rows: map<Id, Order>, byKey: map<Key, Id>)
  {
    ghost predicate Valid() {
      (forall id :: id in ids <==> id in rows) && (forall id :: id in rows ==> rows[id].id == id)
    }
  }

  function Inserted(t: Table, order: Order): Table {
    if order.request.idempotencyKey in t.byKey then t
    else Table(if order.id in t.rows then t.ids else t.ids + [order.id], t.rows[order.id := order],
               t.byKey[order.request.idempotencyKey := order.id])
  }

  /** Updates a known order, inserts an unknown one; a refused insertion is swallowed. */
  function Persisted(t: Table, order: Order): Table {
    if order.id in t.rows then t.(rows := t.rows[order.id := order]) else Inserted(t, order)
  }

  datatype Service = Service(table: Table, oms: Oms.State, store: Store, book: Book)
  {
    ghost predicate Valid() {
      table.Valid() && oms.Valid()
    }
  }

  function ByBroker(t: Table, brokerId: Id): Option<Id>
    requires t.Valid()
  {
    Oms.FindByBrokerId(t.ids, t.rows, brokerId)
  }

  /** A fill under the platform's order id, when any table knows which order it is for. */
  function Resolved(s: Service, fill: Fill): Fill
    requires s.Valid()
  {
    if fill.orderId in s.oms.orders || fill.orderId in s.table.rows then fill
    else
      var known := ByBroker(s.table, fill.orderId);
      fill.(orderId := if known.Some? then known.value else fill.orderId, brokerOrderId := Some(fill.orderId))
  }

  /** A fill reconciliation found at the broker. */
  function AdoptedAs(s: Service, fill: Fill): Fill
    requires s.Valid()
  {
    var known := ByBroker(s.table, fill.orderId);
    fill.(orderId := if known.Some? then known.value else fill.orderId, brokerOrderId := Some(fill.orderId))
  }

  /** A fill reaches the platform from the broker's stream, or from a reconciliation. */
  datatype Path = Live | Reconciled

  function FiledAs(path: Path, s: Service, fill: Fill): Fill
    requires s.Valid()
  {
    match path
    case Live => Resolved(s, fill)
    case Reconciled => AdoptedAs(s, fill)
  }

  /** A fill under way; `parked` when the order manager was found not to know its order. */
  datatype Pending = Pending(path: Path, fill: Fill, parked: bool)

  datatype Delivery = Ignored | Parked | Applied | Threw

  /** Writes the order manager's order for an id, if it holds one, to the order table. */
  function PersistKnown(s: Service, id: Id): Service {
    if id in s.oms.orders then s.(table := Persisted(s.table, s.oms.orders[id])) else s
  }

  /**
   * What follows the storing of a fill, up to the next point where something is awaited. An order
   * manager that refuses the status change aborts before the portfolio hears of the fill; a fill
   * of an order it does not know is booked once that has been recorded.
   */
  function Resumed(s: Service, p: Pending): (Service, Delivery)
    requires s.Valid() && p.fill.quantity > 0
  {
    var fill := p.fill;
    if p.path.Reconciled? then (s.(book := Booked(s.book, fill)), Applied)
    else if p.parked then (PersistKnown(s.(book := Booked(s.book, fill)), fill.orderId), Applied)
    else if fill.orderId !in s.oms.orders then (s, Parked)
    else
      var (oms, error) := Oms.Filled(s.oms, fill);
      if error.Some? then (s.(oms := oms), Threw)
      else (PersistKnown(s.(oms := oms, book := Booked(s.book, fill)), fill.orderId), Applied)
  }

  /** A fill from the broker that nothing interrupts: stored, then booked. */
  function Delivered(s: Service, incoming: Fill): (Service, Delivery)
    requires s.Valid() && incoming.quantity > 0
  {
    var fill := Resolved(s, incoming);
    if !IsNew(s.store, fill) then (s, Ignored)
    else
      var (t, outcome) := Resumed(s.(store := Append(s.store, fill)), Pending(Live, fill, false));
      if outcome.Parked? then Resumed(t, Pending(Live, fill, true)) else (t, outcome)
  }

  function Adopted(s: Service, fill: Fill): Service
    requires s.Valid()
  {
    var f := AdoptedAs(s, fill);
    if IsNew(s.store, f) then s.(store := Append(s.store, f), book := Booked(s.book, f)) else s
  }

  /** What a new process rebuilds from the store. */
  function Rebuilt(opening: Paise, store: Store): Book {
    Ledgers.BookAll(Opening(opening), Since(store, 0))
  }

  lemma PersistKeepsValid(t: Table, order: Order)
    requires t.Valid()
    ensures Persisted(t, order).Valid()
  {
  }

  /** Startup marks the rebuilt positions at the prices stored with the open ones. */
  function MarkedAll(b: Book, rows: seq<Position>): Book {
    if rows == [] then b
    else
      var last := rows[|rows| - 1];
      Mark(MarkedAll(b, rows[..|rows| - 1]), last.symbol, last.lastPrice)
  }

  lemma StoringKeepsValid(s: Service, store: Store)
    requires s.Valid()
    ensures s.(store := store).Valid()
  {
  }

  lemma ResumingKeepsValid(s: Service, p: Pending)
    requires s.Valid() && p.fill.quantity > 0
    ensures Resumed(s, p).0.Valid() && Resumed(s, p).0.store == s.store
  {
    hide Oms.Filled, Booked, Table.Valid, Oms.State.Valid, Persisted;
    var id := p.fill.orderId;
    Oms.FilledKeepsValid(s.oms, p.fill);
    if id in s.oms.orders {
      PersistKeepsValid(s.table, s.oms.orders[id]);
    }
    if id in Oms.Filled(s.oms, p.fill).0.orders {
      PersistKeepsValid(s.table, Oms.Filled(s.oms, p.fill).0.orders[id]);
    }
  }

  // ----- Which fills are refused -----

  /** The order manager knows the order, has not seen this execution, and cannot move its status on. */
  predicate Refuses(oms: Oms.State, fill: Fill) {
    && fill.orderId in oms.orders
    && !Oms.Seen(Oms.FillsOf(oms, fill.orderId), fill)
    && var order := oms.orders[fill.orderId];
       || order.status.CANCELLED?
       || order.status.REJECTED?
       || (order.status.FILLED? && order.filledQuantity + fill.quantity < order.request.quantity)
  }

  predicate IsRefused(s: Service, p: Pending) {
    p.path.Live? && !p.parked && Refuses(s.oms, p.fill)
  }

  /** A fill is kept from the books exactly when it meets the guard; otherwise it is booked as it is. */
  lemma RefusedExactly(s: Service, p: Pending)
    requires s.Valid() && p.fill.quantity > 0
    ensures Resumed(s, p).1.Threw? <==> IsRefused(s, p)
    ensures Resumed(s, p).1.Parked? <==> p.path.Live? && !p.parked && p.fill.orderId !in s.oms.orders
    ensures Resumed(s, p).0.book == if Resumed(s, p).1.Applied? then Booked(s.book, p.fill) else s.book
    ensures !Resumed(s, p).1.Ignored?
  {
    hide Oms.Seen, Blend, Booked, Persisted;
  }

  /** The same for a delivery that nothing interrupts: what it refuses is in the store all the same. */
  lemma DeliveryRefusedExactly(s: Service, fill: Fill)
    requires s.Valid() && fill.quantity > 0
    ensures var (t, outcome) := Delivered(s, fill);
      var filed := Resolved(s, fill);
      && (outcome.Ignored? <==> !IsNew(s.store, filed))
      && (outcome.Threw? <==> IsNew(s.store, filed) && Refuses(s.oms, filed))
      && !outcome.Parked?
      && t.store == Append(s.store, filed)
      && t.book == if outcome.Applied? then Booked(s.book, filed) else s.book
  {
    hide Refuses, Resumed, Service.Valid, Booked;
    var filed := Resolved(s, fill);
    var stored := s.(store := Append(s.store, filed));
    StoringKeepsValid(s, stored.store);
    RefusedExactly(stored, Pending(Live, filed, false));
    ResumingKeepsValid(stored, Pending(Live, filed, false));
    if Resumed(stored, Pending(Live, filed, false)).1.Parked? {
      var parked := Resumed(stored, Pending(Live, filed, false)).0;
      RefusedExactly(parked, Pending(Live, filed, true));
      ResumingKeepsValid(parked, Pending(Live, filed, true));
    }
  }

  // ----- The order table -----

  /**
   * A fill the order manager takes is written through: the order's row becomes the order as it now
   * stands, unless its key belongs to another row and the insertion is refused; no other row changes.
   */
  lemma AppliedIsWritten(s: Service, p: Pending)
    requires s.Valid() && p.fill.quantity > 0 && p.path.Live? && !p.parked && Resumed(s, p).1.Applied?
    ensures var t, id := Resumed(s, p).0, p.fill.orderId;
      && id in t.oms.orders
      && var order := t.oms.orders[id];
         && (id in s.table.rows || order.request.idempotencyKey !in s.table.byKey ==> id in t.table.rows && t.table.rows[id] == order)
         && (id !in s.table.rows && order.request.idempotencyKey in s.table.byKey ==> t.table == s.table)
         && (forall other :: other != id ==> (other in t.table.rows <==> other in s.table.rows))
         && (forall other :: other != id && other in s.table.rows ==> t.table.rows[other] == s.table.rows[other])
  {
    hide Oms.Seen, Blend, Booked;
    FilledKeepsIds(s.oms, p.fill);
  }

  lemma FilledKeepsIds(oms: Oms.State, fill: Fill)
    requires oms.Valid() && fill.quantity > 0
    ensures Oms.Filled(oms, fill).0.Valid() && Oms.Filled(oms, fill).0.orders.Keys == oms.orders.Keys
  {
    hide Oms.AfterFill, Oms.Seen, Oms.FindByBrokerId;
    Oms.FilledKeepsValid(oms, fill);
    Oms.AfterFillKeepsIdentity(oms, fill);
  }

  // ----- Which order a fill is filed under -----

  /** The order a path files an id under, given what the tables know. */
  function OwnerOf(path: Path, s: Service, id: Id): Id
    requires s.Valid()
  {
    var known := ByBroker(s.table, id);
    if path.Live? && (id in s.oms.orders || id in s.table.rows) then id
    else if known.Some? then known.value
    else id
  }

  function FiledKey(path: Path, s: Service, fill: Fill): FillKey
    requires s.Valid()
  {
    FillKey(OwnerOf(path, s, fill.orderId), fill.timestamp, fill.quantity, fill.price)
  }

  lemma FiledUnderOwner(path: Path, s: Service, fill: Fill)
    requires s.Valid()
    ensures KeyOf(FiledAs(path, s, fill)) == FiledKey(path, s, fill)
    ensures var f := FiledAs(path, s, fill);
      && f.symbol == fill.symbol && f.side == fill.side && f.quantity == fill.quantity
      && f.price == fill.price && f.timestamp == fill.timestamp && f.commission == fill.commission
  {
    hide ByBroker;
  }

  /** Both paths store a fill under one key unless its id names one order here and another's at the broker. */
  lemma PathsAgreeExactly(s: Service, fill: Fill)
    requires s.Valid()
    ensures FiledKey(Live, s, fill) == FiledKey(Reconciled, s, fill) <==>
            !(&& (fill.orderId in s.oms.orders || fill.orderId in s.table.rows)
              && ByBroker(s.table, fill.orderId).Some? && ByBroker(s.table, fill.orderId).value != fill.orderId)
  {
    hide ByBroker;
  }

  /** A fill taken in by either path without interruption. */
  function TakenIn(path: Path, s: Service, fill: Fill): Service
    requires s.Valid() && fill.quantity > 0
  {
    match path
    case Live => Delivered(s, fill).0
    case Reconciled => Adopted(s, fill)
  }

  lemma TakenInStores(path: Path, s: Service, fill: Fill)
    requires s.Valid() && fill.quantity > 0
    ensures var filed := FiledAs(path, s, fill);
      && TakenIn(path, s, fill).store == Append(s.store, filed)
      && TakenIn(path, s, fill).book ==
           if IsNew(s.store, filed) && !(path.Live? && Refuses(s.oms, filed)) then Booked(s.book, filed) else s.book
  {
    hide Delivered, Booked, Refuses;
    if path.Live? {
      DeliveryRefusedExactly(s, fill);
    }
  }

  /**
   * A second arrival, by either path and in any later state of the tables, is stored again exactly
   * when the tables now name another order for it and nothing was stored under that one; then it
   * is booked again too, unless the order manager refuses it.
   */
  lemma SecondArrivalExactly(s: Service, first: Path, t: Service, second: Path, fill: Fill)
    requires s.Valid() && t.Valid() && fill.quantity > 0
    requires t.store == TakenIn(first, s, fill).store
    ensures TakenIn(second, t, fill).store != t.store <==>
            && OwnerOf(second, t, fill.orderId) != OwnerOf(first, s, fill.orderId)
            && FiledKey(second, t, fill) !in s.store.seen
    ensures var filed, again := FiledAs(second, t, fill), TakenIn(second, t, fill);
      again.store != t.store ==>
        && again.store.fills == t.store.fills + [filed]
        && again.book == if second.Live? && Refuses(t.oms, filed) then t.book else Booked(t.book, filed)
  {
    hide TakenIn, FiledAs, OwnerOf, Service.Valid, Refuses, Booked;
    TakenInStores(first, s, fill);
    TakenInStores(second, t, fill);
    FiledUnderOwner(first, s, fill);
    FiledUnderOwner(second, t, fill);
    assert |t.store.fills + [FiledAs(second, t, fill)]| != |t.store.fills|;
  }

  /**
   * The instance that arises: the table learns the broker's id of an order only after its fill
   * arrived, and the reconciliation books the fill a second time.
   */
  lemma LateBrokerIdDoublesTheFill(s: Service, order: Order, fill: Fill)
    requires s.Valid() && fill.quantity > 0 && s.store == Store([], {})
    requires s.table == Table([], map[], map[]) && fill.orderId !in s.oms.orders
    requires order.brokerOrderId == Some(fill.orderId) && order.id != fill.orderId
    ensures var first := Delivered(s, fill).0;
      var learned := first.(table := Persisted(first.table, order));
      && learned.Valid()
      && Adopted(learned, fill).book == Booked(Booked(s.book, fill.(brokerOrderId := Some(fill.orderId))),
                                              fill.(orderId := order.id, brokerOrderId := Some(fill.orderId)))
  {
    hide Booked;
    var first := Delivered(s, fill).0;
    var learned := first.(table := Persisted(first.table, order));
    assert learned.table.ids == [order.id];
    assert ByBroker(learned.table, fill.orderId) == Some(order.id);
  }
}
