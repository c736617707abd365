// The objects behind the service: repositories, fill delivery, startup replay, reconciliation's adoption.
module TradingServices {
  import opened Money
  import opened Domain
  import opened Portfolios
  import opened Replays
  import Oms
  import Ledgers

  class MemoryFillRepository {
    var fills: seq<Fill>
    var seen: set<FillKey>

    ghost function Model(): Store
      reads this
    {
      Store(fills, seen)
    }

    constructor ()
      ensures Model() == Store([], {})
    {
      fills, seen := [], {};
    }

    method AppendFill(fill: Fill) returns (isNew: bool)
      modifies this
      ensures isNew <==> IsNew(old(Model()), fill)
      ensures Model() == Append(old(Model()), fill)
    {
      var key := KeyOf(fill);
      if key in seen {
        return false;
      }
      seen := seen + {key};
      fills := fills + [fill];
      return true;
    }

    /** The stored fills from a moment on, in time order. */
    method ReadSince(timestamp: Timestamp) returns (r: seq<Fill>)
      ensures r == Since(Model(), timestamp)
    {
      var kept: seq<Fill> := [];
      for i := 0 to |fills|
        invariant kept == NotBefore(fills[..i], timestamp)
      {
        assert fills[..i + 1][..i] == fills[..i];
        if fills[i].timestamp >= timestamp {
          kept := kept + [fills[i]];
        }
      }
      assert fills[..|fills|] == fills;
      r := SortedByTime(kept);
    }
  }

  class MemoryOrderRepository {
    var ids: seq<Id>
    var byId: map<Id, Order>
    var byKey: map<Key, Id>

    ghost function Model(): Table
      reads this
    {
      Table(ids, byId, byKey)
    }

    ghost predicate Valid()
      reads this
    {
      Model().Valid()
    }

    constructor ()
      ensures Valid() && Model() == Table([], map[], map[])
    {
      ids, byId, byKey := [], map[], map[];
    }

    /** Refused when the idempotency key is taken. */
    method Insert(order: Order) returns (ok: bool)
      requires Valid()
      modifies this
      ensures Valid() && Model() == Inserted(old(Model()), order)
      ensures ok <==> order.request.idempotencyKey !in old(byKey)
    {
      if order.request.idempotencyKey in byKey {
        return false;
      }
      if order.id !in byId {
        ids := ids + [order.id];
      }
      byId := byId[order.id := order];
      byKey := byKey[order.request.idempotencyKey := order.id];
      return true;
    }

    method Persist(order: Order)
      requires Valid()
      modifies this
      ensures Valid() && Model() == Persisted(old(Model()), order)
    {
      if order.id in byId {
        byId := byId[order.id := order];
      } else {
        var _ := Insert(order);
      }
    }

    method FindByBrokerOrderId(brokerOrderId: Id) returns (found: Option<Id>)
      requires Valid()
      ensures found == ByBroker(Model(), brokerOrderId)
    {
      for i := 0 to |ids|
        invariant Oms.FindByBrokerId(ids, byId, brokerOrderId) == Oms.FindByBrokerId(ids[i..], byId, brokerOrderId)
      {
        if byId[ids[i]].brokerOrderId == Some(brokerOrderId) {
          return Some(ids[i]);
        }
      }
      return None;
    }
  }

  class TradingService {
    const portfolio: Portfolio
    const oms: Oms.OrderManager
    const orders: MemoryOrderRepository
    const fills: MemoryFillRepository
    var started: bool

    ghost function Model(): Service
      reads portfolio, oms, orders, fills
    {
      Service(orders.Model(), oms.Model(), fills.Model(), portfolio.Model())
    }

    ghost predicate Valid()
      reads portfolio, oms, orders, fills
    {
      portfolio.Valid() && oms.Valid() && orders.Valid()
    }

    constructor (portfolio: Portfolio, oms: Oms.OrderManager, orders: MemoryOrderRepository, fills: MemoryFillRepository)
      requires portfolio.Valid() && oms.Valid() && orders.Valid()
      ensures this.portfolio == portfolio && this.oms == oms && this.orders == orders && this.fills == fills
      ensures Valid() && !started
    {
      this.portfolio, this.oms, this.orders, this.fills := portfolio, oms, orders, fills;
      started := false;
    }

    method ResolveFill(fill: Fill) returns (r: Fill)
      requires Valid()
      ensures r == Resolved(Model(), fill)
    {
      if fill.orderId in oms.orders {
        return fill;
      }
      if fill.orderId in orders.byId {
        return fill;
      }
      var byBroker := orders.FindByBrokerOrderId(fill.orderId);
      if byBroker.None? {
        return fill.(brokerOrderId := Some(fill.orderId));
      }
      return fill.(orderId := byBroker.value, brokerOrderId := Some(fill.orderId));
    }

    /** Writes the order manager's order for an id to the order table, if it holds one. */
    method PersistOrder(id: Id)
      requires Valid()
      modifies orders
      ensures Valid() && Model() == PersistKnown(old(Model()), id)
    {
      hide Oms.State.Valid, Table.Valid, Persisted;
      if id in oms.orders {
        orders.Persist(oms.orders[id]);
      }
    }

    /** The rest of a stored fill's way, up to the next await: parked, booked, or refused. */
    method ResumeFill(p: Pending) returns (outcome: Delivery)
      requires Valid() && p.fill.quantity > 0
      modifies portfolio, oms, orders
      ensures Valid()
      ensures (Model(), outcome) == Resumed(old(Model()), p)
    {
      hide Oms.Filled, Booked, Persisted, Oms.State.Valid, Table.Valid;
      if p.path.Live? && !p.parked {
        if p.fill.orderId !in oms.orders {
          return Parked;
        }
        var error := oms.ApplyFill(p.fill);
        if error.Some? {
          return Threw;
        }
      }
      var _ := portfolio.ApplyFill(p.fill);
      if p.path.Live? {
        PersistOrder(p.fill.orderId);
      }
      return Applied;
    }

    /** A fill from the broker, with nothing happening at the awaits between its pieces. */
    method ApplyFill(incoming: Fill) returns (outcome: Delivery)
      requires Valid() && incoming.quantity > 0
      modifies portfolio, oms, orders, fills
      ensures Valid()
      ensures (Model(), outcome) == Delivered(old(Model()), incoming)
    {
      hide Resumed, Oms.State.Valid, Table.Valid;
      var fill := ResolveFill(incoming);
      var isNew := fills.AppendFill(fill);
      if !isNew {
        return Ignored;
      }
      outcome := ResumeFill(Pending(Live, fill, false));
      if outcome.Parked? {
        outcome := ResumeFill(Pending(Live, fill, true));
      }
    }

    /**
     * Rebuilds a fresh portfolio from the stored fills and marks it from the stored rows of the
     * open positions; a second call changes nothing.
     */
    method Start(opening: Paise, rows: seq<Position>)
      requires Valid() && (!started ==> portfolio.Model() == Opening(opening))
      modifies this`started, portfolio
      ensures Valid() && started
      ensures portfolio.Model() ==
              if old(started) then old(portfolio.Model()) else MarkedAll(Rebuilt(opening, fills.Model()), rows)
    {
      hide Booked, Since, Mark;
      if started {
        return;
      }
      var stored := fills.ReadSince(0);
      for i := 0 to |stored|
        invariant Valid() && fills.Model() == old(fills.Model())
        invariant portfolio.Model() == Ledgers.BookAll(Opening(opening), stored[..i])
      {
        assert stored[..i + 1][..i] == stored[..i];
        var _ := portfolio.ApplyFill(stored[i]);
      }
      assert stored[..|stored|] == stored;
      for i := 0 to |rows|
        invariant Valid() && fills.Model() == old(fills.Model())
        invariant portfolio.Model() == MarkedAll(Rebuilt(opening, fills.Model()), rows[..i])
      {
        assert rows[..i + 1][..i] == rows[..i];
        portfolio.MarkPrice(rows[i].symbol, rows[i].lastPrice);
      }
      assert rows[..|rows|] == rows;
      started := true;
    }

    /** One broker fill of a reconciliation: resolved against the table, stored, and booked if unseen. */
    method AdoptFill(brokerFill: Fill) returns (isNew: bool)
      requires Valid()
      modifies portfolio, fills
      ensures Valid() && Model() == Adopted(old(Model()), brokerFill)
      ensures isNew <==> IsNew(old(fills.Model()), AdoptedAs(old(Model()), brokerFill))
    {
      hide Booked, Oms.State.Valid, Table.Valid;
      var matched := orders.FindByBrokerOrderId(brokerFill.orderId);
      var fill := brokerFill.(
        orderId := if matched.Some? then matched.value else brokerFill.orderId,
        brokerOrderId := Some(brokerFill.orderId));
      isNew := fills.AppendFill(fill);
      if isNew {
        var _ := portfolio.ApplyFill(fill);
      }
    }

    /** The fills the platform never saw, one after the other. */
    method AdoptAll(brokerFills: seq<Fill>) returns (adopted: nat)
      requires Valid()
      modifies portfolio, fills
      ensures Valid() && Model() == AdoptedAll(old(Model()), brokerFills)
    {
      hide Adopted, AdoptedAs, Oms.State.Valid, Table.Valid;
      adopted := 0;
      for i := 0 to |brokerFills|
        invariant Valid() && Model() == AdoptedAll(old(Model()), brokerFills[..i])
      {
        assert brokerFills[..i + 1][..i] == brokerFills[..i];
        var isNew := AdoptFill(brokerFills[i]);
        if isNew {
          adopted := adopted + 1;
        }
      }
      assert brokerFills[..|brokerFills|] == brokerFills;
    }
  }

  function AdoptedAll(s: Service, brokerFills: seq<Fill>): (r: Service)
    requires s.Valid()
    ensures r.Valid() && r.table == s.table
  {
    if brokerFills == [] then s
    else Adopted(AdoptedAll(s, brokerFills[..|brokerFills| - 1]), brokerFills[|brokerFills| - 1])
  }

  /** Reconciling the same broker fills a second time adopts nothing. */
  lemma {:induction false} ReconcilingTwiceIsReconcilingOnce(s: Service, brokerFills: seq<Fill>)
    requires s.Valid()
    ensures AdoptedAll(AdoptedAll(s, brokerFills), brokerFills) == AdoptedAll(s, brokerFills)
  {
    var t := AdoptedAll(s, brokerFills);
    AdoptionIsRemembered(s, brokerFills);
    NothingToAdopt(t, brokerFills);
  }

  lemma {:induction false} AdoptionIsRemembered(s: Service, brokerFills: seq<Fill>)
    requires s.Valid()
    ensures forall f :: f in brokerFills ==> KeyOf(AdoptedAs(s, f)) in AdoptedAll(s, brokerFills).store.seen
  {
    hide Booked, ByBroker;
    if brokerFills != [] {
      var before, last := brokerFills[..|brokerFills| - 1], brokerFills[|brokerFills| - 1];
      assert brokerFills == before + [last];
      AdoptionIsRemembered(s, before);
    }
  }

  lemma {:induction false} NothingToAdopt(t: Service, brokerFills: seq<Fill>)
    requires t.Valid() && forall f :: f in brokerFills ==> KeyOf(AdoptedAs(t, f)) in t.store.seen
    ensures AdoptedAll(t, brokerFills) == t
  {
    hide Booked, ByBroker;
    if brokerFills != [] {
      var before, last := brokerFills[..|brokerFills| - 1], brokerFills[|brokerFills| - 1];
      assert brokerFills == before + [last];
      NothingToAdopt(t, before);
    }
  }
}
