// Fills under way, stored, booked and lost, over any interleaving of deliveries, reconciliations and restarts.
module ReplayRuns {
  import opened Money
  import opened Domain
  import opened Averages
  import opened Portfolios
  import opened Replays
  import Oms
  import Ledgers
  import PB = PaperBrokers

  /**
   * `arriving` are fills already filed under an order and not yet stored; `inFlight` are stored and
   * not yet booked. `booked` is what the portfolio was told of, in order; `lost` what was refused.
   */
  datatype World = World(service: Service, arriving: seq<Pending>, inFlight: seq<Pending>, booked: seq<Fill>, lost: seq<Fill>)

  /**
   * One uninterrupted piece of work. Any number of fills may be under way; the one at an index goes
   * on. Order table and order manager may change freely, and the process may be replaced.
   */
  datatype Event =
    | Arrive(path: Path, incoming: Fill)
    | Keep(i: nat)
    | Resume(i: nat)
    | Marked(symbol: Symbol, price: Paise)
    | TableBecomes(table: Table)
    | OrdersBecome(oms: Oms.State)
    | Restarted

  ghost predicate Proper(e: Event) {
    match e
    case Arrive(_, fill) => fill.quantity > 0 && fill.timestamp >= 0
    case TableBecomes(table) => table.Valid()
    case OrdersBecome(oms) => oms.Valid()
    case _ => true
  }

  function Without<T>(s: seq<T>, i: nat): seq<T>
    requires i < |s|
  {
    s[..i] + s[i + 1..]
  }

  function FillsIn(ps: seq<Pending>): seq<Fill> {
    seq(|ps|, k requires 0 <= k < |ps| => ps[k].fill)
  }

  function Kept(w: World, i: nat): World
    requires i < |w.arriving|
  {
    var p := w.arriving[i];
    var s := w.service;
    w.(arriving := Without(w.arriving, i),
       service := s.(store := Append(s.store, p.fill)),
       inFlight := if IsNew(s.store, p.fill) then w.inFlight + [p] else w.inFlight)
  }

  ghost function Continued(w: World, i: nat): World
    requires w.service.Valid() && i < |w.inFlight| && w.inFlight[i].fill.quantity > 0
  {
    var p := w.inFlight[i];
    var (s, outcome) := Resumed(w.service, p);
    w.(service := s,
       inFlight := if outcome.Parked? then w.inFlight[i := p.(parked := true)] else Without(w.inFlight, i),
       booked := if outcome.Applied? then w.booked + [p.fill] else w.booked,
       lost := if outcome.Threw? then w.lost + [p.fill] else w.lost)
  }

  /** A new process: fills under way are gone, the books come from the store, the order manager is empty. */
  function Rebooted(opening: Paise, w: World): World {
    World(Service(w.service.table, Oms.Empty, w.service.store, Rebuilt(opening, w.service.store)),
          [], [], Since(w.service.store, 0), [])
  }

  ghost predicate Usable(p: Pending) {
    p.fill.quantity > 0 && p.fill.timestamp >= 0
  }

  ghost predicate AllUsable(ps: seq<Pending>) {
    forall p :: p in ps ==> Usable(p)
  }

  ghost function Step(opening: Paise, w: World, e: Event): World
    requires w.service.Valid() && AllUsable(w.inFlight) && Proper(e)
  {
    var s := w.service;
    match e
    case Arrive(path, incoming) => w.(arriving := w.arriving + [Pending(path, FiledAs(path, s, incoming), false)])
    case Keep(i) => if i < |w.arriving| then Kept(w, i) else w
    case Resume(i) => if i < |w.inFlight| then assert Usable(w.inFlight[i]); Continued(w, i) else w
    case Marked(symbol, price) => w.(service := s.(book := Mark(s.book, symbol, price)))
    case TableBecomes(table) => w.(service := s.(table := table))
    case OrdersBecome(oms) => w.(service := s.(oms := oms))
    case Restarted => Rebooted(opening, w)
  }

  // ----- What every run keeps -----

  ghost predicate SoundStore(store: Store) {
    Keyed(store) && forall f :: f in store.fills ==> f.quantity > 0 && f.timestamp >= 0
  }

  /** Every stored fill is booked, lost or in flight, as often as it was stored. */
  ghost predicate Conserved(stored: seq<Fill>, inFlight: seq<Pending>, booked: seq<Fill>, lost: seq<Fill>) {
    multiset(booked) + multiset(lost) + multiset(FillsIn(inFlight)) == multiset(stored)
  }

  ghost predicate Accounted(opening: Paise, w: World) {
    && w.service.Valid()
    && SoundStore(w.service.store)
    && AllUsable(w.arriving) && AllUsable(w.inFlight)
    && Conserved(w.service.store.fills, w.inFlight, w.booked, w.lost)
    && SameAccounts(w.service.book, Ledgers.BookAll(Opening(opening), w.booked))
  }

  lemma BookOneMore(opening: Paise, book: Book, booked: seq<Fill>, fill: Fill)
    requires SameAccounts(book, Ledgers.BookAll(Opening(opening), booked))
    ensures SameAccounts(Booked(book, fill), Ledgers.BookAll(Opening(opening), booked + [fill]))
  {
    hide Booked, SameAccounts;
    assert (booked + [fill])[..|booked|] == booked;
    BookingIgnoresMarks(book, Ledgers.BookAll(Opening(opening), booked), fill);
  }

  lemma SplitAt<T>(s: seq<T>, i: nat)
    requires i < |s|
    ensures s == s[..i] + [s[i]] + s[i + 1..]
    ensures multiset(s) == multiset(Without(s, i)) + multiset{s[i]}
  {
    assert s == s[..i] + [s[i]] + s[i + 1..];
  }

  lemma FillsWithout(ps: seq<Pending>, i: nat)
    requires i < |ps|
    ensures FillsIn(Without(ps, i)) == Without(FillsIn(ps), i)
    ensures multiset(FillsIn(ps)) == multiset(FillsIn(Without(ps, i))) + multiset{ps[i].fill}
  {
    assert FillsIn(Without(ps, i)) == Without(FillsIn(ps), i);
    SplitAt(FillsIn(ps), i);
  }

  lemma FillsAppend(ps: seq<Pending>, p: Pending)
    ensures FillsIn(ps + [p]) == FillsIn(ps) + [p.fill]
    ensures multiset(FillsIn(ps + [p])) == multiset(FillsIn(ps)) + multiset{p.fill}
  {
    assert FillsIn(ps + [p]) == FillsIn(ps) + [p.fill];
  }

  lemma ParkingKeepsFills(ps: seq<Pending>, i: nat)
    requires i < |ps|
    ensures FillsIn(ps[i := ps[i].(parked := true)]) == FillsIn(ps)
  {
  }

  lemma ArriveAccounts(opening: Paise, w: World, path: Path, incoming: Fill)
    requires Accounted(opening, w) && Proper(Arrive(path, incoming))
    ensures Accounted(opening, Step(opening, w, Arrive(path, incoming)))
  {
    hide FiledAs, SameAccounts, SoundStore, Conserved;
    FiledUnderOwner(path, w.service, incoming);
  }

  lemma KeepingKeepsStore(store: Store, fill: Fill)
    requires SoundStore(store) && fill.quantity > 0 && fill.timestamp >= 0
    ensures SoundStore(Append(store, fill))
  {
    hide Keyed;
    AppendKeepsKeyed(store, fill);
  }

  lemma KeepConserves(stored: seq<Fill>, inFlight: seq<Pending>, booked: seq<Fill>, lost: seq<Fill>, p: Pending)
    requires Conserved(stored, inFlight, booked, lost)
    ensures Conserved(stored + [p.fill], inFlight + [p], booked, lost)
  {
    hide FillsIn;
    FillsAppend(inFlight, p);
  }

  lemma KeepAccounts(opening: Paise, w: World, i: nat)
    requires Accounted(opening, w)
    ensures Accounted(opening, Step(opening, w, Keep(i)))
  {
    hide SameAccounts, SoundStore, Conserved, Keyed, IsNew;
    if i < |w.arriving| {
      var s, p := w.service, w.arriving[i];
      assert Usable(p);
      KeepingKeepsStore(s.store, p.fill);
      StoringKeepsValid(s, Append(s.store, p.fill));
      if IsNew(s.store, p.fill) {
        KeepConserves(s.store.fills, w.inFlight, w.booked, w.lost, p);
      }
    }
  }

  lemma ResumeConserves(stored: seq<Fill>, inFlight: seq<Pending>, booked: seq<Fill>, lost: seq<Fill>, i: nat)
    requires Conserved(stored, inFlight, booked, lost) && i < |inFlight|
    ensures Conserved(stored, Without(inFlight, i), booked + [inFlight[i].fill], lost)
    ensures Conserved(stored, Without(inFlight, i), booked, lost + [inFlight[i].fill])
    ensures Conserved(stored, inFlight[i := inFlight[i].(parked := true)], booked, lost)
  {
    hide FillsIn, Without;
    FillsWithout(inFlight, i);
    ParkingKeepsFills(inFlight, i);
  }

  lemma ResumeAccounts(opening: Paise, w: World, i: nat)
    requires Accounted(opening, w)
    ensures Accounted(opening, Step(opening, w, Resume(i)))
  {
    hide SameAccounts, SoundStore, Conserved, Resumed, Service.Valid, IsRefused, Booked, Ledgers.BookAll;
    if i < |w.inFlight| {
      var s, p := w.service, w.inFlight[i];
      assert Usable(p);
      ResumingKeepsValid(s, p);
      RefusedExactly(s, p);
      ResumeConserves(s.store.fills, w.inFlight, w.booked, w.lost, i);
      BookOneMore(opening, s.book, w.booked, p.fill);
    }
  }

  lemma MarkAccounts(opening: Paise, w: World, symbol: Symbol, price: Paise)
    requires Accounted(opening, w)
    ensures Accounted(opening, Step(opening, w, Event.Marked(symbol, price)))
  {
    hide SameAccounts, Mark, SoundStore, Conserved;
    MarkingKeepsAccounts(w.service.book, Ledgers.BookAll(Opening(opening), w.booked), symbol, price);
  }

  lemma SinceEpochIsAll(store: Store)
    requires SoundStore(store)
    ensures Since(store, 0) == SortedByTime(store.fills)
    ensures multiset(Since(store, 0)) == multiset(store.fills)
  {
    hide Keyed, SortedByTime, NotBefore;
    EpochHidesNothing(store.fills);
    SortKeepsFills(store.fills);
  }

  lemma RestartConserves(store: Store)
    requires SoundStore(store)
    ensures Conserved(store.fills, [], Since(store, 0), [])
  {
    hide Keyed, Since;
    SinceEpochIsAll(store);
  }

  lemma SameAsItself(b: Book)
    ensures SameAccounts(b, b)
  {
  }

  lemma RestartAccounts(opening: Paise, w: World)
    requires Accounted(opening, w)
    ensures Accounted(opening, Rebooted(opening, w))
  {
    hide SameAccounts, Ledgers.BookAll, SoundStore, Conserved, Since;
    RestartConserves(w.service.store);
    SameAsItself(Rebuilt(opening, w.service.store));
  }

  lemma StepAccounts(opening: Paise, w: World, e: Event)
    requires Accounted(opening, w) && Proper(e)
    ensures Accounted(opening, Step(opening, w, e))
  {
    hide Kept, Continued, Rebooted, Mark, SameAccounts, SoundStore, Conserved, FiledAs;
    match e
    case Arrive(path, fill) => ArriveAccounts(opening, w, path, fill);
    case Keep(i) => KeepAccounts(opening, w, i);
    case Resume(i) => ResumeAccounts(opening, w, i);
    case Marked(symbol, price) => MarkAccounts(opening, w, symbol, price);
    case Restarted => RestartAccounts(opening, w);
    case TableBecomes(_) =>
    case OrdersBecome(_) =>
  }

  const Blank := Service(Table([], map[], map[]), Oms.Empty, Store([], {}), Opening(0))

  ghost predicate ProperAll(events: seq<Event>) {
    forall e :: e in events ==> Proper(e)
  }

  ghost function Run(opening: Paise, events: seq<Event>): (w: World)
    requires ProperAll(events)
    ensures Accounted(opening, w) && w.service.Valid()
  {
    if events == [] then World(Blank.(book := Opening(opening)), [], [], [], [])
    else
      var before := Run(opening, events[..|events| - 1]);
      StepAccounts(opening, before, events[|events| - 1]);
      Step(opening, before, events[|events| - 1])
  }

  lemma RunOneMore(opening: Paise, events: seq<Event>, e: Event)
    requires ProperAll(events) && Proper(e)
    ensures ProperAll(events + [e])
    ensures Run(opening, events + [e]) == Step(opening, Run(opening, events), e)
  {
    hide Step, Accounted, Proper;
    assert (events + [e])[..|events|] == events;
  }

  // ----- What a restart rebuilds -----

  lemma PositiveInAnyOrder(w: World)
    requires SoundStore(w.service.store) && Conserved(w.service.store.fills, w.inFlight, w.booked, w.lost)
    ensures PositiveFills(SortedByTime(w.service.store.fills)) && PositiveFills(w.booked)
  {
    hide Keyed, FillsIn;
    var stored := w.service.store.fills;
    SortKeepsFills(stored);
    forall f | f in SortedByTime(stored)
      ensures f.quantity > 0
    {
      assert f in multiset(SortedByTime(stored));
      assert f in stored;
    }
    forall f | f in w.booked
      ensures f.quantity > 0
    {
      assert f in multiset(w.booked);
      assert f in multiset(stored);
    }
  }

  /**
   * At any moment of any run a restart would rebuild the live cash and the live quantity of every
   * symbol, plus exactly what the refused fills and the fills in flight would have moved.
   */
  lemma RestartKeepsCashAndQuantities(opening: Paise, events: seq<Event>, symbol: Symbol)
    requires ProperAll(events)
    ensures var w := Run(opening, events);
      var rebuilt := Rebuilt(opening, w.service.store);
      && rebuilt.cash == w.service.book.cash + PB.CashFlows(w.lost) + PB.CashFlows(FillsIn(w.inFlight))
      && rebuilt.Quantity(symbol) ==
           w.service.book.Quantity(symbol) + Ledgers.NetBought(w.lost, symbol) + Ledgers.NetBought(FillsIn(w.inFlight), symbol)
  {
    hide Run, SameAccounts, Ledgers.BookAll, Ledgers.NetBought, PB.CashFlows, FillsIn, Keyed;
    var w := Run(opening, events);
    var stored := w.service.store.fills;
    EpochHidesNothing(stored);
    SortKeepsFills(stored);
    PositiveInAnyOrder(w);
    TotalsIgnoreOrder(SortedByTime(stored), stored, symbol);
    TotalsOfUnion(w.booked, w.lost, FillsIn(w.inFlight), stored, symbol);
    Ledgers.BookAllTotals(Opening(opening), SortedByTime(stored), symbol);
    Ledgers.BookAllTotals(Opening(opening), w.booked, symbol);
    AccountsAgree(w.service.book, Ledgers.BookAll(Opening(opening), w.booked));
  }

  /** Over any run, deliveries, reconciliations and restarts together, no key is booked twice. */
  lemma NothingIsBookedTwice(opening: Paise, events: seq<Event>)
    requires ProperAll(events)
    ensures DistinctKeys(Run(opening, events).booked)
  {
    hide Run, SameAccounts, FillsIn, DistinctKeys, Service.Valid, AllUsable;
    var w := Run(opening, events);
    DistinctInPart(w.booked, w.service.store.fills);
  }

  // ----- Redelivery -----

  /** The same fill once more: it arrives by either path, and its turn to be stored comes. */
  ghost function Redelivered(opening: Paise, w: World, path: Path, fill: Fill): World
    requires Accounted(opening, w) && Proper(Arrive(path, fill))
  {
    StepAccounts(opening, w, Arrive(path, fill));
    Step(opening, Step(opening, w, Arrive(path, fill)), Keep(|w.arriving|))
  }

  /** A redelivery changes nothing exactly when a fill of its key is stored. */
  lemma RedeliveryChangesNothingExactly(opening: Paise, w: World, path: Path, fill: Fill)
    requires Accounted(opening, w) && Proper(Arrive(path, fill))
    ensures Redelivered(opening, w, path, fill) == w <==>
            exists f :: f in w.service.store.fills && KeyOf(f) == FiledKey(path, w.service, fill)
  {
    hide FiledAs, SameAccounts, KeyOf, FiledKey, DistinctKeys, Conserved;
    var s := w.service;
    var p := Pending(path, FiledAs(path, s, fill), false);
    FiledUnderOwner(path, s, fill);
    assert Without(w.arriving + [p], |w.arriving|) == w.arriving;
    assert |s.store.fills + [p.fill]| != |s.store.fills|;
  }

  ghost predicate NoRestart(events: seq<Event>) {
    forall e :: e in events ==> !e.Restarted?
  }

  /** What was stored stays known, through restarts too. */
  lemma StepRemembers(opening: Paise, w: World, e: Event)
    requires Accounted(opening, w) && Proper(e)
    ensures w.service.store.seen <= Step(opening, w, e).service.store.seen
  {
    hide FiledAs, Resumed, Service.Valid, Mark, Rebuilt, Since, KeyOf, Conserved, SameAccounts, SoundStore;
    if e.Resume? && e.i < |w.inFlight| {
      assert Usable(w.inFlight[e.i]);
      ResumingKeepsValid(w.service, w.inFlight[e.i]);
    }
  }

  lemma {:induction false} RunRemembers(opening: Paise, events: seq<Event>, later: seq<Event>)
    requires ProperAll(events + later)
    ensures ProperAll(events)
    ensures Run(opening, events).service.store.seen <= Run(opening, events + later).service.store.seen
  {
    hide Step, Accounted, Proper;
    PartsAreProper(events, later);
    if later == [] {
      assert events + later == events;
    } else {
      var n := |later| - 1;
      assert events + later == events + later[..n] + [later[n]];
      PartsAreProper(events + later[..n], [later[n]]);
      RunRemembers(opening, events, later[..n]);
      RunOneMore(opening, events + later[..n], later[n]);
      StepRemembers(opening, Run(opening, events + later[..n]), later[n]);
    }
  }

  lemma PartsAreProper(a: seq<Event>, b: seq<Event>)
    requires ProperAll(a + b)
    ensures ProperAll(a) && ProperAll(b)
  {
    hide Proper;
    forall e | e in a ensures Proper(e) { assert e in a + b; }
    forall e | e in b ensures Proper(e) { assert e in a + b; }
  }

  ghost predicate WaitsOrIsKnown(w: World, p: Pending) {
    p in w.arriving || KeyOf(p.fill) in w.service.store.seen
  }

  lemma StepKeepsWaiting(opening: Paise, w: World, e: Event, p: Pending)
    requires Accounted(opening, w) && Proper(e) && !e.Restarted? && WaitsOrIsKnown(w, p)
    ensures WaitsOrIsKnown(Step(opening, w, e), p)
  {
    hide FiledAs, Resumed, Service.Valid, Mark, KeyOf, Conserved, SameAccounts, SoundStore;
    StepRemembers(opening, w, e);
    if e.Keep? && e.i < |w.arriving| && p in w.arriving {
      SplitAt(w.arriving, e.i);
    }
  }

  /** Until a restart, what arrived is still waiting or its key is known. */
  lemma {:induction false} ArrivalsAreKept(opening: Paise, events: seq<Event>, path: Path, fill: Fill, during: seq<Event>)
    requires ProperAll(events + [Arrive(path, fill)] + during) && NoRestart(during)
    ensures ProperAll(events)
    ensures WaitsOrIsKnown(Run(opening, events + [Arrive(path, fill)] + during),
                           Pending(path, FiledAs(path, Run(opening, events).service, fill), false))
  {
    hide FiledAs, Accounted, Proper, Kept, Continued, Rebooted, Mark, WaitsOrIsKnown;
    var e := Arrive(path, fill);
    PartsAreProper(events + [e], during);
    PartsAreProper(events, [e]);
    var p := Pending(path, FiledAs(path, Run(opening, events).service, fill), false);
    if during == [] {
      assert events + [e] + during == events + [e];
      assert Proper(e) by { assert e in [e]; }
      RunOneMore(opening, events, e);
      NewlyWaits(opening, Run(opening, events), path, fill);
    } else {
      var n := |during| - 1;
      assert events + [e] + during == events + [e] + during[..n] + [during[n]];
      PartsAreProper(events + [e] + during[..n], [during[n]]);
      ArrivalsAreKept(opening, events, path, fill, during[..n]);
      RunOneMore(opening, events + [e] + during[..n], during[n]);
      StepKeepsWaiting(opening, Run(opening, events + [e] + during[..n]), during[n], p);
    }
  }

  lemma NewlyWaits(opening: Paise, w: World, path: Path, fill: Fill)
    requires Accounted(opening, w) && Proper(Arrive(path, fill))
    ensures WaitsOrIsKnown(Step(opening, w, Arrive(path, fill)), Pending(path, FiledAs(path, w.service, fill), false))
  {
    hide FiledAs, Accounted;
  }

  /**
   * A fill arrives in any history and is no longer waiting to be stored; anything follows, restarts
   * included. If the order table then names the same order for it, the fill coming back by either
   * path changes nothing.
   */
  lemma RedeliveryChangesNothing(opening: Paise, events: seq<Event>, path: Path, fill: Fill, during: seq<Event>,
                                 after: seq<Event>, again: Path)
    requires ProperAll(events + [Arrive(path, fill)] + during + after) && NoRestart(during)
    requires ProperAll(events) && ProperAll(events + [Arrive(path, fill)] + during)
    requires Pending(path, FiledAs(path, Run(opening, events).service, fill), false)
               !in Run(opening, events + [Arrive(path, fill)] + during).arriving
    requires OwnerOf(again, Run(opening, events + [Arrive(path, fill)] + during + after).service, fill.orderId)
             == OwnerOf(path, Run(opening, events).service, fill.orderId)
    ensures Proper(Arrive(path, fill))
    ensures var w := Run(opening, events + [Arrive(path, fill)] + during + after);
            Redelivered(opening, w, again, fill) == w
  {
    hide Run, FiledAs, OwnerOf, Redelivered, SameAccounts, DistinctKeys, Conserved, Service.Valid, AllUsable;
    var e := Arrive(path, fill);
    assert e in events + [e] + during + after;
    var first, w := Run(opening, events).service, Run(opening, events + [e] + during + after);
    ArrivalsAreKept(opening, events, path, fill, during);
    RunRemembers(opening, events + [e] + during, after);
    FiledUnderOwner(path, first, fill);
    FiledUnderOwner(again, w.service, fill);
    RedeliveryChangesNothingExactly(opening, w, again, fill);
  }

  // ----- A delivery that nothing interrupts -----

  /** Arriving, stored and resumed without a break is the uninterrupted delivery of the service. */
  lemma UninterruptedIsDelivered(opening: Paise, w: World, fill: Fill)
    requires Accounted(opening, w) && Proper(Arrive(Live, fill)) && w.arriving == [] && w.inFlight == []
    ensures var arrived := Step(opening, w, Arrive(Live, fill));
      && Accounted(opening, arrived)
      && var kept := Step(opening, arrived, Keep(0));
      && Accounted(opening, kept)
      && var resumed := Step(opening, kept, Resume(0));
      && Accounted(opening, resumed)
      && Step(opening, resumed, Resume(0)).service == Delivered(w.service, fill).0
  {
    hide Resolved, Resumed, SameAccounts, Conserved, SoundStore, IsNew;
    FiledUnderOwner(Live, w.service, fill);
    var arrived := Step(opening, w, Arrive(Live, fill));
    StepAccounts(opening, w, Arrive(Live, fill));
    var kept := Step(opening, arrived, Keep(0));
    StepAccounts(opening, arrived, Keep(0));
    var resumed := Step(opening, kept, Resume(0));
    StepAccounts(opening, kept, Resume(0));
    var filed := Resolved(w.service, fill);
    assert Without(arrived.arriving, 0) == [];
    if IsNew(w.service.store, filed) {
      assert kept.inFlight == [Pending(Live, filed, false)];
      RefusedExactly(kept.service, kept.inFlight[0]);
      assert Without(kept.inFlight, 0) == [];
    }
  }
}
