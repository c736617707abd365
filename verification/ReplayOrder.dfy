// When a restart rebuilds the live books whole: averages, realised profit, closed trades and marks.
module ReplayOrder {
  import opened Money
  import opened Domain
  import opened Averages
  import opened Portfolios
  import opened Replays
  import opened ReplayRuns
  import Oms
  import Ledgers
  import PB = PaperBrokers

  // ----- One symbol's fills, or all of them -----

  datatype View = All | Of(symbol: Symbol)

  predicate In(v: View, fill: Fill) {
    v.All? || fill.symbol == v.symbol
  }

  function Only(v: View, fills: seq<Fill>): seq<Fill> {
    if fills == [] then []
    else
      var before, last := Only(v, fills[..|fills| - 1]), fills[|fills| - 1];
      if In(v, last) then before + [last] else before
  }

  lemma OnlyOneMore(v: View, fills: seq<Fill>, fill: Fill)
    ensures Only(v, fills + [fill]) == if In(v, fill) then Only(v, fills) + [fill] else Only(v, fills)
  {
    assert (fills + [fill])[..|fills|] == fills;
  }

  lemma {:induction false} OnlyAppend(v: View, a: seq<Fill>, b: seq<Fill>)
    ensures Only(v, a + b) == Only(v, a) + Only(v, b)
  {
    hide In;
    if b == [] {
      assert a + b == a;
    } else {
      var n := |b| - 1;
      assert b == b[..n] + [b[n]] && a + b == a + b[..n] + [b[n]];
      OnlyAppend(v, a, b[..n]);
      OnlyOneMore(v, a + b[..n], b[n]);
      OnlyOneMore(v, b[..n], b[n]);
    }
  }

  lemma {:induction false} OnlyAll(fills: seq<Fill>)
    ensures Only(All, fills) == fills
  {
    if fills != [] {
      OnlyAll(fills[..|fills| - 1]);
    }
  }

  lemma {:induction false} OnlyIsPart(v: View, fills: seq<Fill>)
    ensures forall f :: f in Only(v, fills) ==> f in fills
  {
    if fills != [] {
      OnlyIsPart(v, fills[..|fills| - 1]);
    }
  }

  lemma {:induction false} OnlyNone(v: View, fills: seq<Fill>)
    ensures Only(v, fills) == [] <==> forall f :: f in fills ==> !In(v, f)
  {
    hide In;
    if fills != [] {
      var n := |fills| - 1;
      OnlyNone(v, fills[..n]);
      assert fills == fills[..n] + [fills[n]];
    }
  }

  lemma OnlyEndsEarlier(v: View, sorted: seq<Fill>, at: Timestamp)
    requires InTimeOrder(sorted) && sorted != [] && sorted[|sorted| - 1].timestamp == at
    ensures var own := Only(v, sorted); own != [] ==> own[|own| - 1].timestamp <= at
  {
    hide Only;
    OnlyIsPart(v, sorted);
    var own := Only(v, sorted);
    if own != [] {
      var last := own[|own| - 1];
      assert last in own;
      var i :| 0 <= i < |sorted| && sorted[i] == last;
      assert i < |sorted| - 1 ==> sorted[i].timestamp <= at;
    }
  }

  lemma InsertAtEnd(sorted: seq<Fill>, fill: Fill)
    requires sorted != [] ==> sorted[|sorted| - 1].timestamp <= fill.timestamp
    ensures InsertByTime(sorted, fill) == sorted + [fill]
  {
  }

  lemma InsertBefore(before: seq<Fill>, last: Fill, fill: Fill)
    requires fill.timestamp < last.timestamp
    ensures InsertByTime(before + [last], fill) == InsertByTime(before, fill) + [last]
  {
    assert (before + [last])[..|before|] == before;
  }

  lemma PrefixInOrder(before: seq<Fill>, last: Fill)
    requires InTimeOrder(before + [last])
    ensures InTimeOrder(before)
  {
    assert forall i :: 0 <= i < |before| ==> (before + [last])[i] == before[i];
  }

  /** Inserting by time and looking at one symbol can be done in either order. */
  lemma {:induction false} InsertWithinView(v: View, sorted: seq<Fill>, fill: Fill)
    requires InTimeOrder(sorted)
    ensures Only(v, InsertByTime(sorted, fill)) == if In(v, fill) then InsertByTime(Only(v, sorted), fill) else Only(v, sorted)
  {
    hide In, Only, InsertByTime, InTimeOrder;
    if sorted == [] || sorted[|sorted| - 1].timestamp <= fill.timestamp {
      InsertAtEnd(sorted, fill);
      OnlyOneMore(v, sorted, fill);
      if sorted == [] {
        OnlyNone(v, sorted);
      } else {
        OnlyEndsEarlier(v, sorted, sorted[|sorted| - 1].timestamp);
      }
      InsertAtEnd(Only(v, sorted), fill);
    } else {
      var n := |sorted| - 1;
      var before, last := sorted[..n], sorted[n];
      assert sorted == before + [last];
      PrefixInOrder(before, last);
      InsertWithinView(v, before, fill);
      InsertBefore(before, last, fill);
      InsertBefore(Only(v, before), last, fill);
      OnlyOneMore(v, before, last);
      OnlyOneMore(v, InsertByTime(before, fill), last);
    }
  }

  lemma {:induction false} SortWithinView(v: View, fills: seq<Fill>)
    ensures Only(v, SortedByTime(fills)) == SortedByTime(Only(v, fills))
  {
    hide In, InsertByTime;
    if fills != [] {
      var n := |fills| - 1;
      var before := fills[..n];
      SortWithinView(v, before);
      SortSorts(before);
      InsertWithinView(v, SortedByTime(before), fills[n]);
      if In(v, fills[n]) {
        assert (Only(v, before) + [fills[n]])[..|Only(v, before)|] == Only(v, before);
      }
    }
  }

  /** What is stored of a symbol in time order is replayed in stored order, whatever lies between. */
  lemma SortKeepsView(v: View, fills: seq<Fill>)
    requires InTimeOrder(Only(v, fills))
    ensures Only(v, SortedByTime(fills)) == Only(v, fills)
  {
    hide InTimeOrder, SortedByTime;
    SortWithinView(v, fills);
    SortKeepsOrder(Only(v, fills));
  }

  // ----- A position depends on its own symbol's fills -----

  /** Both books hold the same position in a symbol, marks aside, or neither has ever traded it. */
  predicate SameIn(s: Symbol, a: Book, b: Book) {
    (s in a.positions <==> s in b.positions) && (s in a.positions ==> SameHolding(a.positions[s], b.positions[s]))
  }

  lemma BookedElsewhere(b: Book, fill: Fill, s: Symbol)
    requires fill.symbol != s
    ensures SameIn(s, b, Booked(b, fill))
  {
    hide Settle, CashFlow;
  }

  lemma BookedAlike(a: Book, b: Book, fill: Fill)
    requires SameIn(fill.symbol, a, b)
    ensures SameIn(fill.symbol, Booked(a, fill), Booked(b, fill))
  {
    hide Settle, CashFlow;
    SettleIgnoresMarks(PositionOrFlat(a, fill), PositionOrFlat(b, fill), fill);
  }

  lemma {:induction false} HoldingIgnoresOthers(opening: Paise, fills: seq<Fill>, s: Symbol)
    ensures SameIn(s, Ledgers.BookAll(Opening(opening), fills), Ledgers.BookAll(Opening(opening), Only(Of(s), fills)))
  {
    hide Booked;
    if fills != [] {
      var n := |fills| - 1;
      var last, own := fills[n], Only(Of(s), fills[..n]);
      HoldingIgnoresOthers(opening, fills[..n], s);
      var a, b := Ledgers.BookAll(Opening(opening), fills[..n]), Ledgers.BookAll(Opening(opening), own);
      if last.symbol == s {
        assert (own + [last])[..|own|] == own;
        BookedAlike(a, b, last);
      } else {
        BookedElsewhere(a, last, s);
      }
    }
  }

  // ----- Runs that lose nothing, runs that book in stored order -----

  /** No fill in view met the order manager's guard since the process started. */
  ghost predicate Unrefused(opening: Paise, v: View, events: seq<ReplayRuns.Event>)
    requires ProperAll(events)
  {
    || events == []
    || events[|events| - 1].Restarted?
    || (&& Unrefused(opening, v, events[..|events| - 1])
        && !RefusesNow(v, Run(opening, events[..|events| - 1]), events[|events| - 1]))
  }

  /** The event goes on with a fill in view that meets the guard. */
  ghost predicate RefusesNow(v: View, w: World, e: ReplayRuns.Event) {
    e.Resume? && e.i < |w.inFlight| && In(v, w.inFlight[e.i].fill) && IsRefused(w.service, w.inFlight[e.i])
  }

  /** Since the process started, fills in view were booked in the order they were stored. */
  ghost predicate InTurn(opening: Paise, v: View, events: seq<ReplayRuns.Event>)
    requires ProperAll(events)
  {
    || events == []
    || events[|events| - 1].Restarted?
    || (&& InTurn(opening, v, events[..|events| - 1])
        && !Overtakes(v, Run(opening, events[..|events| - 1]), events[|events| - 1]))
  }

  /** The event goes on with a fill in view while an earlier one is still in flight. */
  ghost predicate Overtakes(v: View, w: World, e: ReplayRuns.Event) {
    && e.Resume? && e.i < |w.inFlight| && In(v, w.inFlight[e.i].fill)
    && exists k :: 0 <= k < e.i && In(v, w.inFlight[k].fill)
  }

  /** What one event adds to the lost fills. */
  lemma StepLoses(opening: Paise, v: View, w: World, e: ReplayRuns.Event)
    requires Accounted(opening, w) && Proper(e)
    ensures Only(v, Step(opening, w, e).lost) == [] <==>
            e.Restarted? || (Only(v, w.lost) == [] && !RefusesNow(v, w, e))
  {
    hide Only, In, FiledAs, Resumed, IsRefused, Mark, Rebuilt, Since, SameAccounts, Conserved, SoundStore, Service.Valid;
    OnlyNone(v, []);
    if e.Resume? && e.i < |w.inFlight| {
      var p := w.inFlight[e.i];
      assert Usable(p);
      RefusedExactly(w.service, p);
      OnlyOneMore(v, w.lost, p.fill);
    }
  }

  /** After any run the books lack a refused fill exactly when some fill met the guard since the start. */
  lemma {:induction false} NothingLostExactly(opening: Paise, v: View, events: seq<ReplayRuns.Event>)
    requires ProperAll(events)
    ensures Only(v, Run(opening, events).lost) == [] <==> Unrefused(opening, v, events)
  {
    hide Only, Step, Accounted, Proper, RefusesNow;
    if events == [] {
      OnlyNone(v, []);
    } else {
      var n := |events| - 1;
      assert events == events[..n] + [events[n]];
      PartsAreProper(events[..n], [events[n]]);
      assert events[n] in events;
      NothingLostExactly(opening, v, events[..n]);
      StepLoses(opening, v, Run(opening, events[..n]), events[n]);
    }
  }

  /** In view, what is booked and then what is in flight are the stored fills in stored order. */
  ghost predicate Lined(v: View, w: World) {
    Only(v, w.booked) + Only(v, FillsIn(w.inFlight)) == Only(v, w.service.store.fills)
  }

  lemma KeepLines(opening: Paise, v: View, w: World, i: nat)
    requires Accounted(opening, w) && Lined(v, w)
    ensures Lined(v, Step(opening, w, Keep(i)))
  {
    hide Only, In, FillsIn, SameAccounts, Conserved, SoundStore, Service.Valid, IsNew;
    if i < |w.arriving| {
      var p := w.arriving[i];
      FillsAppend(w.inFlight, p);
      OnlyOneMore(v, FillsIn(w.inFlight), p.fill);
      OnlyOneMore(v, w.service.store.fills, p.fill);
    }
  }

  /** Taking out a fill none of the earlier ones in view precede takes it off the front. */
  lemma TakenFromFront(v: View, ps: seq<Pending>, i: nat)
    requires i < |ps| && In(v, ps[i].fill) ==> forall k :: 0 <= k < i ==> !In(v, ps[k].fill)
    requires i < |ps|
    ensures Only(v, FillsIn(ps)) == (if In(v, ps[i].fill) then [ps[i].fill] else []) + Only(v, FillsIn(Without(ps, i)))
  {
    hide Only, In;
    var fills := FillsIn(ps);
    SplitAt(fills, i);
    FillsWithout(ps, i);
    OnlyAppend(v, fills[..i] + [fills[i]], fills[i + 1..]);
    OnlyOneMore(v, fills[..i], fills[i]);
    OnlyAppend(v, fills[..i], fills[i + 1..]);
    if In(v, ps[i].fill) {
      OnlyNone(v, fills[..i]);
    }
  }

  lemma ResumeLines(opening: Paise, v: View, w: World, i: nat)
    requires Accounted(opening, w) && Lined(v, w) && i < |w.inFlight|
    requires !RefusesNow(v, w, Resume(i)) && !Overtakes(v, w, Resume(i))
    ensures Lined(v, Step(opening, w, Resume(i)))
  {
    hide Only, In, FillsIn, Resumed, IsRefused, SameAccounts, Conserved, SoundStore, Service.Valid;
    var p := w.inFlight[i];
    assert Usable(p);
    ResumingKeepsValid(w.service, p);
    RefusedExactly(w.service, p);
    ParkingKeepsFills(w.inFlight, i);
    TakenFromFront(v, w.inFlight, i);
    OnlyOneMore(v, w.booked, p.fill);
  }

  lemma RestartLines(opening: Paise, v: View, w: World)
    requires Accounted(opening, w) && InTimeOrder(Only(v, w.service.store.fills))
    ensures Lined(v, Rebooted(opening, w))
  {
    hide Only, Since, SameAccounts, Conserved, InTimeOrder, Service.Valid, Rebuilt, Keyed;
    SinceEpochIsAll(w.service.store);
    SortKeepsView(v, w.service.store.fills);
    assert FillsIn([]) == [];
    OnlyNone(v, []);
  }

  lemma StepLines(opening: Paise, v: View, w: World, e: ReplayRuns.Event)
    requires Accounted(opening, w) && Proper(e) && Lined(v, w) && !e.Restarted?
    requires !RefusesNow(v, w, e) && !Overtakes(v, w, e)
    ensures Lined(v, Step(opening, w, e))
  {
    hide Only, Kept, Continued, Mark, SameAccounts, SoundStore, Conserved, FiledAs, FillsIn, RefusesNow, Overtakes;
    match e
    case Keep(i) => KeepLines(opening, v, w, i);
    case Resume(i) =>
      if i < |w.inFlight| {
        ResumeLines(opening, v, w, i);
      }
    case _ =>
  }

  /** The store only grows at its end. */
  lemma StepExtends(opening: Paise, w: World, e: ReplayRuns.Event)
    requires Accounted(opening, w) && Proper(e)
    ensures w.service.store.fills <= Step(opening, w, e).service.store.fills
  {
    hide FiledAs, Resumed, Service.Valid, Mark, Rebuilt, Since, KeyOf, Conserved, SameAccounts, SoundStore;
    if e.Resume? && e.i < |w.inFlight| {
      assert Usable(w.inFlight[e.i]);
      ResumingKeepsValid(w.service, w.inFlight[e.i]);
    }
  }

  lemma EarlierInOrder(v: View, early: seq<Fill>, late: seq<Fill>)
    requires early <= late && InTimeOrder(Only(v, late))
    ensures InTimeOrder(Only(v, early))
  {
    hide Only;
    assert late == early + late[|early|..];
    OnlyAppend(v, early, late[|early|..]);
    assert forall i :: 0 <= i < |Only(v, early)| ==> Only(v, early)[i] == Only(v, late)[i];
  }

  lemma {:induction false} RunLines(opening: Paise, v: View, events: seq<ReplayRuns.Event>)
    requires ProperAll(events) && Unrefused(opening, v, events) && InTurn(opening, v, events)
    requires InTimeOrder(Only(v, Run(opening, events).service.store.fills))
    ensures Lined(v, Run(opening, events))
  {
    hide Only, Step, Accounted, Proper, RefusesNow, Overtakes, InTimeOrder;
    if events == [] {
      assert FillsIn([]) == [];
      OnlyNone(v, []);
    } else {
      var n := |events| - 1;
      assert events == events[..n] + [events[n]];
      PartsAreProper(events[..n], [events[n]]);
      assert events[n] in events;
      var before := Run(opening, events[..n]);
      StepExtends(opening, before, events[n]);
      EarlierInOrder(v, before.service.store.fills, Run(opening, events).service.store.fills);
      if events[n].Restarted? {
        RestartLines(opening, v, before);
        RestartIsReboot(opening, before);
      } else {
        RunLines(opening, v, events[..n]);
        StepLines(opening, v, before, events[n]);
      }
    }
  }

  lemma RestartIsReboot(opening: Paise, w: World)
    requires Accounted(opening, w)
    ensures Proper(Restarted) && Step(opening, w, Restarted) == Rebooted(opening, w)
  {
  }

  // ----- The main results -----

  lemma BookedIsReplayed(opening: Paise, v: View, events: seq<ReplayRuns.Event>)
    requires ProperAll(events) && Unrefused(opening, v, events) && InTurn(opening, v, events)
    requires Only(v, FillsIn(Run(opening, events).inFlight)) == []
    requires InTimeOrder(Only(v, Run(opening, events).service.store.fills))
    ensures Only(v, Run(opening, events).booked) == Only(v, Since(Run(opening, events).service.store, 0))
  {
    hide Run, Only, FillsIn, InTimeOrder, Since, SoundStore, SameAccounts, Conserved, Unrefused, InTurn;
    RunLines(opening, v, events);
    var store := Run(opening, events).service.store;
    SinceEpochIsAll(store);
    SortKeepsView(v, store.fills);
  }

  /**
   * A restart rebuilds a symbol's quantity, average and realised profit when its own fills were
   * stored in time order and booked in stored order, none met the guard and none is in flight,
   * whatever happened to other symbols.
   */
  lemma RestartKeepsHolding(opening: Paise, events: seq<ReplayRuns.Event>, s: Symbol)
    requires ProperAll(events) && Unrefused(opening, Of(s), events) && InTurn(opening, Of(s), events)
    requires Only(Of(s), FillsIn(Run(opening, events).inFlight)) == []
    requires InTimeOrder(Only(Of(s), Run(opening, events).service.store.fills))
    ensures SameIn(s, Run(opening, events).service.book, Rebuilt(opening, Run(opening, events).service.store))
  {
    hide Run, Only, FillsIn, InTimeOrder, Since, SoundStore, Conserved, Unrefused, InTurn, Ledgers.BookAll;
    var w := Run(opening, events);
    BookedIsReplayed(opening, Of(s), events);
    HoldingIgnoresOthers(opening, w.booked, s);
    HoldingIgnoresOthers(opening, Since(w.service.store, 0), s);
  }

  /** With every symbol in order the restart rebuilds the live books whole: all but the marks. */
  lemma RestartEqualsLive(opening: Paise, events: seq<ReplayRuns.Event>)
    requires ProperAll(events) && Unrefused(opening, All, events) && InTurn(opening, All, events)
    requires Run(opening, events).inFlight == [] && InTimeOrder(Run(opening, events).service.store.fills)
    ensures SameAccounts(Run(opening, events).service.book, Rebuilt(opening, Run(opening, events).service.store))
  {
    hide Run, Only, InTimeOrder, Since, SoundStore, Conserved, Unrefused, InTurn, Ledgers.BookAll, SameAccounts;
    var w := Run(opening, events);
    assert FillsIn(w.inFlight) == [];
    OnlyAll([]);
    OnlyAll(w.service.store.fills);
    BookedIsReplayed(opening, All, events);
    OnlyAll(w.booked);
    OnlyAll(Since(w.service.store, 0));
  }

  // ----- Marks -----

  lemma {:induction false} MarkingKeepsAccountsAll(b: Book, rows: seq<Position>)
    ensures SameAccounts(b, MarkedAll(b, rows))
  {
    hide SameAccounts, Mark;
    if rows == [] {
      SameAsItself(b);
    } else {
      var last := rows[|rows| - 1];
      MarkingKeepsAccountsAll(b, rows[..|rows| - 1]);
      MarkingKeepsAccounts(b, MarkedAll(b, rows[..|rows| - 1]), last.symbol, last.lastPrice);
    }
  }

  /** A symbol that has a row ends up marked at a price some row of it carries. */
  lemma {:induction false} MarkedByARow(b: Book, rows: seq<Position>, row: Position)
    requires row in rows && row.symbol in b.positions
    requires forall p :: p in rows && p.symbol == row.symbol ==> p.lastPrice == row.lastPrice
    ensures row.symbol in MarkedAll(b, rows).positions
    ensures MarkedAll(b, rows).positions[row.symbol].lastPrice == row.lastPrice
  {
    var n := |rows| - 1;
    MarkingKeepsAccountsAll(b, rows[..n]);
    if rows[n].symbol != row.symbol {
      assert rows == rows[..n] + [rows[n]];
      MarkedByARow(b, rows[..n], row);
    }
  }

  lemma SameAccountsValid(a: Book, b: Book)
    requires a.Valid() && SameAccounts(a, b)
    ensures b.Valid()
  {
  }

  /** Rows that are the open positions of a book bring its equity back on any book with its accounts. */
  lemma MarksRestoreEquity(a: Book, b: Book, rows: seq<Position>)
    requires a.Valid() && SameAccounts(a, b)
    requires forall p :: p in rows <==> p in OpenPositions(a.symbols, a.positions)
    ensures MarkedAll(b, rows).Valid() && Equity(MarkedAll(b, rows)) == Equity(a)
  {
    hide OpenPositions, Distinct;
    var c := MarkedAll(b, rows);
    MarkingKeepsAccountsAll(b, rows);
    SameAccountsValid(a, b);
    SameAccountsValid(b, c);
    forall s | s in a.symbols
      ensures s in c.positions && Value(Market, a.positions[s]) == Value(Market, c.positions[s])
    {
      if a.positions[s].quantity != 0 {
        assert a.positions[s] in OpenPositions(a.symbols, a.positions);
        MarkedByARow(b, rows, a.positions[s]);
      }
    }
    TotalUnchanged(Market, a.symbols, a.positions, c.positions);
  }

  lemma OpeningValid(cash: Paise)
    ensures Opening(cash).Valid()
  {
  }

  lemma {:induction false} BookAllValid(opening: Paise, fills: seq<Fill>)
    ensures Ledgers.BookAll(Opening(opening), fills).Valid()
  {
    hide Booked, Book.Valid;
    if fills == [] {
      OpeningValid(opening);
    } else {
      BookAllValid(opening, fills[..|fills| - 1]);
      BookingKeepsValid(Ledgers.BookAll(Opening(opening), fills[..|fills| - 1]), fills[|fills| - 1]);
    }
  }

  lemma BookingKeepsValid(b: Book, fill: Fill)
    requires b.Valid()
    ensures Booked(b, fill).Valid()
  {
    if fill.quantity > 0 {
      FillMovesOnePosition(Market, b, fill);
    }
  }

  /**
   * With the marks stored with the open positions unchanged since, a restart also lands on the very
   * equity the process had.
   */
  lemma RestartRestoresEquity(opening: Paise, events: seq<ReplayRuns.Event>, rows: seq<Position>)
    requires ProperAll(events) && Unrefused(opening, All, events) && InTurn(opening, All, events)
    requires Run(opening, events).inFlight == [] && InTimeOrder(Run(opening, events).service.store.fills)
    ensures var b := Run(opening, events).service.book;
      && b.Valid()
      && var rebuilt := MarkedAll(Rebuilt(opening, Run(opening, events).service.store), rows);
         && rebuilt.Valid()
         && ((forall p :: p in rows <==> p in OpenPositions(b.symbols, b.positions)) ==> Equity(rebuilt) == Equity(b))
  {
    hide Run, Unrefused, InTurn, InTimeOrder, Since, SoundStore, Conserved, Ledgers.BookAll, SameAccounts, OpenPositions, Book.Valid,
         MarkedAll, Rebuilt;
    var w := Run(opening, events);
    var rebuilt := Rebuilt(opening, w.service.store);
    RestartEqualsLive(opening, events);
    BookAllValid(opening, w.booked);
    AccountsAgree(w.service.book, Ledgers.BookAll(Opening(opening), w.booked));
    SameAccountsValid(Ledgers.BookAll(Opening(opening), w.booked), w.service.book);
    SameAccountsValid(w.service.book, rebuilt);
    MarkingKeepsAccountsAll(rebuilt, rows);
    SameAccountsValid(rebuilt, MarkedAll(rebuilt, rows));
    if forall p :: p in rows <==> p in OpenPositions(w.service.book.symbols, w.service.book.positions) {
      MarksRestoreEquity(w.service.book, rebuilt, rows);
    }
  }

  // ----- Where the hypotheses bind -----

  lemma FreshIsKept(opening: Paise, w: World, fill: Fill)
    requires Accounted(opening, w) && Proper(Arrive(Live, fill)) && w.arriving == []
    requires fill.orderId in w.service.oms.orders && IsNew(w.service.store, fill)
    ensures var arrived := Step(opening, w, Arrive(Live, fill));
      && Accounted(opening, arrived)
      && Step(opening, arrived, Keep(0)) ==
           w.(service := w.service.(store := Append(w.service.store, fill)), inFlight := w.inFlight + [Pending(Live, fill, false)])
  {
    hide Append, IsNew, SameAccounts, SoundStore, Conserved, ByBroker, Service.Valid;
    StepAccounts(opening, w, Arrive(Live, fill));
    assert Without([Pending(Live, fill, false)], 0) == [];
  }

  lemma ManagerKnown(opening: Paise, oms: Oms.State)
    requires oms.Valid()
    ensures ProperAll([OrdersBecome(oms)])
    ensures Run(opening, [OrdersBecome(oms)]) == World(Blank.(book := Opening(opening), oms := oms), [], [], [], [])
  {
    hide Accounted, Oms.State.Valid;
    assert [] + [OrdersBecome(oms)] == [OrdersBecome(oms)];
    RunOneMore(opening, [], OrdersBecome(oms));
  }

  lemma ArrivedAndKept(opening: Paise, oms: Oms.State, fill: Fill)
    requires oms.Valid() && fill.quantity > 0 && fill.timestamp >= 0 && fill.orderId in oms.orders
    ensures var events := [OrdersBecome(oms), Arrive(Live, fill), Keep(0)];
      && ProperAll(events)
      && Run(opening, events) ==
           World(Service(Table([], map[], map[]), oms, Store([fill], {KeyOf(fill)}), Opening(opening)), [],
                 [Pending(Live, fill, false)], [], [])
  {
    hide Accounted, Run, Step, KeyOf, Proper;
    ManagerKnown(opening, oms);
    ProperOnes(fill);
    FreshIsKept(opening, Run(opening, [OrdersBecome(oms)]), fill);
    RunOneMore(opening, [OrdersBecome(oms)], Arrive(Live, fill));
    RunOneMore(opening, [OrdersBecome(oms), Arrive(Live, fill)], Keep(0));
    assert [OrdersBecome(oms)] + [Arrive(Live, fill)] == [OrdersBecome(oms), Arrive(Live, fill)];
    assert [OrdersBecome(oms), Arrive(Live, fill)] + [Keep(0)] == [OrdersBecome(oms), Arrive(Live, fill), Keep(0)];
    assert Append(Store([], {}), fill) == Store([fill], {KeyOf(fill)});
  }

  lemma ProperOnes(fill: Fill)
    requires fill.quantity > 0 && fill.timestamp >= 0
    ensures Proper(Arrive(Live, fill)) && Proper(Keep(0))
  {
  }

  lemma RefusedStep(opening: Paise, w: World, i: nat)
    requires Accounted(opening, w) && i < |w.inFlight| && IsRefused(w.service, w.inFlight[i])
    ensures var next := Step(opening, w, Resume(i));
      next.lost == w.lost + [w.inFlight[i].fill] && next.service.book == w.service.book && next.service.store == w.service.store
  {
    hide Resumed, IsRefused, SameAccounts, Conserved, SoundStore, Service.Valid;
    assert Usable(w.inFlight[i]);
    ResumingKeepsValid(w.service, w.inFlight[i]);
    RefusedExactly(w.service, w.inFlight[i]);
  }

  lemma OneFillRebuilds(opening: Paise, fill: Fill)
    requires fill.timestamp >= 0
    ensures Rebuilt(opening, Store([fill], {KeyOf(fill)})) == Booked(Opening(opening), fill)
  {
    hide Booked, SortedByTime, NotBefore, KeyOf;
    OneIsSorted(fill);
    assert [fill][..0] == [];
    assert Ledgers.BookAll(Opening(opening), []) == Opening(opening);
  }

  lemma OneIsSorted(fill: Fill)
    requires fill.timestamp >= 0
    ensures SortedByTime(NotBefore([fill], 0)) == [fill]
  {
    hide InsertByTime, SortedByTime;
    EpochHidesNothing([fill]);
    SortKeepsOrder([fill]);
  }

  /**
   * Any order manager that refuses a fill is enough: the fill is stored, the live portfolio misses
   * it, and a restart brings it back.
   */
  lemma RefusedFillIsMissed(opening: Paise, oms: Oms.State, fill: Fill)
    requires oms.Valid() && fill.quantity > 0 && fill.timestamp >= 0 && Refuses(oms, fill)
    ensures var events := [OrdersBecome(oms), Arrive(Live, fill), Keep(0), Resume(0)];
      && ProperAll(events)
      && Run(opening, events).lost == [fill]
      && Run(opening, events).service.book == Opening(opening)
      && Rebuilt(opening, Run(opening, events).service.store) == Booked(Opening(opening), fill)
  {
    hide Booked, Oms.State.Valid, Step, Run, Accounted, KeyOf, Rebuilt, Oms.Seen, Oms.FillsOf;
    var events := [OrdersBecome(oms), Arrive(Live, fill), Keep(0)];
    ArrivedAndKept(opening, oms, fill);
    assert events + [Resume(0)] == [OrdersBecome(oms), Arrive(Live, fill), Keep(0), Resume(0)];
    RunOneMore(opening, events, Resume(0));
    RefusedStep(opening, Run(opening, events), 0);
    OneFillRebuilds(opening, fill);
  }

  lemma PlacedOrder(cash: Paise, request: OrderRequest, maxRetries: nat, now: Timestamp)
    requires request.orderType.MARKET? && request.quantity > 0
    ensures var (placed, broker, _) := Oms.Submitted(Oms.Empty, PB.Fresh(cash), request, maxRetries, now);
      var id := Oms.IdFor(request.idempotencyKey);
      && placed.Valid() && placed.fills == map[]
      && placed.orders == map[id := Order(id, request, OPEN, Some(Venue(1)), 0, None)]
      && broker.resting == [Order(Venue(1), request, OPEN, Some(Venue(1)), 0, None)]
  {
    Oms.StageKeepsValid(Oms.Empty, request);
  }

  lemma FirstRests(broker: PB.State)
    requires |broker.resting| == 1
    ensures PB.IsResting(broker, broker.resting[0].id)
  {
  }

  lemma WithdrawalCancels(placed: Oms.State, broker: PB.State, id: Id)
    requires placed.Valid() && id in placed.orders && placed.orders[id].status.OPEN?
    requires placed.orders[id].brokerOrderId.Some? && PB.IsResting(broker, placed.orders[id].brokerOrderId.value)
    ensures var (oms, _, error) := Oms.CancelOrder(placed, broker, id);
      && error.None? && oms.Valid() && oms.fills == placed.fills
      && id in oms.orders && oms.orders[id].status.CANCELLED?
  {
    hide PB.IsResting, PB.Cancelled;
  }

  /** Submitting a market order and cancelling it is such an order manager, for any execution of the order. */
  lemma CancelledOrderRefuses(cash: Paise, request: OrderRequest, maxRetries: nat, now: Timestamp, fill: Fill)
    requires request.orderType.MARKET? && request.quantity > 0
    requires fill.orderId == Oms.IdFor(request.idempotencyKey)
    ensures var (placed, broker, _) := Oms.Submitted(Oms.Empty, PB.Fresh(cash), request, maxRetries, now);
      var (oms, after, error) := Oms.CancelOrder(placed, broker, fill.orderId);
      && error.None? && oms.Valid() && Refuses(oms, fill)
  {
    hide Oms.Submitted, Oms.CancelOrder, Oms.State.Valid, PB.IsResting;
    PlacedOrder(cash, request, maxRetries, now);
    var (placed, broker, _) := Oms.Submitted(Oms.Empty, PB.Fresh(cash), request, maxRetries, now);
    FirstRests(broker);
    WithdrawalCancels(placed, broker, fill.orderId);
  }

  /** So a late fill of a cancelled order is stored, missed by the live books, and back after a restart. */
  lemma LateFillIsMissed(opening: Paise, cash: Paise, request: OrderRequest, maxRetries: nat, now: Timestamp, fill: Fill)
    requires request.orderType.MARKET? && request.quantity > 0
    requires fill.orderId == Oms.IdFor(request.idempotencyKey) && fill.quantity > 0 && fill.timestamp >= 0
    ensures var (placed, broker, _) := Oms.Submitted(Oms.Empty, PB.Fresh(cash), request, maxRetries, now);
      var oms := Oms.CancelOrder(placed, broker, fill.orderId).0;
      var events := [OrdersBecome(oms), Arrive(Live, fill), Keep(0), Resume(0)];
      && ProperAll(events)
      && Run(opening, events).lost == [fill]
      && Run(opening, events).service.book == Opening(opening)
      && Rebuilt(opening, Run(opening, events).service.store) == Booked(Opening(opening), fill)
  {
    hide Oms.Submitted, Oms.CancelOrder, Refuses, Oms.State.Valid, Run, Booked, Rebuilt, Proper;
    CancelledOrderRefuses(cash, request, maxRetries, now, fill);
    var (placed, broker, _) := Oms.Submitted(Oms.Empty, PB.Fresh(cash), request, maxRetries, now);
    RefusedFillIsMissed(opening, Oms.CancelOrder(placed, broker, fill.orderId).0, fill);
  }

  function Traded(side: Side, price: Paise, at: Timestamp): Fill {
    Fill(Venue(0), None, "X", side, 1, price, at, 0)
  }

  /**
   * Stored out of time order, or booked out of stored order, averages and realised profit can
   * change with a restart, though cash cannot.
   */
  lemma OutOfOrderChangesAverages()
    ensures var first, late, early := Traded(BUY, 100, 1), Traded(BUY, 200, 3), Traded(SELL, 150, 2);
      var live := Ledgers.BookAll(Opening(0), [first, late, early]);
      var rebuilt := Ledgers.BookAll(Opening(0), SortedByTime([first, late, early]));
      && "X" in live.positions && "X" in rebuilt.positions
      && live.positions["X"].realisedPnl == 0 && live.positions["X"].averagePrice == 150
      && rebuilt.positions["X"].realisedPnl == 50 && rebuilt.positions["X"].averagePrice == 200
  {
    hide Settle, SortedByTime, Ledgers.BookAll;
    var first, late, early := Traded(BUY, 100, 1), Traded(BUY, 200, 3), Traded(SELL, 150, 2);
    SortsToSecond(first, late, early);
    ThreeFills(first, late, early);
    ThreeFills(first, early, late);
    ThreeSettlements(first, late, early);
  }

  /** Selling half of two shares and selling the only share leave different averages behind. */
  lemma ThreeSettlements(first: Fill, late: Fill, early: Fill)
    requires first == Traded(BUY, 100, 1) && late == Traded(BUY, 200, 3) && early == Traded(SELL, 150, 2)
    ensures Settle(Settle(Settle(Position("X", 0, 0, 0, 100), first).0, late).0, early).0 == Position("X", 1, 150, 0, 150)
    ensures Settle(Settle(Settle(Position("X", 0, 0, 0, 100), first).0, early).0, late).0 == Position("X", 1, 200, 50, 200)
  {
    hide RoundDiv;
    var p := Position("X", 1, 100, 0, 100);
    RoundDivExact(100, 1);
    assert Settle(Position("X", 0, 0, 0, 100), first).0 == p;
    RoundDivExact(150, 2);
    assert Settle(p, late).0 == Position("X", 2, 150, 0, 200);
    assert Settle(p, early).0 == Position("X", 0, 0, 50, 150);
    RoundDivExact(200, 1);
  }

  lemma SortsToSecond(a: Fill, b: Fill, c: Fill)
    requires a.timestamp <= c.timestamp < b.timestamp
    ensures SortedByTime([a, b, c]) == [a, c, b]
  {
    assert [a, b, c][..2] == [a, b] && [a, b][..1] == [a] && [a][..0] == [];
    assert SortedByTime([a]) == [a];
    assert SortedByTime([a, b]) == [a, b];
    assert InsertByTime([a], c) == [a, c];
  }

  lemma ThreeFills(a: Fill, b: Fill, c: Fill)
    requires a.symbol == "X" && b.symbol == "X" && c.symbol == "X"
    requires a.quantity > 0 && b.quantity > 0 && c.quantity > 0
    ensures var book := Ledgers.BookAll(Opening(0), [a, b, c]);
      && "X" in book.positions
      && book.positions["X"] ==
           Settle(Settle(Settle(Position("X", 0, 0, 0, a.price), a).0, b).0, c).0
  {
    hide Settle, CashFlow;
    assert [a, b, c][..2] == [a, b] && [a, b][..1] == [a] && [a][..0] == [];
    assert Ledgers.BookAll(Opening(0), [a]) == Booked(Opening(0), a);
    assert Ledgers.BookAll(Opening(0), [a, b]) == Booked(Booked(Opening(0), a), b);
  }
}
