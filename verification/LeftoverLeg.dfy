/** Why an exit must leave what the resting legs may still sell: a bracketed
    option entry, its full exit, and a price that fires the leg left behind. */
module LeftoverLeg {
  import opened Domain
  import opened Fifo
  import opened Sums
  import opened Portfolios
  import opened Positions
  import opened Matching
  import opened OrderDesk
  import opened Engine
  import opened Moves
  import opened Accounts
  import opened Clock
  import opened Oco
  import opened PricePass
  import opened MarketOrders
  import opened Options
  import opened OptionRuns

  const O: Key := Key(NFO, "O")
  const NONE: OptionRisk := OptionRisk(None, 0.0)
  const LIMITS: Limits := Limits(1, 1000.0, 1000.0, 1000.0)

  const ENTRY: Entry := Entry(Some("O"), 1, 1, Some(1), Some(80.0), Some(120.0), Some(100.0))
  const EXIT: Exit := Exit("O", None, Some(100.0))

  function Request(): (r: PaperOrderRequest)
    ensures r.Valid()
  {
    EntryRequest(ENTRY, 1)
  }

  function Bought(): Order { Completed(OrderFor(Request(), 100.0, 0), 100.0, 0) }

  const STOP: Order := LegOf(Bought(), 0, true, 80.0, 0, 0)
  const TARGET: Order := LegOf(Bought(), 0, false, 120.0, 0, 0)

  /** One option held, with its stop and its target at rest. */
  ghost predicate Held1(d: Desk) {
    && d.orders == [Bought(), STOP, TARGET] && d.ledger.cash == 900.0 && d.ledger.reserved == 0.0
    && d.ledger.initialCapital == 1000.0 && d.book.Lots(O) == [Lot(0, 0, 100.0, 1, Buy)] && Capped(d, 1000.0, 0)
  }

  lemma Entering()
    ensures var s := OptionEntered(NewEngine(1000.0), NONE, LIMITS, ENTRY, 0);
            s.error.None? && Held1(s.engine.desk)
  {
    hide Placed, Capped, Exposure, Filled, BracketSpawned, Total;
    var e := NewEngine(1000.0);
    NothingDeployed(1000.0, 1000.0, 0);
    ExposureOfCapped(e.desk, 1000.0, 0);
    assert Bases(EMPTY) == map[] && Total(Bases(EMPTY)) == 0.0 by { NothingSums(); }
    assert Cost(1, 100.0) == 100.0;
    EntryKeepsCap(e, NONE, LIMITS, ENTRY, 0);
    PlacingIsPlaced(e, Request(), 100.0, 0);
    EmptyIsCurrent();
    MarketSettlement(e.desk, Request(), 100.0, 0);
    var m := MarketFilled(e.desk, Request(), 100.0, 0);
    LegsJoin(m);
    FirstLot();
  }

  lemma NothingSums()
    ensures Bases(EMPTY) == map[] && Total<Key>(map[]) == 0.0
  {
  }

  lemma EmptyIsCurrent()
    ensures Current(EMPTY, 0)
  {
  }

  lemma FirstLot()
    ensures Filled(EMPTY, O, Buy, 1, 100.0, 0, 0).book.Lots(O) == [Lot(0, 0, 100.0, 1, Buy)]
  {
    assert EMPTY.Lots(O) == [];
  }

  lemma LegsJoin(m: Desk)
    requires m.orders == [Bought()] && m.groups == 0
    ensures var e := BracketSpawned(m, Bought(), 0, 0);
            e == m.(orders := [Bought(), STOP, TARGET], groups := 1)
  {
    var d0 := m.(groups := 1);
    var d1 := WithLeg(d0, Bought(), 0, true, Some(80.0), 0, 0);
    assert d1.orders == [Bought(), STOP];
  }

  /** The exit goes through although it leaves nothing for the legs. */
  lemma Exiting(e: Engine, r: OptionRisk)
    requires Held1(e.desk)
    ensures var f := OptionLeft(e, r, EXIT, 1).engine.desk;
            && f.book.Lots(O) == [] && |f.orders| == 4 && f.orders[..3] == [Bought(), STOP, TARGET]
            && !f.orders[3].Resting() && f.orders[3].ocoGroup.None? && f.ledger.cash >= 0.0 && KnownReservations(f)
            && GroupsOk(f) && BookOk(f.book) && Current(f.book, 1)
  {
    hide Placed, Capped, Filled, Total, CanSnapshot, BracketSpawned;
    var d := e.desk;
    var req := MarketRequest(O, Sell, 1);
    CappedParts(d, 1000.0, 0);
    OpenIsNet(d.book, O);
    OneIsOpen();
    assert CanSnapshot(d.ledger) by { CanTakeSnapshot(d.ledger); }
    CurrentLater(d.book, 0, 1);
    PlacingIsPlaced(e, req, 100.0, 1);
    assert Cost(1, 100.0) == 100.0;
    MarketOrderOutcome(d, O, Sell, 1, 100.0, 1);
    ClosingOne(d.book);
    var f := Apply(e, Place(req, 100.0, 1)).desk;
    assert f.orders[..3] == d.orders;
    BookStays(e, Place(req, 100.0, 1));
  }

  lemma CappedParts(d: Desk, cap: real, t: int)
    requires Capped(d, cap, t)
    ensures BookOk(d.book) && KnownReservations(d) && GroupsOk(d) && Current(d.book, t)
  {
  }

  lemma CanTakeSnapshot(l: Ledger)
    requires l.cash == 900.0 && l.reserved == 0.0 && l.initialCapital == 1000.0
    ensures CanSnapshot(l)
  {
  }

  lemma OneIsOpen()
    ensures Net([Lot(0, 0, 100.0, 1, Buy)]) == 1
  {
    assert [Lot(0, 0, 100.0, 1, Buy)][1..] == [];
  }

  lemma ClosingOne(b: Book)
    requires b.Lots(O) == [Lot(0, 0, 100.0, 1, Buy)]
    ensures Filled(b, O, Sell, 1, 100.0, 3, 1).book.Lots(O) == []
  {
    var lots := b.Lots(O);
    assert lots[1..] == [];
    assert CloseFifo(lots, 1, 100.0, 1).lots == [];
  }

  /** Books stay in order, groups as they were made and reservations with BUY orders through any call. */
  lemma BookStays(e: Engine, op: Op)
    requires op.Valid() && BookOk(e.desk.book) && e.desk.ledger.cash >= 0.0
    ensures BookOk(Apply(e, op).desk.book)
    ensures GroupsOk(e.desk) ==> GroupsOk(Apply(e, op).desk)
    ensures KnownReservations(e.desk) ==> KnownReservations(Apply(e, op).desk)
  {
    hide Apply, BookOk, GroupsOk, KnownReservations, Enabled, Do, Missed;
    var ms := OperationIsMoves(e, op);
    PlayBalances(e.desk, ms);
    if GroupsOk(e.desk) { PlayKeepsGroups(e.desk, ms); }
    if KnownReservations(e.desk) { PlayKeepsKnown(e.desk, ms); }
  }

  /** The target fires on a flat position. */
  lemma TargetFires(d: Desk)
    requires d.book.Lots(O) == [] && |d.orders| == 4 && d.orders[1] == STOP && d.orders[2] == TARGET
    requires !d.orders[0].Resting() && !d.orders[3].Resting() && d.orders[0].key == O
    requires KnownReservations(d) && GroupsOk(d) && BookOk(d.book) && Current(d.book, 2)
    requires d.orders[0].ocoGroup.None? && d.orders[3].ocoGroup.None?
    ensures var s := PriceProcessed(d, O, 120.0, 2);
            s.error.None? && BookOk(s.desk.book) && OpenQuantity(s.desk.book, O) == -1
  {
    hide Evaluated, GroupsOk, BookOk, Current, OpenQuantity;
    assert forall j | 0 <= j < 4 && d.orders[j].Resting() :: j == 1 || j == 2;
    assert Candidates(d.orders, O, 0) == [1, 2] by {
      assert Candidates(d.orders, O, 4) == [] && Candidates(d.orders, O, 3) == [];
      assert Candidates(d.orders, O, 2) == [2] && Candidates(d.orders, O, 1) == [1, 2];
    }
    StopWaits(d);
    TargetSells(d);
    var s := Evaluated(d, 2, 120.0, 2);
    assert [1, 2][1..] == [2] && [2][1..] == [] && s.closed + [] == s.closed;
    assert Passed(s.desk, [], 120.0, 2) == Step(s.desk, [], None);
    assert Passed(d, [2], 120.0, 2).desk == s.desk && Passed(d, [2], 120.0, 2).error.None?;
  }

  lemma StopWaits(d: Desk)
    requires |d.orders| == 4 && d.orders[1] == STOP
    ensures Evaluated(d, 1, 120.0, 2) == Step(d, [], None)
  {
    assert Decide(STOP, 120.0, 2) == Rest(STOP);
    assert d.orders[1 := STOP] == d.orders;
  }

  lemma TargetSells(d: Desk)
    requires d.book.Lots(O) == [] && |d.orders| == 4 && d.orders[1] == STOP && d.orders[2] == TARGET
    requires KnownReservations(d) && GroupsOk(d) && BookOk(d.book) && Current(d.book, 2)
    requires d.orders[0].ocoGroup.None? && d.orders[3].ocoGroup.None?
    ensures var s := Evaluated(d, 2, 120.0, 2);
            s.error.None? && BookOk(s.desk.book) && OpenQuantity(s.desk.book, O) == -1
  {
    hide GroupsOk, BookOk, Current, OpenQuantity, Exchanged, Net;
    LegPays(d, 2, 120.0, 2);
    FillRaisesExactly(d, 2, 120.0, 2);
    assert SiblingsReleasable(d, 2);
    FiredSellStaysLongExactly(d, 2, 120.0, 2);
    OpenIsNet(d.book, O);
    NothingIsOpen();
    assert Exchanging(d, 2, 120.0, 2) == Exchanged(d, 2, TARGET, 120.0, 2);
  }

  lemma NothingIsOpen()
    ensures Net([]) == 0
  {
  }

  /** Without care the cap's promise fails: the account ends short one option. */
  lemma BracketedExitGoesShort()
    ensures var ops := [OptionOp.Entering(ENTRY, 0), OptionOp.Exiting(EXIT, 1), Other(Price(O, 120.0, 2))];
            && ValidOptionOps(ops)
            && OpenQuantity(AfterAll(NewEngine(1000.0), NONE, LIMITS, ops).desk.book, O) == -1
  {
    hide OptionEntered, OptionLeft, PriceProcessed, Capped, GroupsOk, BookOk, Current, KnownReservations, OpenQuantity;
    var e0 := NewEngine(1000.0);
    var s1 := OptionEntered(e0, NONE, LIMITS, ENTRY, 0);
    var s2 := OptionLeft(s1.engine, s1.risk, EXIT, 1);
    var op := Price(O, 120.0, 2);
    var e3 := Apply(s2.engine, op);
    Entering();
    Exiting(s1.engine, s1.risk);
    var d := s2.engine.desk;
    assert forall i | 0 <= i < 3 :: d.orders[i] == d.orders[..3][i];
    CurrentLater(d.book, 1, 2);
    TargetFires(d);
    var b := PriceProcessed(d, O, 120.0, 2).desk.book;
    BookStays(s2.engine, op);
    MarkingKeepsLots(b, O, 120.0, 2);
    OpenIsNet(b, O);
    OpenIsNet(e3.desk.book, O);
    AfterThree(e0, NONE, OptionOp.Entering(ENTRY, 0), OptionOp.Exiting(EXIT, 1), Other(op));
  }

  lemma AfterThree(e: Engine, r: OptionRisk, a: OptionOp, b: OptionOp, c: OptionOp)
    requires a.Valid() && b.Valid() && c.Valid()
    ensures ValidOptionOps([a, b, c])
    ensures var s := Performed(e, r, LIMITS, a);
            var t := Performed(s.engine, s.risk, LIMITS, b);
            AfterAll(e, r, LIMITS, [a, b, c]) == Performed(t.engine, t.risk, LIMITS, c).engine
  {
    hide Performed;
    assert [a, b, c][1..] == [b, c] && [b, c][1..] == [c] && [c][1..] == [];
    var s := Performed(e, r, LIMITS, a);
    var t := Performed(s.engine, s.risk, LIMITS, b);
    var u := Performed(t.engine, t.risk, LIMITS, c);
    assert AfterAll(u.engine, u.risk, LIMITS, []) == u.engine;
    assert AfterAll(t.engine, t.risk, LIMITS, [c]) == u.engine;
    assert AfterAll(s.engine, s.risk, LIMITS, [b, c]) == u.engine;
  }
}
