/** What the hypothesis of prudent runs is for: one imprudent modification, and
    a later price update books a loss that the trade history never shows. */
module Imprudence {
  import opened Domain
  import opened Fifo
  import opened Portfolios
  import opened Positions
  import opened Matching
  import opened OrderDesk
  import opened Engine
  import opened Moves
  import opened Conservation

  const KEY: Key := Key(NSE, "S")

  function Request(side: Side, orderType: OrderType, price: Option<real>, trigger: Option<real>): PaperOrderRequest {
    PaperOrderRequest(KEY, side, orderType, 1, price, trigger, None, None, None, None)
  }

  function Rested(side: Side, orderType: OrderType, price: Option<real>, trigger: Option<real>, now: int): PaperOrder {
    PaperOrder(KEY, side, orderType, 1, 0, price, trigger, None, None, None,
               if orderType.WaitsForTrigger() then TriggerPending else Open, None, None, None, None, now, now)
  }

  const STOP_SELL: Order := Rested(Sell, Stop, None, Some(60.0), 0)
  const LIMIT_BUY: Order := Rested(Buy, Limit, Some(60.0), None, 1)
  const BOUGHT: Order := Completed(Rested(Buy, Market, None, None, 2), 80.0, 2)

  /** A stop, a limit BUY holding 60 of 100 in reserve, and a MARKET BUY that eats into it. */
  function Overcommitted(): Desk {
    Desk(Ledger(100.0, 20.0, 60.0, 0.0), Filled(EMPTY, KEY, Buy, 1, 80.0, 2, 2).book,
         [STOP_SELL, LIMIT_BUY, BOUGHT], map[1 := 60.0], 0)
  }

  const DOUBLE: OrderModification := OrderModification(1, Some(2), None, None)

  /** Placing an order that the price does not fire just enters it. */
  lemma PlacingEnters(d: Desk, req: PaperOrderRequest, price: real, now: int)
    requires req.Valid() && price > 0.0 && PositiveIfSet(TriggerFor(req, price))
    requires var o := OrderFor(req, price, now);
             Decide(o, price, now) == Rest(o) && Entered(d, o, now).orders[|d.orders|] == o
    ensures Placed(d, req, price, now) == Step(Entered(d, OrderFor(req, price, now), now), [], None)
  {
    hide Entered, Decide;
    var o := OrderFor(req, price, now);
    var e := Entered(d, o, now);
    assert e.orders[|d.orders| := o] == e.orders;
  }

  /** A plain MARKET BUY on a desk that is flat in its instrument. */
  lemma BuyingFlat(d: Desk, price: real, now: int)
    requires price > 0.0 && d.ledger.cash >= price && d.book == EMPTY && |d.orders| !in d.reservations
    ensures var n := |d.orders|;
            Placed(d, Request(Buy, Market, None, None), price, now)
            == Step(Desk(d.ledger.(cash := d.ledger.cash - price), Filled(EMPTY, KEY, Buy, 1, price, n, now).book,
                         d.orders + [Completed(Rested(Buy, Market, None, None, now), price, now)],
                         d.reservations, d.groups), [], None)
  {
    hide Rebuilt;
    var n := |d.orders|;
    var o: Order := Rested(Buy, Market, None, None, now);
    assert OrderFor(Request(Buy, Market, None, None), price, now) == o;
    var e := Entered(d, o, now);
    assert e == d.(orders := d.orders + [o]);
    assert d.reservations - {n} == d.reservations;
    assert Unreserved(e, n) == Attempt(e, None);
    assert Cost(1, price) == price;
    assert e.orders[n := Completed(o, price, now)] == d.orders + [Completed(o, price, now)];
  }

  lemma OvercommittedIsReachable()
    ensures var a, b, c := Place(Request(Sell, Stop, None, Some(60.0)), 100.0, 0),
                           Place(Request(Buy, Limit, Some(60.0), None), 100.0, 1),
                           Place(Request(Buy, Market, None, None), 80.0, 2);
            Run(NewEngine(100.0), [a, b, c]) == Engine(Overcommitted(), [])
  {
    hide Placed, Filled;
    var a, b, c := Place(Request(Sell, Stop, None, Some(60.0)), 100.0, 0),
                   Place(Request(Buy, Limit, Some(60.0), None), 100.0, 1),
                   Place(Request(Buy, Market, None, None), 80.0, 2);
    var d0 := NewDesk(100.0);
    var d1 := Desk(Fresh(100.0), EMPTY, [STOP_SELL], map[], 0);
    var d2 := Desk(Fresh(100.0).(reserved := 60.0), EMPTY, [STOP_SELL, LIMIT_BUY], map[1 := 60.0], 0);
    PlacingEnters(d0, a.req, 100.0, 0);
    PlacingEnters(d1, b.req, 100.0, 1);
    BuyingFlat(d2, 80.0, 2);
    assert Apply(Engine(d0, []), a) == Engine(d1, []);
    assert Apply(Engine(d1, []), b) == Engine(d2, []);
    assert Apply(Engine(d2, []), c) == Engine(Overcommitted(), []);
    assert [a, b, c][1..] == [b, c] && [b, c][1..] == [c] && [c][1..] == [];
    assert Run(Engine(d2, []), [c]) == Run(Apply(Engine(d2, []), c), []);
    assert Run(Engine(d1, []), [b, c]) == Run(Engine(d2, []), [c]);
  }

  /** Doubling the limit BUY now fails, and loses its reservation on the way. */
  lemma DoublingIsImprudent()
    ensures !Prudent(Overcommitted(), Modify(DOUBLE, 3))
    ensures Modified(Overcommitted(), DOUBLE, 3).desk
            == Overcommitted().(ledger := Overcommitted().ledger.(reserved := 0.0))
  {
    hide Filled;
    assert Cost(2, 60.0) == 120.0;
  }

  function Doubled(): Desk { Overcommitted().(ledger := Ledger(100.0, 20.0, 0.0, 0.0)) }

  /** At 55 the stop sells the share at a loss of 25 and completes. */
  lemma StopSells()
    ensures var s := Evaluated(Doubled(), 0, 55.0, 4);
            && s.error.None? && s.desk.ledger == Ledger(100.0, 75.0, 0.0, -25.0)
            && s.desk.orders == [Completed(STOP_SELL, 55.0, 4), LIMIT_BUY, BOUGHT]
            && s.desk.reservations == map[1 := 60.0]
  {
    hide Rebuilt;
    var d := Doubled();
    var lots: seq<Lot> := [Lot(2, 2, 80.0, 1, Buy)];
    assert d.book.Lots(KEY) == lots by { FirstLot(); }
    assert d.reservations - {0} == d.reservations;
    assert Cost(1, 55.0) == 55.0 && Cost(1, 55.0 - 80.0) == -25.0;
    var piece := ClosedLot(lots[0], 1, 55.0, 4, -25.0);
    assert CloseFifo(lots, 1, 55.0, 4) == Closing([], 0, [piece]);
    assert TotalPnl([piece]) == -25.0;
    assert d.orders[0 := Completed(STOP_SELL, 55.0, 4)] == [Completed(STOP_SELL, 55.0, 4), LIMIT_BUY, BOUGHT];
  }

  lemma FirstLot()
    ensures Filled(EMPTY, KEY, Buy, 1, 80.0, 2, 2).book.Lots(KEY) == [Lot(2, 2, 80.0, 1, Buy)]
  {
    assert EMPTY.Lots(KEY) == [];
    assert QueueAfter([], Buy, 1, 80.0, 2, 2) == [Lot(2, 2, 80.0, 1, Buy)];
  }

  /** Without prudence double entry fails: after these calls the account has
      realized a loss of 25 that no trade of the history accounts for. */
  lemma ImprudenceLosesATrade()
    ensures var e := Run(Engine(Overcommitted(), []), [Modify(DOUBLE, 3), Price(KEY, 55.0, 4)]);
            e.trades == [] && e.desk.ledger.realized == -25.0 && PnlOf(e.trades) == 0.0
  {
    hide Modified, Evaluated, Filled;
    var m, p := Modify(DOUBLE, 3), Price(KEY, 55.0, 4);
    var d := Doubled();
    DoublingIsImprudent();
    StopSells();
    assert Candidates(d.orders, KEY, 0) == [0, 1] by {
      assert Candidates(d.orders, KEY, 3) == [] && Candidates(d.orders, KEY, 2) == [];
      assert Candidates(d.orders, KEY, 1) == [1];
    }
    var s := Evaluated(d, 0, 55.0, 4);
    BuyRaises(s.desk);
    assert [0, 1][1..] == [1];
    assert Passed(s.desk, [1], 55.0, 4) == Evaluated(s.desk, 1, 55.0, 4);
    assert Passed(d, [0, 1], 55.0, 4) == Passed(s.desk, [1], 55.0, 4);
    assert [m, p][1..] == [p] && [p][1..] == [];
    assert Run(Engine(Overcommitted(), []), [m, p]) == Run(Engine(d, []), [p]);
    assert Run(Engine(d, []), [p]) == Apply(Engine(d, []), p);
  }

  lemma BuyRaises(d: Desk)
    requires |d.orders| > 1 && d.orders[1] == LIMIT_BUY && d.reservations == map[1 := 60.0] && d.ledger.reserved == 0.0
    ensures var s := Evaluated(d, 1, 55.0, 4); s.error.Some? && s.closed == [] && s.desk.ledger == d.ledger
  {
  }
}
