/** What the hypothesis of a clock that never goes back is for: a sale that
    reads an earlier time than the purchases it closes. */
module Backwards {
  import opened Domain
  import opened Fifo
  import opened Portfolios
  import opened Positions
  import opened OrderDesk
  import opened Engine
  import opened Accounts
  import opened Clock
  import opened PricePass
  import opened MarketOrders

  const S: Key := Key(NSE, "S")
  const FIRST: Op := Place(MarketRequest(S, Buy, 1), 100.0, 10)
  const SECOND: Op := Place(MarketRequest(S, Buy, 1), 90.0, 10)
  const SALE: Op := Place(MarketRequest(S, Sell, 2), 110.0, 5)

  const LOTS: seq<Lot> := [Lot(0, 10, 100.0, 1, Buy), Lot(1, 10, 90.0, 1, Buy)]

  /** Two shares bought at clock reading 10. */
  ghost predicate Bought(d: Desk) {
    && d.ledger == Ledger(1000.0, 810.0, 0.0, 0.0) && d.book.lots == map[S := LOTS] && |d.orders| == 2
    && d.reservations == map[]
  }

  lemma BuyingTwice()
    ensures Bought(Run(NewEngine(1000.0), [FIRST, SECOND]).desk)
  {
    hide Apply, Placed;
    var e0 := NewEngine(1000.0);
    RunOfThree(e0, FIRST, SECOND, SALE);
    Buying(e0, 100.0);
    var e1 := Apply(e0, FIRST);
    assert e1.desk.book.Lots(S) == [LOTS[0]];
    Buying(e1, 90.0);
    var d := Apply(e1, SECOND).desk;
    assert d.book.Lots(S) == LOTS && d.book.lots == map[S := LOTS];
  }

  /** One share bought at clock reading 10. */
  lemma Buying(e: Engine, price: real)
    requires 0.0 < price <= e.desk.ledger.cash && Current(e.desk.book, 10) && e.desk.reservations == map[]
    requires forall l | l in e.desk.book.Lots(S) :: l.side.Buy?
    ensures var d := Apply(e, Place(MarketRequest(S, Buy, 1), price, 10)).desk;
            var lots := e.desk.book.Lots(S) + [Lot(|e.desk.orders|, 10, price, 1, Buy)];
            && d.ledger == e.desk.ledger.(cash := e.desk.ledger.cash - price) && d.reservations == map[]
            && |d.orders| == |e.desk.orders| + 1 && Current(d.book, 10)
            && d.book.lots == e.desk.book.lots[S := lots] && d.book.Lots(S) == lots
  {
    hide Placed, Filled, Current;
    assert Cost(1, price) == price;
    NothingCloses(e.desk.book, price, |e.desk.orders|);
    MarketOrderOutcome(e.desk, S, Buy, 1, price, 10);
  }

  lemma NothingCloses(b: Book, price: real, id: nat)
    requires price > 0.0 && (b.Lots(S) != [] ==> b.Lots(S)[0].side.Buy?)
    ensures var f := Filled(b, S, Buy, 1, price, id, 10);
            && f.closed == [] && TotalPnl(f.closed) == 0.0
            && f.book.lots == b.lots[S := b.Lots(S) + [Lot(id, 10, price, 1, Buy)]]
  {
  }

  lemma SaleCloses()
    ensures var c := ClosedBy(LOTS, Sell, 2, 110.0, 5);
            && c.lots == [] && c.remaining == 0 && AnyLate(c.closed) && TotalPnl(UntilLate(c.closed)) == 10.0
  {
    var first := ClosedLot(LOTS[0], 1, 110.0, 5, 10.0);
    var second := ClosedLot(LOTS[1], 1, 110.0, 5, 20.0);
    assert Cost(1, 110.0 - 100.0) == 10.0 && Cost(1, 110.0 - 90.0) == 20.0;
    assert CloseFifo([LOTS[1]], 1, 110.0, 5) == Closing([], 0, [second]) by {
      assert [LOTS[1]][1..] == [];
    }
    assert LOTS[1..] == [LOTS[1]];
    assert CloseFifo(LOTS, 2, 110.0, 5) == Closing([], 0, [first, second]);
    assert UntilLate([first, second]) == [first];
    assert TotalPnl([first]) == 10.0;
  }

  /** The ledger identity and the end of MARKET orders both fail when the clock
      goes back: the sale brings in 220 for shares that cost 190, but only the
      first share's profit of 10 is booked, and the order goes on resting. */
  lemma EarlierSaleBreaksTheLedger()
    ensures var d := Run(NewEngine(1000.0), [FIRST, SECOND, SALE]).desk;
            && d.ledger.cash == 1030.0 && d.ledger.realized == 10.0 && d.book.lots == map[]
            && !Balanced(d) && !NoMarketRests(d.orders)
  {
    hide Placed, Filled, ClosedBy;
    var e2 := Run(NewEngine(1000.0), [FIRST, SECOND]);
    BuyingTwice();
    SaleCloses();
    assert Cost(2, 110.0) == 220.0;
    MarketOrderSpoils(e2.desk, S, Sell, 2, 110.0, 5);
    FilledCloses(e2.desk.book, S, Sell, 2, 110.0, 2, 5);
    SaleEmpties(e2.desk.book);
    var d := Apply(e2, SALE).desk;
    assert Values(d.book) == map[];
    assert d.orders[2] == OrderFor(SALE.req, 110.0, 5);
    RunOfThree(NewEngine(1000.0), FIRST, SECOND, SALE);
  }

  lemma SaleEmpties(b: Book)
    requires b.lots == map[S := LOTS]
    ensures Filled(b, S, Sell, 2, 110.0, 2, 5).book.lots == map[]
  {
    hide CloseFifo;
    SaleCloses();
  }
}
