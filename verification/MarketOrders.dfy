/** What placing a plain MARKET order does: the one kind of order the layers on
    top of the engine use. */
module MarketOrders {
  import opened Domain
  import opened Fifo
  import opened Portfolios
  import opened Positions
  import opened OrderDesk
  import opened Engine
  import opened Clock
  import opened Conservation
  import opened PricePass

  function MarketRequest(key: Key, side: Side, quantity: int): PaperOrderRequest {
    PaperOrderRequest(key, side, Market, quantity, None, None, None, None, None, None)
  }

  /** What the trades recorded between two states earned. */
  ghost function PnlSince(before: Engine, after: Engine): real {
    if |before.trades| <= |after.trades| then PnlOf(after.trades[|before.trades|..]) else 0.0
  }

  /** How many whole shares the given fraction of available cash buys at a price. */
  function SharesFor(available: real, fraction: real, price: real): int
    requires price != 0.0
  {
    (available * fraction / price).Floor
  }

  /** A BUY is affordable up to the comparison slack; a SELL always is. */
  predicate Affordable(l: Ledger, side: Side, cost: real) { side.Buy? ==> cost <= l.cash + EPSILON }

  /** The desk right after a MARKET order was placed and filled, before its legs join. */
  function MarketFilled(d: Desk, req: PaperOrderRequest, price: real, now: int): Desk
    requires req.Valid() && req.orderType.Market? && price > 0.0
  {
    var (n, cost) := (|d.orders|, Cost(req.quantity, price));
    var f := Filled(d.book, req.key, req.side, req.quantity, price, n, now);
    Desk(d.ledger.(cash := d.ledger.cash + (if req.side.Buy? then -cost else cost),
                   realized := d.ledger.realized + TotalPnl(f.closed)),
         f.book, d.orders + [Completed(OrderFor(req, price, now), price, now)], d.reservations, d.groups)
  }

  /** A MARKET order, at a clock reading behind no open lot's, is settled at once:
      filled at the given price, with its bracket, when it can be afforded,
      rejected otherwise. */
  lemma MarketSettlement(d: Desk, req: PaperOrderRequest, price: real, now: int)
    requires req.Valid() && req.orderType.Market? && price > 0.0 && KnownReservations(d) && Current(d.book, now)
    ensures var s := Placed(d, req, price, now); var n := |d.orders|; var o := OrderFor(req, price, now);
            && s.error.None?
            && (if Affordable(d.ledger, req.side, Cost(req.quantity, price)) then
                  && s.desk == BracketSpawned(MarketFilled(d, req, price, now), Completed(o, price, now), n, now)
                  && PnlOf(s.closed)
                     == TotalPnl(Filled(d.book, req.key, req.side, req.quantity, price, n, now).closed)
                else s.desk == d.(orders := d.orders + [Dropped(o, Rejected, now)]) && s.closed == [])
  {
    hide Filled, TradesOf, PnlOf, TotalPnl, Current, Unrecordable, BracketSpawned;
    var id: nat := |d.orders|;
    var o := OrderFor(req, price, now);
    var e := Entered(d, o, now);
    assert e == d.(orders := d.orders + [o]);
    assert id !in e.reservations;
    assert e.reservations - {id} == e.reservations;
    CostIsPositive(o.quantity, price);
    var f := Filled(d.book, req.key, req.side, req.quantity, price, id, now);
    CurrentIsRecordable(d.book, o, price, now);
    TradesCarryPieces(e.orders, id, req.key, f.closed, id);
    assert e.orders[id := Completed(o, price, now)] == d.orders + [Completed(o, price, now)];
    assert e.orders[id := Dropped(o, Rejected, now)] == d.orders + [Dropped(o, Rejected, now)];
  }

  /** Without a bracket nothing else changes. */
  lemma MarketOrderOutcome(d: Desk, key: Key, side: Side, quantity: int, price: real, now: int)
    requires quantity > 0 && price > 0.0 && KnownReservations(d) && Current(d.book, now)
    ensures var s := Placed(d, MarketRequest(key, side, quantity), price, now);
            var cost := Cost(quantity, price);
            var f := Filled(d.book, key, side, quantity, price, |d.orders|, now);
            && s.error.None? && |s.desk.orders| == |d.orders| + 1 && s.desk.orders[..|d.orders|] == d.orders
            && !s.desk.orders[|d.orders|].Resting() && s.desk.orders[|d.orders|].key == key
            && s.desk.orders[|d.orders|].ocoGroup.None?
            && s.desk.reservations == d.reservations && s.desk.groups == d.groups && Current(s.desk.book, now)
            && (s.desk.orders[|d.orders|].status.Complete? <==> Affordable(d.ledger, side, cost))
            && (Affordable(d.ledger, side, cost) ==>
                  && s.desk.orders[|d.orders|].averageFillPrice == Some(price)
                  && s.desk.book == f.book
                  && s.desk.ledger == d.ledger.(cash := d.ledger.cash + (if side.Buy? then -cost else cost),
                                                realized := d.ledger.realized + TotalPnl(f.closed))
                  && PnlOf(s.closed) == TotalPnl(f.closed))
            && (!Affordable(d.ledger, side, cost) ==>
                  s.desk.book == d.book && s.desk.ledger == d.ledger && s.closed == [])
  {
    hide Filled, PnlOf, TotalPnl, Current, Placed;
    MarketSettlement(d, MarketRequest(key, side, quantity), price, now);
    FillKeepsCurrent(d.book, key, side, quantity, price, |d.orders|, now);
  }

  /** A MARKET order that is paid but cannot be recorded moves cash and lots,
      books the profit of the pieces up to the first late one, and goes on resting. */
  lemma MarketOrderSpoils(d: Desk, key: Key, side: Side, quantity: int, price: real, now: int)
    requires quantity > 0 && price > 0.0 && KnownReservations(d)
    requires Affordable(d.ledger, side, Cost(quantity, price))
    requires AnyLate(ClosedBy(d.book.Lots(key), side, quantity, price, now).closed)
    ensures var s := Placed(d, MarketRequest(key, side, quantity), price, now);
            var cost := Cost(quantity, price);
            var f := Filled(d.book, key, side, quantity, price, |d.orders|, now);
            && s.error == Some(ValidationFailed) && s.closed == []
            && s.desk.orders == d.orders + [OrderFor(MarketRequest(key, side, quantity), price, now)]
            && s.desk.book == f.book
            && s.desk.ledger == d.ledger.(cash := d.ledger.cash + (if side.Buy? then -cost else cost),
                                          realized := d.ledger.realized + TotalPnl(UntilLate(f.closed)))
  {
    hide Filled, TradesOf, TotalPnl, ClosedBy, UntilLate, AnyLate, SiblingsCancelled;
    var id: nat := |d.orders|;
    var o := OrderFor(MarketRequest(key, side, quantity), price, now);
    var e := Entered(d, o, now);
    assert e == d.(orders := d.orders + [o]);
    assert id !in e.reservations;
    assert e.reservations - {id} == e.reservations;
    CostIsPositive(o.quantity, price);
    assert Unrecordable(e.book, o, price, now);
  }
}
