/** The order manager: the object that owns every order and drives it from
    placement to its final state, proved against the functions of `OrderDesk`. */
module OrderManagers {
  import opened Domain
  import opened Fifo
  import opened Sums
  import opened Portfolios
  import opened Positions
  import opened Matching
  import opened OrderDesk

  function Raises(error: Option<Error>): Outcome { if error.Some? then Fail(error.value) else Pass }

  function Returns(s: Step): Result<seq<ClosedTrade>> { if s.error.Some? then Err(s.error.value) else Ok(s.closed) }

  class OrderManager {
    const portfolio: PortfolioManager
    const positions: PositionManager
    var orders: seq<Order>
    var reservations: map<nat, real>
    var groups: nat

    ghost function View(): Desk
      reads this, portfolio, positions
    {
      Desk(portfolio.View(), positions.View(), orders, reservations, groups)
    }

    constructor (portfolio: PortfolioManager, positions: PositionManager)
      ensures this.portfolio == portfolio && this.positions == positions
      ensures orders == [] && reservations == map[] && groups == 0
    {
      this.portfolio, this.positions := portfolio, positions;
      orders, reservations, groups := [], map[], 0;
    }

    /** Returns the new order's id and the round trips its placement closed. */
    method PlaceOrder(req: PaperOrderRequest, price: real, now: int) returns (r: Result<(nat, seq<ClosedTrade>)>)
      requires req.Valid()
      modifies this, portfolio, positions
      ensures var s := Placed(old(View()), req, price, now);
              && View() == s.desk
              && r == if s.error.Some? then Err(s.error.value) else Ok((|old(orders)|, s.closed))
    {
      hide Evaluated;
      if price <= 0.0 { return Err(InvalidArgument); }
      var trigger := req.trigger;
      if req.orderType.TrailingStop? {
        trigger := Some(InitialTrailingTrigger(req.side, price, req.trailingAmount, req.trailingPercent));
      }
      if !PositiveIfSet(trigger) { return Err(ValidationFailed); }
      var id := |orders|;
      var order: Order := OrderFor(req, price, now);
      if order.side.Buy? && !order.orderType.Market? {
        var amount := Cost(order.quantity, order.WorstCase().GetOr(0.0));
        var reserved := portfolio.ReserveCash(amount);
        if reserved.Fail? {
          orders := orders + [Dropped(order, Rejected, now)];
          return Ok((id, []));
        }
        reservations := reservations[id := amount];
      }
      orders := orders + [order];
      var closed :- EvaluateAndSettle(id, price, now);
      return Ok((id, closed));
    }

    method CancelOrder(id: nat, now: int) returns (r: Outcome)
      modifies this, portfolio, positions
      ensures var a := CancelledOrder(old(View()), id, now);
              View() == a.desk && r == Raises(a.error)
    {
      var order := RestingOrder(orders, id);
      if order.Err? { return Fail(order.error); }
      r := Unreserve(id);
      if r.Fail? { return; }
      orders := orders[id := Dropped(order.value, Cancelled, now)];
    }

    method ModifyOrder(m: OrderModification, now: int) returns (r: Outcome)
      requires m.Valid()
      modifies this, portfolio, positions
      ensures var a := Modified(old(View()), m, now);
              View() == a.desk && r == Raises(a.error)
    {
      var order := RestingOrder(orders, m.orderId);
      if order.Err? { return Fail(order.error); }
      var updated: Order := Amended(order.value, m, now);
      if updated.side.Buy? && !updated.orderType.Market? {
        var held := At(reservations, m.orderId);
        var amount := Cost(updated.quantity, updated.WorstCase().GetOr(0.0));
        if held != 0.0 {
          r := portfolio.ReleaseCash(held);
          if r.Fail? { return; }
        }
        r := portfolio.ReserveCash(amount);
        if r.Fail? {
          if held != 0.0 {
            var restored := portfolio.ReserveCash(held);
            if restored.Fail? { return restored; }
          }
          return;
        }
        reservations := reservations[m.orderId := amount];
      }
      orders := orders[m.orderId := updated];
      return Pass;
    }

    method ProcessPriceUpdate(key: Key, price: real, now: int) returns (r: Result<seq<ClosedTrade>>)
      modifies this, portfolio, positions
      ensures var s := PriceProcessed(old(View()), key, price, now);
              View() == s.desk && r == Returns(s)
    {
      hide Evaluated;
      if price <= 0.0 { return Err(InvalidArgument); }
      var candidates := Candidates(orders, key, 0);
      var closed: seq<ClosedTrade> := [];
      for i := 0 to |candidates|
        invariant |old(orders)| <= |orders|
        invariant var rest := Passed(View(), candidates[i..], price, now);
                  Passed(old(View()), candidates, price, now)
                  == if rest.error.Some? then rest else rest.(closed := closed + rest.closed)
      {
        assert candidates[i..][1..] == candidates[i + 1..];
        if orders[candidates[i]].Resting() {
          var more :- EvaluateAndSettle(candidates[i], price, now);
          closed := closed + more;
        }
      }
      assert closed + [] == closed;
      return Ok(closed);
    }

    method Reset()
      modifies this
      ensures orders == [] && reservations == map[] && groups == 0
    {
      orders, reservations, groups := [], map[], 0;
    }

    // ---------- Matching internals ----------

    method EvaluateAndSettle(id: nat, price: real, now: int) returns (r: Result<seq<ClosedTrade>>)
      requires id < |orders| && orders[id].Resting() && price > 0.0
      modifies this, portfolio, positions
      ensures var s := Evaluated(old(View()), id, price, now);
              View() == s.desk && r == Returns(s)
    {
      match Decide(orders[id], price, now)
      case Rest(order) =>
        orders := orders[id := order];
        return Ok([]);
      case Fill(order) =>
        r := SettleFill(id, order, price, now);
    }

    method Unreserve(id: nat) returns (r: Outcome)
      modifies this, portfolio
      ensures var a := Unreserved(old(View()), id);
              View() == a.desk && r == Raises(a.error)
      ensures orders == old(orders) && groups == old(groups)
    {
      var held := At(reservations, id);
      reservations := reservations - {id};
      if held != 0.0 {
        r := portfolio.ReleaseCash(held);
      } else {
        r := Pass;
      }
    }

    method SettleFill(id: nat, order: Order, price: real, now: int) returns (r: Result<seq<ClosedTrade>>)
      requires id < |orders| && price > 0.0 && order.Resting() && order.WithinLimit(price)
      modifies this, portfolio, positions
      ensures var s := Settled(old(View()), id, order, price, now);
              View() == s.desk && r == Returns(s)
    {
      hide SiblingsCancelled, BracketSpawned, Filled, TradesOf, TotalPnl;
      var released := Unreserve(id);
      if released.Fail? { return Err(released.error); }
      ghost var u := View();
      var paid := Pay(order, price);
      if paid.Fail? {
        if !paid.error.InsufficientCash? { return Err(paid.error); }
        orders := orders[id := Dropped(order, Rejected, now)];
        return Ok([]);
      }
      var applied := positions.ApplyFill(order.key, order.side, order.quantity, price, id, now);
      var booked := BookClosedLots(id, order.key, applied.value);
      FilledCloses(u.book, order.key, order.side, order.quantity, price, id, now);
      if booked.Err? { return Err(booked.error); }
      var closed := booked.value;
      var filled: Order := Completed(order, price, now);
      orders := orders[id := filled];
      assert Executed(u, id, order, Paid(u.ledger, order, price).value, price, now) == Step(View(), closed, None);
      hide Executed;
      var siblings := CancelOcoSibling(id, order.ocoGroup, now);
      if siblings.Fail? { return Err(siblings.error); }
      MaybeSpawnBracketChildren(filled, id, now);
      return Ok(closed);
    }

    method Pay(order: Order, price: real) returns (r: Outcome)
      modifies portfolio
      ensures portfolio.View() == After(Paid(old(portfolio.View()), order, price), old(portfolio.View()))
      ensures r == Raised(Paid(old(portfolio.View()), order, price))
    {
      if order.side.Buy? {
        r := portfolio.Debit(Cost(order.quantity, price));
      } else {
        r := portfolio.Credit(Cost(order.quantity, price));
      }
    }

    /** Books the profit of each piece before it records the trade; a trade that
        would end before it began ends the loop with an error. */
    method BookClosedLots(id: nat, key: Key, closedLots: seq<ClosedLot>) returns (r: Result<seq<ClosedTrade>>)
      modifies portfolio
      ensures r == if AnyLate(closedLots) then Err(ValidationFailed) else Ok(TradesOf(orders, id, key, closedLots))
      ensures var booked := if AnyLate(closedLots) then UntilLate(closedLots) else closedLots;
              portfolio.View() == old(portfolio.View()).(realized := old(portfolio.View()).realized + TotalPnl(booked))
    {
      var closed: seq<ClosedTrade> := [];
      ghost var start := portfolio.View();
      for i := 0 to |closedLots|
        invariant portfolio.View() == start.(realized := portfolio.View().realized)
        invariant portfolio.View().realized + TotalPnl(closedLots[i..]) == start.realized + TotalPnl(closedLots)
        invariant AnyLate(closedLots) == AnyLate(closedLots[i..])
        invariant AnyLate(closedLots) ==>
                    portfolio.View().realized + TotalPnl(UntilLate(closedLots[i..]))
                    == start.realized + TotalPnl(UntilLate(closedLots))
        invariant closed + TradesOf(orders, id, key, closedLots[i..]) == TradesOf(orders, id, key, closedLots)
      {
        assert closedLots[i..][1..] == closedLots[i + 1..];
        UntilLateOfFirst(closedLots[i..]);
        portfolio.RecordRealizedPnl(closedLots[i].pnl);
        var trade := TradeOf(orders, id, key, closedLots[i]);
        if trade.exitTime < trade.entryTime { return Err(ValidationFailed); }
        closed := closed + [trade];
      }
      assert closed + [] == closed;
      return Ok(closed);
    }

    method CancelOcoSibling(filled: nat, group: Option<nat>, now: int) returns (r: Outcome)
      modifies this, portfolio
      ensures var a := SiblingsCancelled(old(View()), filled, group, 0, now);
              View() == a.desk && r == Raises(a.error)
      ensures groups == old(groups)
    {
      if group.None? { return Pass; }
      for i := 0 to |orders|
        invariant |orders| == |old(orders)| && groups == old(groups)
        invariant positions.View() == old(positions.View())
        invariant SiblingsCancelled(old(View()), filled, group, 0, now)
               == SiblingsCancelled(View(), filled, group, i, now)
      {
        if i != filled && orders[i].ocoGroup == group && orders[i].Resting() {
          r := Unreserve(i);
          if r.Fail? { return; }
          orders := orders[i := Dropped(orders[i], Cancelled, now)];
        }
      }
      return Pass;
    }

    method MaybeSpawnBracketChildren(entry: Order, id: nat, now: int)
      requires entry.averageFillPrice.Some?
      modifies this, portfolio
      ensures View() == BracketSpawned(old(View()), entry, id, now)
    {
      if entry.parent.Some? || (entry.stopLoss.None? && entry.target.None?) { return; }
      var fill := entry.averageFillPrice.value;
      var group := groups;
      groups := groups + 1;
      if entry.stopLoss.Some? && LegIsValid(entry.side, true, entry.stopLoss.value, fill) {
        SpawnBracketChild(LegOf(entry, id, true, entry.stopLoss.value, group, now), now);
      }
      if entry.target.Some? && LegIsValid(entry.side, false, entry.target.value, fill) {
        SpawnBracketChild(LegOf(entry, id, false, entry.target.value, group, now), now);
      }
    }

    method SpawnBracketChild(child: Order, now: int)
      requires child.Resting() && !child.orderType.Market?
      modifies this, portfolio
      ensures View() == Entered(old(View()), child, now)
    {
      var id := |orders|;
      if child.side.Buy? {
        var amount := Cost(child.quantity, child.WorstCase().GetOr(0.0));
        var reserved := portfolio.ReserveCash(amount);
        if reserved.Fail? {
          orders := orders + [Dropped(child, Rejected, now)];
          return;
        }
        reservations := reservations[id := amount];
      }
      orders := orders + [child];
    }
  }
}
