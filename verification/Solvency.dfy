/** When every BUY order has a limit, reservations really do cover every fill. */
module Solvency {
  import opened Domain
  import opened Fifo
  import opened Sums
  import opened Positions
  import opened OrderDesk
  import opened Moves
  import opened Lifecycle
  import opened Reservations

  /** No BUY order, bracket leg or not, can fill above a price known beforehand. */
  predicate BuysAreLimits(orders: seq<Order>) {
    forall i | 0 <= i < |orders| :: orders[i].side.Buy? ==> orders[i].orderType.HasLimit()
  }

  /** Reserved cash is covered by cash, up to the comparison slack. */
  predicate Solvent(d: Desk) { d.ledger.Available() >= -EPSILON }

  lemma BuysWereLimits(a: seq<Order>, b: seq<Order>)
    requires Evolves(a, b) && BuysAreLimits(b)
    ensures BuysAreLimits(a)
  {
    assert forall i | 0 <= i < |a| :: Evolved(a[i], b[i]);
  }

  lemma CostIsMonotone(q: int, low: real, high: real)
    requires q > 0 && low <= high
    ensures Cost(q, low) <= Cost(q, high)
  {
  }

  lemma FiringKeepsTerms(d: Desk, id: nat, price: real, now: int)
    requires Fires(d, id, price, now)
    ensures var o := Fired(d, id, price, now);
            && o.quantity == d.orders[id].quantity && o.side == d.orders[id].side
            && o.price == d.orders[id].price && o.orderType == d.orders[id].orderType
  {
  }

  /** A limit BUY that fires can always be paid, and frees at least what it costs. */
  lemma LimitFillIsFunded(d: Desk, id: nat, price: real, now: int)
    requires Accounted(d) && Solvent(d) && BuysAreLimits(d.orders) && Fires(d, id, price, now)
    ensures var u := Unreserved(d, id).desk;
            var paid := Paid(u.ledger, Fired(d, id, price, now), price);
            paid.Ok? && paid.value.Available() >= d.ledger.Available()
  {
    hide Unreserved;
    var o := Fired(d, id, price, now);
    FiringKeepsTerms(d, id, price, now);
    UnreserveSucceeds(d, id);
    CostIsPositive(o.quantity, price);
    NoReservationExceedsTotal(d.reservations, id);
    TotalAfter(d.reservations, d.reservations - {id}, id);
    if o.side.Buy? {
      CostIsMonotone(o.quantity, price, o.price.value);
      assert d.reservations[id] == Cost(o.quantity, o.price.value);
    }
  }

  lemma DroppingFreesCash(d: Desk, id: nat)
    requires Accounted(d)
    ensures Unreserved(d, id).desk.ledger.Available() >= d.ledger.Available()
  {
    hide Unreserved;
    UnreserveSucceeds(d, id);
    NoReservationExceedsTotal(d.reservations, id);
    TotalAfter(d.reservations, d.reservations - {id}, id);
  }

  lemma {:induction false} SiblingsFreeCash(d: Desk, filled: nat, group: Option<nat>, i: nat, now: int)
    requires Accounted(d)
    ensures SiblingsCancelled(d, filled, group, i, now).desk.ledger.Available() >= d.ledger.Available()
    decreases |d.orders| - i
  {
    hide Accounted, Unreserved;
    if group.None? || i >= |d.orders| {
    } else if i == filled || d.orders[i].ocoGroup != group || !d.orders[i].Resting() {
      SiblingsFreeCash(d, filled, group, i + 1, now);
    } else {
      UnreserveSucceeds(d, i);
      DroppingFreesCash(d, i);
      DroppingKeepsAccounts(d, i, Dropped(d.orders[i], Cancelled, now));
      UnreservedOrders(d, i);
      SiblingsFreeCash(Withdrawn(d, i, Cancelled, now).desk, filled, group, i + 1, now);
    }
  }

  lemma EnteringKeepsSolvent(d: Desk, o: Order, now: int)
    requires Solvent(d) && o.Resting()
    ensures Solvent(Entered(d, o, now))
  {
  }

  lemma LegKeepsSolvent(d: Desk, entry: Order, id: nat, isStop: bool, level: Option<real>, g: nat, now: int)
    requires Solvent(d) && PositiveIfSet(level) && entry.averageFillPrice.Some?
    ensures Solvent(WithLeg(d, entry, id, isStop, level, g, now))
  {
    hide Entered;
    if level.Some? && LegIsValid(entry.side, isStop, level.value, entry.averageFillPrice.value) {
      EnteringKeepsSolvent(d, LegOf(entry, id, isStop, level.value, g, now), now);
    }
  }

  lemma SpawningKeepsSolvent(d: Desk, entry: Order, id: nat, now: int)
    requires Solvent(d) && entry.averageFillPrice.Some?
    ensures Solvent(BracketSpawned(d, entry, id, now))
  {
    hide WithLeg;
    var d0 := d.(groups := d.groups + 1);
    LegKeepsSolvent(d0, entry, id, true, entry.stopLoss, d.groups, now);
    LegKeepsSolvent(WithLeg(d0, entry, id, true, entry.stopLoss, d.groups, now),
                    entry, id, false, entry.target, d.groups, now);
  }

  lemma TradeKeepsSolvent(d: Desk, id: nat, price: real, now: int)
    requires Accounted(d) && Solvent(d) && BuysAreLimits(d.orders) && Pays(d, id, price, now)
    ensures Solvent(Exchanging(d, id, price, now).desk)
  {
    hide SiblingsCancelled, Unreserved, Filled, TradesOf, Entries;
    var o := Fired(d, id, price, now);
    var x := Filling(d, id, price, now).desk;
    LimitFillIsFunded(d, id, price, now);
    UnreservedOrders(d, id);
    DroppingKeepsAccounts(d, id, Completed(o, price, now));
    PaidKeepsReserved(Unreserved(d, id).desk.ledger, o, price);
    SiblingsFreeCash(x, id, o.ocoGroup, 0, now);
  }

  lemma AmendingKeepsSolvent(d: Desk, m: OrderModification, now: int)
    requires Accounted(d) && Solvent(d) && m.Valid()
    ensures Solvent(Modified(d, m, now).desk)
  {
    hide Total, Entries;
    if Rests(d, m.orderId) {
      var o := Amended(d.orders[m.orderId], m, now);
      if o.Reserves() {
        RereservingKeepsSolvent(d, m.orderId, Cost(o.quantity, o.WorstCase().GetOr(0.0)));
      }
    }
  }

  lemma RereservingKeepsSolvent(d: Desk, id: nat, amount: real)
    requires Accounted(d) && Solvent(d)
    ensures Solvent(Rereserved(d, id, amount).desk)
  {
    NoReservationExceedsTotal(d.reservations, id);
  }

  /** With limit BUYs only, no move over-commits cash and no fill is ever refused. */
  lemma MoveKeepsSolvent(d: Desk, mv: Move)
    requires Enabled(d, mv) && Accounted(d) && Solvent(d) && !mv.Broken()
    requires BuysAreLimits(Do(d, mv).orders)
    ensures Solvent(Do(d, mv)) && !mv.Refuse?
  {
    hide Accounted, BuysAreLimits, Exchanged, Unreserved, Modified, BracketSpawned, Entered, Evolves;
    MoveEvolves(d, mv);
    BuysWereLimits(d.orders, Do(d, mv).orders);
    if mv.Enter? {
      EnteringKeepsSolvent(d, mv.order, mv.now);
    } else if mv.Trade? {
      TradeKeepsSolvent(d, mv.id, mv.price, mv.now);
    } else if mv.Refuse? {
      LimitFillIsFunded(d, mv.id, mv.price, mv.now);
    } else if mv.Spawn? {
      SpawningKeepsSolvent(d, d.orders[mv.id], mv.id, mv.now);
    } else if mv.Withdraw? {
      DroppingFreesCash(d, mv.id);
    } else if mv.Amend? {
      AmendingKeepsSolvent(d, mv.m, mv.now);
    }
  }

  predicate NoRefusal(ms: seq<Move>) { forall i | 0 <= i < |ms| :: !ms[i].Refuse? }

  lemma {:induction false} PlayKeepsSolvent(d: Desk, ms: seq<Move>)
    requires Legal(d, ms) && Accounted(d) && Solvent(d) && Sound(ms)
    requires BuysAreLimits(Play(d, ms).orders)
    ensures Solvent(Play(d, ms)) && NoRefusal(ms)
    decreases |ms|
  {
    hide Enabled, Do, Accounted, BuysAreLimits, Evolves, Solvent;
    if ms != [] {
      var e := Do(d, ms[0]);
      PlayEvolves(e, ms[1..]);
      BuysWereLimits(e.orders, Play(d, ms).orders);
      MoveKeepsSolvent(d, ms[0]);
      MoveKeepsAccounts(d, ms[0]);
      PlayKeepsSolvent(e, ms[1..]);
    }
  }
}
