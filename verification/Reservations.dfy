/** Reservation accounting: what is set aside is the sum over exactly the
    resting BUY orders, so giving it back never raises. */
module Reservations {
  import opened Domain
  import opened Fifo
  import opened Sums
  import opened Portfolios
  import opened Positions
  import opened Matching
  import opened OrderDesk
  import opened Moves
  import opened Lifecycle

  /** The reservation of order `o`: its quantity at its limit or, without one, at
      its trigger, which only of a trailing stop moves afterwards. */
  predicate CoversLimit(o: PaperOrder, amount: real) {
    && amount > 0.0 && (o.price.Some? ==> amount == Cost(o.quantity, o.price.value))
    && (o.price.None? && o.trigger.Some? && !o.orderType.TrailingStop? ==>
          amount == Cost(o.quantity, o.trigger.value))
  }

  predicate Entries(orders: seq<Order>, reservations: map<nat, real>) {
    && (forall id | id in reservations ::
          id < |orders| && orders[id].Reserves() && CoversLimit(orders[id], reservations[id]))
    && (forall id: nat | id < |orders| && orders[id].Reserves() :: id in reservations)
  }

  ghost predicate Accounted(d: Desk) {
    Entries(d.orders, d.reservations) && d.ledger.reserved == Total(d.reservations)
  }

  lemma {:induction false} TotalOfPositive(m: map<nat, real>)
    requires forall k | k in m :: m[k] > 0.0
    ensures Total(m) >= 0.0
    decreases |m|
  {
    if m != map[] {
      var k :| k in m;
      TotalWithout(m, k);
      Smaller(m, k);
      TotalOfPositive(m - {k});
    }
  }

  lemma NoReservationExceedsTotal(m: map<nat, real>, id: nat)
    requires forall k | k in m :: m[k] > 0.0
    ensures 0.0 <= At(m, id) <= Total(m)
  {
    if id in m {
      TotalWithout(m, id);
      TotalOfPositive(m - {id});
    } else {
      TotalOfPositive(m);
    }
  }

  /** In an accounted desk handing back a reservation always succeeds. */
  lemma UnreserveSucceeds(d: Desk, id: nat)
    requires Accounted(d)
    ensures var u := Unreserved(d, id);
            && u.error.None? && u.desk.reservations == d.reservations - {id}
            && u.desk.ledger == d.ledger.(reserved := Total(d.reservations - {id}))
            && u.desk.ledger.reserved >= 0.0
  {
    hide Total;
    NoReservationExceedsTotal(d.reservations, id);
    TotalAfter(d.reservations, d.reservations - {id}, id);
    TotalOfPositive(d.reservations - {id});
  }

  /** Handing back the reservation of an order that stops resting. */
  lemma DroppingKeepsAccounts(d: Desk, id: nat, o: Order)
    requires Accounted(d) && id < |d.orders| && !o.Resting()
    ensures Accounted(Stored(Unreserved(d, id).desk, id, o))
  {
    hide Total, CoversLimit, Unreserved;
    UnreserveSucceeds(d, id);
    UnreservedOrders(d, id);
  }

  lemma UnreservedOrders(d: Desk, id: nat)
    ensures Unreserved(d, id).desk.orders == d.orders
  {
  }

  lemma {:induction false} SiblingsKeepAccounts(d: Desk, filled: nat, group: Option<nat>, i: nat, now: int)
    requires Accounted(d)
    ensures var a := SiblingsCancelled(d, filled, group, i, now); a.error.None? && Accounted(a.desk)
    decreases |d.orders| - i
  {
    hide Accounted, Unreserved;
    if group.None? || i >= |d.orders| {
    } else if i == filled || d.orders[i].ocoGroup != group || !d.orders[i].Resting() {
      SiblingsKeepAccounts(d, filled, group, i + 1, now);
    } else {
      UnreserveSucceeds(d, i);
      DroppingKeepsAccounts(d, i, Dropped(d.orders[i], Cancelled, now));
      UnreservedOrders(d, i);
      SiblingsKeepAccounts(Withdrawn(d, i, Cancelled, now).desk, filled, group, i + 1, now);
    }
  }

  lemma JoiningUnreserved(d: Desk, o: Order)
    requires Accounted(d) && !o.Reserves()
    ensures Accounted(d.(orders := d.orders + [o]))
  {
  }

  lemma JoiningReserved(d: Desk, o: Order, amount: real)
    requires Accounted(d) && o.Reserves() && CoversLimit(o, amount)
    ensures Accounted(Desk(d.ledger.(reserved := d.ledger.reserved + amount), d.book, d.orders + [o],
                           d.reservations[|d.orders| := amount], d.groups))
  {
    var n: nat := |d.orders|;
    assert n !in d.reservations;
    TotalAfter(d.reservations, d.reservations[n := amount], n);
  }

  lemma EnteringKeepsAccounts(d: Desk, o: Order, now: int)
    requires Accounted(d) && o.Resting()
    ensures Accounted(Entered(d, o, now))
  {
    hide Accounted;
    if !o.Reserves() {
      JoiningUnreserved(d, o);
    } else {
      JoiningUnreserved(d, Dropped(o, Rejected, now));
      CostIsPositive(o.quantity, o.WorstCase().value);
      JoiningReserved(d, o, Cost(o.quantity, o.WorstCase().value));
    }
  }

  lemma LegKeepsAccounts(d: Desk, entry: Order, id: nat, isStop: bool, level: Option<real>, group: nat, now: int)
    requires Accounted(d) && PositiveIfSet(level) && entry.averageFillPrice.Some?
    ensures Accounted(WithLeg(d, entry, id, isStop, level, group, now))
  {
    hide Entered, Accounted;
    if level.Some? && LegIsValid(entry.side, isStop, level.value, entry.averageFillPrice.value) {
      EnteringKeepsAccounts(d, LegOf(entry, id, isStop, level.value, group, now), now);
    }
  }

  lemma SpawningKeepsAccounts(d: Desk, entry: Order, id: nat, now: int)
    requires Accounted(d) && entry.averageFillPrice.Some?
    ensures Accounted(BracketSpawned(d, entry, id, now))
  {
    hide WithLeg, Total;
    var d0 := d.(groups := d.groups + 1);
    LegKeepsAccounts(d0, entry, id, true, entry.stopLoss, d.groups, now);
    LegKeepsAccounts(WithLeg(d0, entry, id, true, entry.stopLoss, d.groups, now),
                     entry, id, false, entry.target, d.groups, now);
  }

  lemma TradeKeepsAccounts(d: Desk, id: nat, price: real, now: int)
    requires Accounted(d) && Pays(d, id, price, now)
    ensures var s := Exchanging(d, id, price, now); s.error.None? && Accounted(s.desk)
  {
    hide Total, SiblingsCancelled, Unreserved, Filled, TradesOf, Entries;
    var o := Fired(d, id, price, now);
    var x := Filling(d, id, price, now);
    UnreservedOrders(d, id);
    DroppingKeepsAccounts(d, id, Completed(o, price, now));
    PaidKeepsReserved(Unreserved(d, id).desk.ledger, o, price);
    SiblingsKeepAccounts(x.desk, id, o.ocoGroup, 0, now);
  }

  lemma PaidKeepsReserved(l: Ledger, o: PaperOrder, price: real)
    requires Paid(l, o, price).Ok?
    ensures Paid(l, o, price).value.reserved == l.reserved
  {
  }

  /** Asking for a new amount: granted in full, or the old amount is taken
      again, which fails exactly when reserved cash had outgrown cash. */
  lemma RereservingSwapsOrUndoes(d: Desk, id: nat, amount: real)
    requires Accounted(d) && id in d.reservations && amount > 0.0
    ensures var a := Rereserved(d, id, amount);
            var held := d.reservations[id];
            && held > 0.0
            && (if amount > d.ledger.Available() + held + EPSILON then
                  && a.error.Some? && a.error.value.InsufficientCash?
                  && (d.ledger.reserved <= d.ledger.cash + EPSILON ==> a.desk == d)
                  && (d.ledger.reserved > d.ledger.cash + EPSILON ==>
                        a.desk == d.(ledger := d.ledger.(reserved := d.ledger.reserved - held)))
                else a == Attempt(d.(ledger := d.ledger.(reserved := d.ledger.reserved - held + amount),
                                     reservations := d.reservations[id := amount]), None))
  {
    hide Total;
    NoReservationExceedsTotal(d.reservations, id);
    assert d.ledger.(reserved := d.ledger.reserved - d.reservations[id] + d.reservations[id]) == d.ledger;
  }

  lemma AmendingReservation(d: Desk, id: nat, o: Order, amount: real)
    requires Accounted(d) && id in d.reservations && o.Reserves() && CoversLimit(o, amount)
    ensures var l := d.ledger.(reserved := d.ledger.reserved - d.reservations[id] + amount);
            Accounted(Stored(d.(ledger := l, reservations := d.reservations[id := amount]), id, o))
  {
    hide Total;
    TotalAfter(d.reservations, d.reservations[id := amount], id);
  }

  lemma AmendingUnreserved(d: Desk, id: nat, o: Order)
    requires Accounted(d) && id < |d.orders| && !o.Reserves() && !d.orders[id].Reserves()
    ensures Accounted(Stored(d, id, o))
  {
    hide Total;
  }

  /** A modification, from an accounted desk: it either re-reserves exactly the
      new amount, or it cannot be funded.  When it cannot, everything is exactly
      as before if and only if reserved cash was within cash. */
  lemma ModificationIsAllOrNothing(d: Desk, m: OrderModification, now: int)
    requires Accounted(d) && m.Valid()
    ensures var a := Modified(d, m, now);
            && (a.error.None? ==> Accounted(a.desk))
            && (Unfundable(d, m) <==> a.error.Some? && a.error.value.InsufficientCash?)
            && (a.error.Some? && !Unfundable(d, m) ==> a.desk == d)
            && (Unfundable(d, m) ==> (a.desk == d <==> d.ledger.reserved <= d.ledger.cash + EPSILON)
                                     && (a.desk == d <==> Accounted(a.desk)))
  {
    hide Total, Rereserved, CoversLimit;
    if Rests(d, m.orderId) {
      var id := m.orderId;
      var o := Amended(d.orders[id], m, now);
      if o.Reserves() {
        var amount := Cost(o.quantity, o.WorstCase().value);
        AmountCoversLimit(o);
        RereservingSwapsOrUndoes(d, id, amount);
        AmendingReservation(d, id, o, amount);
      } else {
        AmendingUnreserved(d, id, o);
      }
    }
  }

  lemma AmountCoversLimit(o: Order)
    requires o.Reserves()
    ensures CoversLimit(o, Cost(o.quantity, o.WorstCase().value)) && Cost(o.quantity, o.WorstCase().value) > 0.0
  {
    CostIsPositive(o.quantity, o.WorstCase().value);
  }

  /** Every unbroken move keeps the accounts. */
  lemma MoveKeepsAccounts(d: Desk, mv: Move)
    requires Enabled(d, mv) && Accounted(d) && !mv.Broken()
    ensures Accounted(Do(d, mv))
  {
    hide Total, Exchanged, Unreserved, Modified, BracketSpawned, Entered, Marked;
    match mv
    case Enter(o, now) => EnteringKeepsAccounts(d, o, now);
    case Look(id, price, now) => LookingKeepsEntries(d, id, price, now);
    case Trade(id, price, now) => TradeKeepsAccounts(d, id, price, now);
    case Refuse(id, price, now) =>
      UnreservedOrders(d, id);
      DroppingKeepsAccounts(d, id, Dropped(Fired(d, id, price, now), Rejected, now));
    case Spawn(id, now) => SpawningKeepsAccounts(d, d.orders[id], id, now);
    case Withdraw(id, now) =>
      UnreservedOrders(d, id);
      DroppingKeepsAccounts(d, id, Dropped(d.orders[id], Cancelled, now));
    case Amend(m, now) => ModificationIsAllOrNothing(d, m, now);
    case Mark(_, _, _) =>
  }

  lemma LookingKeepsEntries(d: Desk, id: nat, price: real, now: int)
    requires Accounted(d) && Rests(d, id) && price > 0.0
    ensures Accounted(Stored(d, id, Decide(d.orders[id], price, now).order))
  {
    hide Total;
  }

  /** In an accounted desk the two moves that stem from a refused release cannot happen. */
  lemma NothingIsLost(d: Desk, mv: Move)
    requires Enabled(d, mv) && Accounted(d)
    ensures !mv.Lose? && !mv.Strand?
  {
    hide Total, Exchanged, Unreserved;
    match mv
    case Lose(id, _) => UnreserveSucceeds(d, id);
    case Strand(id, price, now) => TradeKeepsAccounts(d, id, price, now);
    case _ =>
  }

  lemma {:induction false} PlayKeepsAccounts(d: Desk, ms: seq<Move>)
    requires Legal(d, ms) && Accounted(d) && NoForgo(ms) && NoSpoil(ms)
    ensures Sound(ms) && Accounted(Play(d, ms))
    decreases |ms|
  {
    hide Enabled, Do, Accounted;
    if ms != [] {
      NothingIsLost(d, ms[0]);
      MoveKeepsAccounts(d, ms[0]);
      PlayKeepsAccounts(Do(d, ms[0]), ms[1..]);
    }
  }
}
