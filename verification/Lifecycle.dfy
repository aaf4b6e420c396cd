/** The life of an order: what may change from one state to the next, and what never does. */
module Lifecycle {
  import opened Domain
  import opened Positions
  import opened Matching
  import opened OrderDesk
  import opened Moves

  /** What is fixed when an order is created. */
  predicate SameShape(o: Order, p: Order) {
    && p.key == o.key && p.side == o.side && p.orderType == o.orderType
    && p.parent == o.parent && p.ocoGroup == o.ocoGroup && p.stopLoss == o.stopLoss && p.target == o.target
    && p.trailingAmount == o.trailingAmount && p.trailingPercent == o.trailingPercent
    && p.createdAt == o.createdAt
  }

  /** The only ways an order may develop: a settled order is final, and only a
      stop-limit order goes from waiting for its trigger to open. */
  predicate Evolved(o: Order, p: Order) {
    && SameShape(o, p)
    && (!o.Resting() ==> p == o)
    && (p.status.TriggerPending? ==> o.status.TriggerPending?)
    && (o.status.TriggerPending? && p.status.Open? ==> o.orderType.StopLimit?)
  }

  /** No order is lost, and each develops as it may. */
  predicate Evolves(a: seq<Order>, b: seq<Order>) {
    |a| <= |b| && forall i | 0 <= i < |a| :: Evolved(a[i], b[i])
  }

  /** On the way from `a` to `b` nothing fills, and the newcomers are unfilled. */
  predicate NoFills(a: seq<Order>, b: seq<Order>) {
    && Evolves(a, b)
    && (forall i | 0 <= i < |a| :: b[i].status.Complete? == a[i].status.Complete?)
    && (forall i | |a| <= i < |b| :: !b[i].status.Complete?)
  }

  predicate NoNewLegs(a: seq<Order>, b: seq<Order>) {
    forall i | |a| <= i < |b| :: b[i].ocoGroup.None?
  }

  /** No order of `a` is rejected on the way to `b`. */
  predicate Spares(a: seq<Order>, b: seq<Order>) {
    |a| <= |b| && forall i | 0 <= i < |a| :: b[i].status.Rejected? ==> a[i].status.Rejected?
  }

  /** Nothing fills and nothing is rejected. */
  predicate Calm(a: seq<Order>, b: seq<Order>) { NoFills(a, b) && Spares(a, b) }

  lemma EvolvesFurther(a: seq<Order>, b: seq<Order>, c: seq<Order>)
    requires Evolves(a, b) && Evolves(b, c)
    ensures Evolves(a, c)
  {
  }

  lemma NothingHappens(a: seq<Order>)
    ensures Calm(a, a)
  {
  }

  lemma EnteringFillsNothing(d: Desk, o: Order, now: int)
    requires o.Resting()
    ensures var e := Entered(d, o, now);
            && Calm(d.orders, e.orders) && e.groups == d.groups && |e.orders| == |d.orders| + 1
            && SameShape(o, e.orders[|d.orders|]) && e.orders[..|d.orders|] == d.orders
  {
  }

  lemma LegFillsNothing(d: Desk, entry: Order, id: nat, isStop: bool, level: Option<real>, g: nat, now: int)
    requires PositiveIfSet(level) && entry.averageFillPrice.Some?
    ensures Calm(d.orders, WithLeg(d, entry, id, isStop, level, g, now).orders)
  {
    hide Entered;
    NothingHappens(d.orders);
    if level.Some? && LegIsValid(entry.side, isStop, level.value, entry.averageFillPrice.value) {
      EnteringFillsNothing(d, LegOf(entry, id, isStop, level.value, g, now), now);
    }
  }

  lemma SpawningFillsNothing(d: Desk, entry: Order, id: nat, now: int)
    requires entry.averageFillPrice.Some?
    ensures Calm(d.orders, BracketSpawned(d, entry, id, now).orders)
  {
    hide WithLeg;
    NothingHappens(d.orders);
    var d0 := d.(groups := d.groups + 1);
    LegFillsNothing(d0, entry, id, true, entry.stopLoss, d.groups, now);
    LegFillsNothing(WithLeg(d0, entry, id, true, entry.stopLoss, d.groups, now),
                    entry, id, false, entry.target, d.groups, now);
  }

  lemma AmendingFillsNothing(d: Desk, m: OrderModification, now: int)
    requires m.Valid()
    ensures var e := Modified(d, m, now).desk;
            Calm(d.orders, e.orders) && e.groups == d.groups && |e.orders| == |d.orders|
  {
    hide Rereserved;
    var r := RestingOrder(d.orders, m.orderId);
    if r.Ok? && Amended(r.value, m, now).Reserves() {
      var o := Amended(r.value, m, now);
      RereservingKeepsOrders(d, m.orderId, Cost(o.quantity, o.WorstCase().GetOr(0.0)));
    }
  }

  lemma RereservingKeepsOrders(d: Desk, id: nat, amount: real)
    ensures var r := Rereserved(d, id, amount).desk; r.orders == d.orders && r.groups == d.groups
  {
  }

  lemma LookingFillsNothing(d: Desk, id: nat, price: real, now: int)
    requires Rests(d, id) && price > 0.0
    ensures Calm(d.orders, Stored(d, id, Decide(d.orders[id], price, now).order).orders)
  {
  }

  lemma RefusingFillsNothing(d: Desk, id: nat, price: real, now: int)
    requires Enabled(d, Refuse(id, price, now))
    ensures var e := Do(d, Refuse(id, price, now));
            NoFills(d.orders, e.orders) && e.groups == d.groups && |e.orders| == |d.orders|
  {
    hide Paid;
  }

  lemma WithdrawingFillsNothing(d: Desk, id: nat, now: int)
    requires Rests(d, id)
    ensures var w := Withdrawn(d, id, Cancelled, now);
            && Calm(d.orders, w.desk.orders) && w.desk.groups == d.groups
            && (w.error.None? ==> !w.desk.orders[id].Resting())
  {
  }

  lemma {:induction false} SiblingsFillNothing(d: Desk, filled: nat, group: Option<nat>, i: nat, now: int)
    ensures var a := SiblingsCancelled(d, filled, group, i, now);
            Calm(d.orders, a.desk.orders) && a.desk.groups == d.groups
    decreases |d.orders| - i
  {
    hide Withdrawn;
    if group.None? || i >= |d.orders| {
    } else if i == filled || d.orders[i].ocoGroup != group || !d.orders[i].Resting() {
      SiblingsFillNothing(d, filled, group, i + 1, now);
    } else {
      WithdrawingFillsNothing(d, i, now);
      SiblingsFillNothing(Withdrawn(d, i, Cancelled, now).desk, filled, group, i + 1, now);
    }
  }

  /** What a fill that cannot be recorded leaves behind. */
  lemma SpoilingKeepsOrders(d: Desk, id: nat, price: real, now: int)
    requires Spoils(d, id, price, now)
    ensures var (u, o) := (Unreserved(d, id).desk, Fired(d, id, price, now));
            var s := Exchanging(d, id, price, now);
            && s == Step(Spoiled(u, id, o, Paid(u.ledger, o, price).value, price, now), [], Some(ValidationFailed))
            && s.desk.orders == d.orders && s.desk.groups == d.groups
  {
    hide Unrecordable, Executed, SiblingsCancelled, Filled;
  }

  /** Only `Trade` and `Strand` fill an order, and only `Spawn` makes legs. */
  lemma OtherMovesFillNothing(d: Desk, mv: Move)
    requires Enabled(d, mv) && !mv.Trade? && !mv.Strand?
    ensures var e := Do(d, mv);
            && NoFills(d.orders, e.orders) && (!mv.Refuse? ==> Spares(d.orders, e.orders))
            && (!mv.Spawn? ==> NoNewLegs(d.orders, e.orders) && e.groups == d.groups)
            && (!mv.Enter? && !mv.Spawn? ==> |e.orders| == |d.orders|)
  {
    hide NoFills, Spares, Exchanged, Entered, Modified, Withdrawn, BracketSpawned, Rereserved;
    NothingHappens(d.orders);
    match mv
    case Enter(o, now) => EnteringFillsNothing(d, o, now);
    case Look(id, price, now) => LookingFillsNothing(d, id, price, now);
    case Refuse(id, price, now) => RefusingFillsNothing(d, id, price, now);
    case Spawn(id, now) => SpawningFillsNothing(d, d.orders[id], id, now);
    case Withdraw(id, now) => WithdrawingFillsNothing(d, id, now);
    case Amend(m, now) => AmendingFillsNothing(d, m, now);
    case Forgo(id, amount, _) => RereservingKeepsOrders(d, id, amount);
    case Spoil(id, price, now) => SpoilingKeepsOrders(d, id, price, now);
    case _ =>
  }

  /** The desk right after the fill of a `Trade` or `Strand`, before its group is cancelled. */
  function Filling(d: Desk, id: nat, price: real, now: int): Step
    requires Pays(d, id, price, now)
  {
    var u := Unreserved(d, id).desk;
    var o := Fired(d, id, price, now);
    Executed(u, id, o, Paid(u.ledger, o, price).value, price, now)
  }

  /** A trade is its fill followed by the cancellation of the order's group. */
  lemma FillingIsTrade(d: Desk, id: nat, price: real, now: int)
    requires Pays(d, id, price, now)
    ensures var c := SiblingsCancelled(Filling(d, id, price, now).desk, id, d.orders[id].ocoGroup, 0, now);
            Exchanging(d, id, price, now).desk == c.desk && Exchanging(d, id, price, now).error == c.error
  {
    hide Executed, SiblingsCancelled;
  }

  lemma FillingCompletes(d: Desk, id: nat, price: real, now: int)
    requires Pays(d, id, price, now)
    ensures var x := Filling(d, id, price, now).desk;
            && x.groups == d.groups
            && x.orders == d.orders[id := Completed(Fired(d, id, price, now), price, now)]
            && Evolved(d.orders[id], x.orders[id])
  {
    hide Filled, TradesOf, Completed;
    CompletingEvolves(d, id, price, now);
  }

  lemma CompletingEvolves(d: Desk, id: nat, price: real, now: int)
    requires Fires(d, id, price, now)
    ensures Evolved(d.orders[id], Completed(Fired(d, id, price, now), price, now))
  {
  }

  lemma TradeEvolves(d: Desk, id: nat, price: real, now: int)
    requires Pays(d, id, price, now)
    ensures var e := Exchanging(d, id, price, now).desk;
            && Evolves(d.orders, e.orders) && Spares(d.orders, e.orders)
            && |e.orders| == |d.orders| && e.groups == d.groups
  {
    hide Filling, SiblingsCancelled, Exchanging, Evolved;
    var x := Filling(d, id, price, now).desk;
    FillingIsTrade(d, id, price, now);
    FillingCompletes(d, id, price, now);
    NothingHappens(d.orders);
    SiblingsFillNothing(x, id, d.orders[id].ocoGroup, 0, now);
    EvolvesFurther(d.orders, x.orders, Exchanging(d, id, price, now).desk.orders);
  }

  /** Every move, broken or not, lets orders develop only as they may. */
  lemma MoveEvolves(d: Desk, mv: Move)
    requires Enabled(d, mv)
    ensures Evolves(d.orders, Do(d, mv).orders)
    ensures !mv.Refuse? ==> Spares(d.orders, Do(d, mv).orders)
  {
    hide Exchanged, Evolved;
    if mv.Trade? || mv.Strand? {
      TradeEvolves(d, mv.id, mv.price, mv.now);
    } else {
      OtherMovesFillNothing(d, mv);
    }
  }

  lemma {:induction false} PlayEvolves(d: Desk, ms: seq<Move>)
    requires Legal(d, ms)
    ensures Evolves(d.orders, Play(d, ms).orders)
    ensures (forall i | 0 <= i < |ms| :: !ms[i].Refuse?) ==> Spares(d.orders, Play(d, ms).orders)
    decreases |ms|
  {
    hide Enabled, Do, Evolved;
    if ms == [] {
      NothingHappens(d.orders);
    } else {
      MoveEvolves(d, ms[0]);
      PlayEvolves(Do(d, ms[0]), ms[1..]);
      EvolvesFurther(d.orders, Do(d, ms[0]).orders, Play(d, ms).orders);
    }
  }
}
