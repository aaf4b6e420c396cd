/** The order desk as a value: every operation of the order manager as a
    function from the state before to the state after, errors included. */
module OrderDesk {
  import opened Domain
  import opened Fifo
  import opened Sums
  import opened Portfolios
  import opened Positions
  import opened Matching

  /** `orders` is the order dictionary in insertion order; `groups` counts the
      one-cancels-other groups made so far. */
  datatype Desk = Desk(ledger: Ledger, book: Book, orders: seq<Order>,
                       reservations: map<nat, real>, groups: nat)

  function NewDesk(capital: real): Desk { Desk(Fresh(capital), EMPTY, [], map[], 0) }

  /** The state an operation leaves, what it returns, and what it raises. */
  datatype Step = Step(desk: Desk, closed: seq<ClosedTrade>, error: Option<Error>)

  /** A sub-step that returns nothing. */
  datatype Attempt = Attempt(desk: Desk, error: Option<Error>)

  /** Hand back the cash held for order `id`.  The reservation is forgotten
      before the ledger is asked, so it is lost when the ledger raises. */
  function Unreserved(d: Desk, id: nat): Attempt {
    var held := At(d.reservations, id);
    var popped := d.(reservations := d.reservations - {id});
    if held == 0.0 then Attempt(popped, None)
    else match Released(d.ledger, held)
      case Ok(l) => Attempt(popped.(ledger := l), None)
      case Err(e) => Attempt(popped, Some(e))
  }

  function Stored(d: Desk, id: nat, o: Order): Desk
    requires id < |d.orders|
  {
    d.(orders := d.orders[id := o])
  }

  // ---------- Settlement ----------

  function TradeOf(orders: seq<Order>, exit: nat, key: Key, c: ClosedLot): ClosedTrade {
    var entry := if c.entry.orderId < |orders| then Some(orders[c.entry.orderId]) else None;
    ClosedTrade(key, c.entry.side, c.quantity, c.entry.price, c.exitPrice,
                if entry.Some? then entry.value.stopLoss else None,
                if entry.Some? then entry.value.target else None,
                c.pnl, c.entry.orderId, exit, c.entry.timestamp, c.exitTime)
  }

  function TradesOf(orders: seq<Order>, exit: nat, key: Key, closed: seq<ClosedLot>): (ts: seq<ClosedTrade>)
    ensures |ts| == |closed|
  {
    if closed == [] then [] else [TradeOf(orders, exit, key, closed[0])] + TradesOf(orders, exit, key, closed[1..])
  }

  /** The cash leg of a fill. */
  function Paid(l: Ledger, o: PaperOrder, price: real): Result<Ledger> {
    if o.side.Buy? then Debited(l, Cost(o.quantity, price)) else Credited(l, Cost(o.quantity, price))
  }

  function Completed(o: Order, price: real, now: int): Order
    requires price > 0.0 && o.WithinLimit(price)
  {
    o.(status := Complete, filledQuantity := o.quantity, averageFillPrice := Some(price), updatedAt := now)
  }

  function Dropped(o: Order, status: Status, now: int): Order
    requires o.Resting() && (status.Rejected? || status.Cancelled?)
  {
    o.(status := status, updatedAt := now)
  }

  /** The fill itself: cash, lots, realized profit and the order's own record. */
  function Executed(d: Desk, id: nat, o: Order, paid: Ledger, price: real, now: int): (s: Step)
    requires id < |d.orders| && price > 0.0 && o.WithinLimit(price)
    ensures |s.desk.orders| == |d.orders|
  {
    var f := Filled(d.book, o.key, o.side, o.quantity, price, id, now);
    var d1 := d.(ledger := paid.(realized := paid.realized + TotalPnl(f.closed)), book := f.book);
    Step(Stored(d1, id, Completed(o, price, now)), TradesOf(d.orders, id, o.key, f.closed), None)
  }

  /** A round trip that would end before it began cannot be recorded.  By then
      cash and lots have moved, and profit is booked up to that piece. */
  predicate Unrecordable(b: Book, o: PaperOrder, price: real, now: int) {
    AnyLate(ClosedBy(b.Lots(o.key), o.side, o.quantity, price, now).closed)
  }

  function Spoiled(d: Desk, id: nat, o: Order, paid: Ledger, price: real, now: int): Desk
    requires price > 0.0
  {
    var f := Filled(d.book, o.key, o.side, o.quantity, price, id, now);
    d.(ledger := paid.(realized := paid.realized + TotalPnl(UntilLate(f.closed))), book := f.book)
  }

  /** Drop a resting order and hand back what it reserved. */
  function Withdrawn(d: Desk, id: nat, status: Status, now: int): (a: Attempt)
    requires id < |d.orders| && d.orders[id].Resting() && (status.Rejected? || status.Cancelled?)
    ensures |a.desk.orders| == |d.orders|
  {
    var u := Unreserved(d, id);
    if u.error.Some? then u else Attempt(Stored(u.desk, id, Dropped(d.orders[id], status, now)), None)
  }

  /** Cancel every other resting member of the filled order's group, from index `i` on. */
  function SiblingsCancelled(d: Desk, filled: nat, group: Option<nat>, i: nat, now: int): (a: Attempt)
    ensures |a.desk.orders| == |d.orders|
    ensures filled < |d.orders| ==> a.desk.orders[filled] == d.orders[filled]
    decreases |d.orders| - i
  {
    if group.None? || i >= |d.orders| then Attempt(d, None)
    else if i == filled || d.orders[i].ocoGroup != group || !d.orders[i].Resting() then
      SiblingsCancelled(d, filled, group, i + 1, now)
    else
      var w := Withdrawn(d, i, Cancelled, now);
      if w.error.Some? then w else SiblingsCancelled(w.desk, filled, group, i + 1, now)
  }

  predicate LegIsValid(side: Side, isStop: bool, level: real, fill: real) {
    if side.Buy? == isStop then level < fill else level > fill
  }

  function LegOf(entry: Order, entryId: nat, isStop: bool, level: real, group: nat, now: int): Order
    requires level > 0.0
  {
    PaperOrder(entry.key, entry.side.Opposite(), if isStop then Stop else Limit, entry.quantity, 0,
               if isStop then None else Some(level), if isStop then Some(level) else None,
               None, None, None, if isStop then TriggerPending else Open, None, None,
               Some(entryId), Some(group), now, now)
  }

  /** Append a new order, reserving the worst-case cost of a BUY; an order
      that cannot be funded is stored as rejected. */
  function Entered(d: Desk, o: Order, now: int): (e: Desk)
    requires o.Resting()
    ensures |e.orders| == |d.orders| + 1
  {
    if !o.Reserves() then d.(orders := d.orders + [o])
    else
      var amount := Cost(o.quantity, o.WorstCase().GetOr(0.0));
      match Reserved(d.ledger, amount)
      case Ok(l) => d.(ledger := l, orders := d.orders + [o], reservations := d.reservations[|d.orders| := amount])
      case Err(_) => d.(orders := d.orders + [Dropped(o, Rejected, now)])
  }

  function WithLeg(d: Desk, entry: Order, entryId: nat, isStop: bool, level: Option<real>, group: nat, now: int)
    : (e: Desk)
    requires PositiveIfSet(level) && entry.averageFillPrice.Some?
    ensures |e.orders| >= |d.orders|
  {
    if level.Some? && LegIsValid(entry.side, isStop, level.value, entry.averageFillPrice.value) then
      Entered(d, LegOf(entry, entryId, isStop, level.value, group, now), now)
    else d
  }

  function BracketSpawned(d: Desk, entry: Order, entryId: nat, now: int): (e: Desk)
    requires entry.averageFillPrice.Some?
    ensures |e.orders| >= |d.orders|
  {
    if entry.parent.Some? || (entry.stopLoss.None? && entry.target.None?) then d
    else
      var d0 := d.(groups := d.groups + 1);
      var d1 := WithLeg(d0, entry, entryId, true, entry.stopLoss, d.groups, now);
      WithLeg(d1, entry, entryId, false, entry.target, d.groups, now)
  }

  /** A fill up to and including the cancellation of its group: hand back the
      reservation, pay, execute.  A BUY that cannot be paid is rejected; a fill
      that cannot be recorded raises and leaves the order as it was. */
  function Exchanged(d: Desk, id: nat, o: Order, price: real, now: int): (s: Step)
    requires id < |d.orders| && price > 0.0 && o.Resting() && o.WithinLimit(price)
    ensures |s.desk.orders| == |d.orders|
  {
    var u := Unreserved(d, id);
    if u.error.Some? then Step(u.desk, [], u.error)
    else match Paid(u.desk.ledger, o, price)
      case Err(e) =>
        if e.InsufficientCash? then Step(Stored(u.desk, id, Dropped(o, Rejected, now)), [], None)
        else Step(u.desk, [], Some(e))
      case Ok(l) =>
        if Unrecordable(u.desk.book, o, price, now) then
          Step(Spoiled(u.desk, id, o, l, price, now), [], Some(ValidationFailed))
        else
          var x := Executed(u.desk, id, o, l, price, now);
          var c := SiblingsCancelled(x.desk, id, o.ocoGroup, 0, now);
          Step(c.desk, if c.error.Some? then [] else x.closed, c.error)
  }

  /** Settle an order that fills at `price`, bracket legs included. */
  function Settled(d: Desk, id: nat, o: Order, price: real, now: int): (s: Step)
    requires id < |d.orders| && price > 0.0 && o.Resting() && o.WithinLimit(price)
    ensures |s.desk.orders| >= |d.orders|
  {
    var s := Exchanged(d, id, o, price, now);
    if s.error.Some? || !s.desk.orders[id].status.Complete? then s
    else s.(desk := BracketSpawned(s.desk, Completed(o, price, now), id, now))
  }

  /** Match the stored order `id` against a price and settle it if it fires. */
  function Evaluated(d: Desk, id: nat, price: real, now: int): (s: Step)
    requires id < |d.orders| && d.orders[id].Resting() && price > 0.0
    ensures |s.desk.orders| >= |d.orders|
  {
    match Decide(d.orders[id], price, now)
    case Rest(o) => Step(Stored(d, id, o), [], None)
    case Fill(o) => Settled(d, id, o, price, now)
  }

  // ---------- The four operations ----------

  function TriggerFor(req: PaperOrderRequest, price: real): Option<real> {
    if req.orderType.TrailingStop? then
      Some(InitialTrailingTrigger(req.side, price, req.trailingAmount, req.trailingPercent))
    else req.trigger
  }

  function OrderFor(req: PaperOrderRequest, price: real, now: int): Order
    requires req.Valid() && PositiveIfSet(TriggerFor(req, price))
  {
    PaperOrder(req.key, req.side, req.orderType, req.quantity, 0, req.price, TriggerFor(req, price),
               req.trailingAmount, req.trailingPercent, None,
               if req.orderType.WaitsForTrigger() then TriggerPending else Open,
               req.stopLoss, req.target, None, None, now, now)
  }

  /** Place an order; the new order's id is the number of orders before. */
  function Placed(d: Desk, req: PaperOrderRequest, price: real, now: int): Step
    requires req.Valid()
  {
    if price <= 0.0 then Step(d, [], Some(InvalidArgument))
    else if !PositiveIfSet(TriggerFor(req, price)) then Step(d, [], Some(ValidationFailed))
    else
      var id := |d.orders|;
      var e := Entered(d, OrderFor(req, price, now), now);
      if e.orders[id].Resting() then Evaluated(e, id, price, now) else Step(e, [], None)
  }

  /** The stored order, if it exists and rests. */
  function RestingOrder(orders: seq<Order>, id: nat): Result<Order> {
    if id >= |orders| then Err(OrderNotFound)
    else if !orders[id].Resting() then Err(InvalidOrderState)
    else Ok(orders[id])
  }

  function CancelledOrder(d: Desk, id: nat, now: int): Attempt {
    match RestingOrder(d.orders, id)
    case Err(e) => Attempt(d, Some(e))
    case Ok(o) =>
      Withdrawn(d, id, Cancelled, now)
  }

  function Amended(o: Order, m: OrderModification, now: int): Order
    requires o.Resting() && m.Valid()
  {
    o.(quantity := m.quantity.GetOr(o.quantity),
       price := if m.price.Some? then m.price else o.price,
       trigger := if m.trigger.Some? then m.trigger else o.trigger,
       updatedAt := now)
  }

  /** Swap a reservation for a new amount.  When the new amount cannot be
      funded the old one is asked for again, and that too can raise. */
  function Rereserved(d: Desk, id: nat, amount: real): Attempt {
    var held := At(d.reservations, id);
    var released := if held == 0.0 then Ok(d.ledger) else Released(d.ledger, held);
    match released
    case Err(e) => Attempt(d, Some(e))
    case Ok(l) =>
      match Reserved(l, amount)
      case Ok(l1) => Attempt(d.(ledger := l1, reservations := d.reservations[id := amount]), None)
      case Err(e) =>
        if held == 0.0 then Attempt(d.(ledger := l), Some(e))
        else match Reserved(l, held)
          case Ok(l2) => Attempt(d.(ledger := l2), Some(e))
          case Err(e2) => Attempt(d.(ledger := l), Some(e2))
  }

  function Modified(d: Desk, m: OrderModification, now: int): Attempt
    requires m.Valid()
  {
    match RestingOrder(d.orders, m.orderId)
    case Err(e) => Attempt(d, Some(e))
    case Ok(o) =>
      var updated := Amended(o, m, now);
      if !updated.Reserves() then Attempt(Stored(d, m.orderId, updated), None)
      else
        var r := Rereserved(d, m.orderId, Cost(updated.quantity, updated.WorstCase().GetOr(0.0)));
        if r.error.Some? then r else Attempt(Stored(r.desk, m.orderId, updated), None)
  }

  /** Resting orders of one instrument, in insertion order, from index `i` on. */
  function Candidates(orders: seq<Order>, key: Key, i: nat): (ids: seq<nat>)
    ensures forall j :: j in ids <==> i <= j < |orders| && orders[j].key == key && orders[j].Resting()
    ensures forall a | 0 <= a < |ids| :: ids[a] in ids && ids[a] < |orders|
    decreases |orders| - i
  {
    if i >= |orders| then []
    else
      var rest := Candidates(orders, key, i + 1);
      if orders[i].key == key && orders[i].Resting() then [i] + rest else rest
  }

  /** Evaluate the listed orders one after the other, skipping those that an
      earlier one has settled. */
  function Passed(d: Desk, ids: seq<nat>, price: real, now: int): Step
    requires price > 0.0
    requires forall i | 0 <= i < |ids| :: ids[i] < |d.orders|
    decreases |ids|
  {
    if ids == [] then Step(d, [], None)
    else if !d.orders[ids[0]].Resting() then Passed(d, ids[1..], price, now)
    else
      var s := Evaluated(d, ids[0], price, now);
      if s.error.Some? then s
      else
        var rest := Passed(s.desk, ids[1..], price, now);
        if rest.error.Some? then rest else rest.(closed := s.closed + rest.closed)
  }

  function PriceProcessed(d: Desk, key: Key, price: real, now: int): Step
  {
    if price <= 0.0 then Step(d, [], Some(InvalidArgument))
    else Passed(d, Candidates(d.orders, key, 0), price, now)
  }
}
