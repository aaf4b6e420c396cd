/** What the calls of a client do to the order they are about, field by field:
    a cancellation withdraws it, a modification rewrites what it sets, and a
    placement stores what was asked for, bracket included. */
module Calls {
  import opened Domain
  import opened Positions
  import opened Matching
  import opened OrderDesk
  import opened Engine
  import opened Moves
  import opened Reservations
  import opened PricePass

  /** The cash set aside for order `id`. */
  function Held(d: Desk, id: nat): real { if id in d.reservations then d.reservations[id] else 0.0 }

  /** Every order but `id` is as it was. */
  predicate OthersKept(a: seq<Order>, b: seq<Order>, id: nat) {
    |a| == |b| && forall i: nat | i < |a| && i != id :: b[i] == a[i]
  }

  // ---------- Cancellation ----------

  /** A cancellation succeeds exactly for a known order at rest whose
      reservation reserved cash can give back.  Then the order is cancelled and
      otherwise as it was, its reservation is gone, reserved cash is lower by
      what it held, and nothing else has changed.  A cancellation that raises
      changes nothing, unless the release was refused: then the entry is lost. */
  lemma CancellationWithdraws(e: Engine, id: nat, now: int)
    ensures var d := e.desk; var error := CancelledOrder(d, id, now).error; var f := Apply(e, Cancel(id, now));
            && f.trades == e.trades && f.desk.book == d.book && f.desk.groups == d.groups
            && OthersKept(d.orders, f.desk.orders, id)
            && (error == Some(OrderNotFound) <==> id >= |d.orders|)
            && (error == Some(InvalidOrderState) <==> id < |d.orders| && !d.orders[id].Resting())
            && (error.None? <==> Rests(d, id) && (Held(d, id) == 0.0
                                                  || 0.0 <= Held(d, id) <= d.ledger.reserved + EPSILON))
            && (error.None? ==>
                  && f.desk.orders[id] == d.orders[id].(status := Cancelled, updatedAt := now)
                  && f.desk.reservations == d.reservations - {id}
                  && f.desk.ledger == d.ledger.(reserved := d.ledger.reserved - Held(d, id)))
            && (error.Some? && !Rests(d, id) ==> f == e)
            && (error.Some? && Rests(d, id) ==> f.desk == d.(reservations := d.reservations - {id}))
  {
  }

  /** On an accounted desk, so in every prudent run, a resting order can always be cancelled. */
  lemma RestingOrderCanBeCancelled(d: Desk, id: nat, now: int)
    requires Accounted(d)
    ensures CancelledOrder(d, id, now).error.None? <==> Rests(d, id)
  {
    hide Accounted;
    UnreserveSucceeds(d, id);
  }

  // ---------- Modification ----------

  /** What a BUY that waits at these terms has to set aside: its limit's cost, or else its trigger's. */
  function Needed(o: PaperOrder, quantity: int, price: Option<real>, trigger: Option<real>): real {
    if o.side.Sell? || o.orderType.Market? then 0.0
    else quantity as real * (if price.Some? then price.value else trigger.GetOr(0.0))
  }

  /** The field after a modification. */
  function Set<T>(field: Option<T>, change: Option<T>): Option<T> { if change.Some? then change else field }

  /** What a successful swap of reservations leaves. */
  lemma SwappingSets(d: Desk, id: nat, amount: real)
    requires Rereserved(d, id, amount).error.None?
    ensures Rereserved(d, id, amount).desk
            == d.(ledger := d.ledger.(reserved := d.ledger.reserved - Held(d, id) + amount),
                  reservations := d.reservations[id := amount])
  {
  }

  /** A modification writes exactly the fields that are set, and nothing else
      of any order, and swaps the reservation for what the new terms need. */
  lemma ModificationWrites(e: Engine, m: OrderModification, now: int)
    requires m.Valid() && Modified(e.desk, m, now).error.None?
    ensures var d := e.desk; var f := Apply(e, Modify(m, now)); var id := m.orderId;
            && Rests(d, id) && OthersKept(d.orders, f.desk.orders, id)
            && f.trades == e.trades && f.desk.book == d.book && f.desk.groups == d.groups
            && var (o, p) := (d.orders[id], f.desk.orders[id]);
               && p.quantity == (if m.quantity.Some? then m.quantity.value else o.quantity)
               && p.price == Set(o.price, m.price) && p.trigger == Set(o.trigger, m.trigger)
               && p == o.(quantity := p.quantity, price := p.price, trigger := p.trigger, updatedAt := now)
               && var needed := Needed(o, p.quantity, p.price, p.trigger);
                  if o.side.Buy? && !o.orderType.Market? then
                    && f.desk.reservations == d.reservations[id := needed]
                    && f.desk.ledger == d.ledger.(reserved := d.ledger.reserved - Held(d, id) + needed)
                  else f.desk.reservations == d.reservations && f.desk.ledger == d.ledger
  {
    hide Rereserved, Needed, Cost, Amended, PaperOrder.WorstCase, Set;
    var o := Amended(e.desk.orders[m.orderId], m, now);
    AmendedFields(e.desk.orders[m.orderId], m, now);
    if o.Reserves() { SwappingSets(e.desk, m.orderId, Cost(o.quantity, o.WorstCase().GetOr(0.0))); }
  }

  lemma AmendedFields(o: Order, m: OrderModification, now: int)
    requires o.Resting() && m.Valid()
    ensures var p := Amended(o, m, now);
            && p.quantity == (if m.quantity.Some? then m.quantity.value else o.quantity)
            && p.price == Set(o.price, m.price) && p.trigger == Set(o.trigger, m.trigger)
            && p == o.(quantity := p.quantity, price := p.price, trigger := p.trigger, updatedAt := now)
            && (p.Reserves() <==> o.side.Buy? && !o.orderType.Market?)
            && (p.Reserves() ==>
                  p.WorstCase().Some? &&
                  Cost(p.quantity, p.WorstCase().GetOr(0.0)) == Needed(o, p.quantity, p.price, p.trigger))
  {
  }

  /** From an accounted desk it goes through exactly when the order rests and
      what it newly needs is available, its old reservation included. */
  lemma ModificationSucceedsExactly(d: Desk, m: OrderModification, now: int)
    requires m.Valid() && Accounted(d)
    ensures Modified(d, m, now).error.None?
            <==> Rests(d, m.orderId)
                 && var o := d.orders[m.orderId];
                    o.side.Buy? && !o.orderType.Market? ==>
                      Needed(o, if m.quantity.Some? then m.quantity.value else o.quantity, Set(o.price, m.price),
                             Set(o.trigger, m.trigger))
                      <= d.ledger.cash - d.ledger.reserved + Held(d, m.orderId) + EPSILON
  {
    hide Accounted, Rereserved, CoversLimit, Needed, Cost, Amended, PaperOrder.WorstCase, Set;
    if Rests(d, m.orderId) {
      var o := Amended(d.orders[m.orderId], m, now);
      AmendedFields(d.orders[m.orderId], m, now);
      if o.Reserves() {
        AmountCoversLimit(o);
        SwappingSucceedsExactly(d, m.orderId, Cost(o.quantity, o.WorstCase().GetOr(0.0)));
      }
    }
  }

  lemma SwappingSucceedsExactly(d: Desk, id: nat, amount: real)
    requires Accounted(d) && Rests(d, id) && d.orders[id].Reserves() && amount > 0.0
    ensures Rereserved(d, id, amount).error.None? <==> amount <= d.ledger.Available() + Held(d, id) + EPSILON
  {
    hide Rereserved;
    RereservingSwapsOrUndoes(d, id, amount);
  }

  // ---------- Placement ----------

  /** What was asked for: kept from the request to the stored order, whatever becomes of it. */
  predicate AskedFor(o: PaperOrder, req: PaperOrderRequest) {
    && o.key == req.key && o.side == req.side && o.orderType == req.orderType && o.quantity == req.quantity
    && o.price == req.price && (!req.orderType.TrailingStop? ==> o.trigger == req.trigger)
    && o.trailingAmount == req.trailingAmount && o.trailingPercent == req.trailingPercent
    && o.stopLoss == req.stopLoss && o.target == req.target && o.parent.None? && o.ocoGroup.None?
  }

  /** The trigger a new order starts from: what was asked for, or the trailing
      distance below the price for a SELL and above it for a BUY. */
  function FirstTrigger(req: PaperOrderRequest, price: real): Option<real> {
    if !req.orderType.TrailingStop? then req.trigger
    else if req.trailingAmount.Some? then
      Some(if req.side.Sell? then price - req.trailingAmount.value else price + req.trailingAmount.value)
    else if req.trailingPercent.Some? then
      Some(if req.side.Sell? then price * (1.0 - req.trailingPercent.value / 100.0)
           else price * (1.0 + req.trailingPercent.value / 100.0))
    else None
  }

  lemma TriggerIsFirst(req: PaperOrderRequest, price: real)
    requires req.Valid()
    ensures TriggerFor(req, price) == FirstTrigger(req, price)
  {
    if req.orderType.TrailingStop? && req.trailingAmount.None? {
      var percent := req.trailingPercent.value;
      assert TrailingOffset(req.trailingAmount, req.trailingPercent, price) == price * percent / 100.0;
      hide TrailingOffset;
      PercentOff(price, percent);
    }
  }

  lemma PercentOff(price: real, percent: real)
    ensures price * (1.0 - percent / 100.0) == price - price * percent / 100.0
    ensures price * (1.0 + percent / 100.0) == price + price * percent / 100.0
  {
    var part := percent / 100.0;
    assert price * percent / 100.0 == price * part;
    assert price * (1.0 - part) == price - price * part;
    assert price * (1.0 + part) == price + price * part;
  }

  /** One evaluation keeps what was asked for, whether it rests, fills, is refused or raises. */
  lemma EvaluationKeepsRequest(d: Desk, id: nat, price: real, now: int, req: PaperOrderRequest)
    requires Rests(d, id) && price > 0.0 && AskedFor(d.orders[id], req)
    ensures var o := Evaluated(d, id, price, now).desk.orders[id];
            AskedFor(o, req) && (o.status.Complete? ==> o.averageFillPrice == Some(price))
  {
    hide Exchanged, BracketSpawned;
    DecidingKeepsRequest(d.orders[id], price, now, req);
    if Decide(d.orders[id], price, now).Fill? {
      var x := Exchanging(d, id, price, now);
      ExchangeKeepsRequest(d, id, price, now, req);
      if x.error.None? && x.desk.orders[id].status.Complete? {
        SpawnedAreQuiet(x.desk, Completed(Fired(d, id, price, now), price, now), id, now);
      }
    }
  }

  lemma DecidingKeepsRequest(o: Order, price: real, now: int, req: PaperOrderRequest)
    requires o.Resting() && price > 0.0 && AskedFor(o, req)
    ensures AskedFor(Decide(o, price, now).order, req)
  {
  }

  lemma ExchangeKeepsRequest(d: Desk, id: nat, price: real, now: int, req: PaperOrderRequest)
    requires Fires(d, id, price, now) && AskedFor(d.orders[id], req) && AskedFor(Fired(d, id, price, now), req)
    ensures var o := Exchanging(d, id, price, now).desk.orders[id];
            AskedFor(o, req) && (o.status.Complete? ==> o.averageFillPrice == Some(price))
  {
    hide SiblingsCancelled, Filled, TradesOf, Unrecordable, Decide, AskedFor;
    var o := Fired(d, id, price, now);
    CompletingKeepsRequest(o, price, now, req);
    UnreservedOrders(d, id);
  }

  lemma CompletingKeepsRequest(o: Order, price: real, now: int, req: PaperOrderRequest)
    requires price > 0.0 && o.WithinLimit(price) && o.Resting() && AskedFor(o, req)
    ensures AskedFor(Completed(o, price, now), req) && AskedFor(Dropped(o, Rejected, now), req)
  {
  }

  /** A placement at a positive price stores one order with what was asked for,
      filled, at rest or rejected, also when the call raises; a trailing stop
      whose first trigger would not be positive is refused outright. */
  lemma PlacementStores(d: Desk, req: PaperOrderRequest, price: real, now: int)
    requires req.Valid()
    ensures var s := Placed(d, req, price, now); var n := |d.orders|;
            if price <= 0.0 then s == Step(d, [], Some(InvalidArgument))
            else if !PositiveIfSet(FirstTrigger(req, price)) then s == Step(d, [], Some(ValidationFailed))
            else
              && n < |s.desk.orders| && AskedFor(s.desk.orders[n], req)
              && (s.desk.orders[n].status.Complete? ==> s.desk.orders[n].averageFillPrice == Some(price))
  {
    hide Evaluated, Decide, AskedFor, TriggerFor, FirstTrigger;
    TriggerIsFirst(req, price);
    if price > 0.0 && PositiveIfSet(TriggerFor(req, price)) { EnteredIsAskedFor(d, req, price, now); }
  }

  lemma EnteredIsAskedFor(d: Desk, req: PaperOrderRequest, price: real, now: int)
    requires req.Valid() && price > 0.0 && PositiveIfSet(TriggerFor(req, price))
    ensures var s := Placed(d, req, price, now); var n: nat := |d.orders|;
            && n < |s.desk.orders| && AskedFor(s.desk.orders[n], req)
            && (s.desk.orders[n].status.Complete? ==> s.desk.orders[n].averageFillPrice == Some(price))
  {
    hide Evaluated;
    var n: nat := |d.orders|;
    var e := Entered(d, OrderFor(req, price, now), now);
    assert AskedFor(e.orders[n], req);
    if e.orders[n].Resting() { EvaluationKeepsRequest(e, n, price, now, req); }
  }

  /** The cash a BUY that waits for a price sets aside when it is placed. */
  function Asked(req: PaperOrderRequest, price: real): real {
    if req.side.Sell? || req.orderType.Market? then 0.0
    else req.quantity as real * (if req.price.Some? then req.price.value else FirstTrigger(req, price).GetOr(0.0))
  }

  /** A BUY that cannot set its cash aside is stored as rejected and nothing else
      happens.  An order that is left at rest, by a call that did not raise, has
      its cash set aside, waits for its trigger exactly if its type does and the
      price has not woken it, and has moved nothing else. */
  lemma PlacementReserves(d: Desk, req: PaperOrderRequest, price: real, now: int)
    requires req.Valid() && price > 0.0 && PositiveIfSet(FirstTrigger(req, price))
    ensures var s := Placed(d, req, price, now); var n: nat := |d.orders|; var asked := Asked(req, price);
            && n < |s.desk.orders|
            && (asked > d.ledger.cash - d.ledger.reserved + EPSILON && req.side.Buy? && !req.orderType.Market? ==>
                  && s.desk.orders[n].status.Rejected? && s.error.None? && s.closed == []
                  && s.desk == d.(orders := d.orders + [s.desk.orders[n]]))
            && (s.error.None? && s.desk.orders[n].Resting() ==>
                  && s.closed == [] && s.desk.orders == d.orders + [s.desk.orders[n]]
                  && (s.desk.orders[n].status.TriggerPending?
                      <==> match req.orderType
                           case Stop => true
                           case TrailingStop => true
                           case StopLimit =>
                             if req.side.Buy? then price < req.trigger.value else price > req.trigger.value
                           case _ => false)
                  && s.desk.book == d.book && s.desk.groups == d.groups
                  && s.desk.ledger == d.ledger.(reserved := d.ledger.reserved + asked)
                  && s.desk.reservations == if req.side.Buy? && !req.orderType.Market? then d.reservations[n := asked]
                                            else d.reservations)
  {
    hide Entered, Settled, Decide, TriggerFor, FirstTrigger, Asked;
    TriggerIsFirst(req, price);
    EnteringSetsAside(d, req, price, now);
    var n: nat := |d.orders|;
    var o := OrderFor(req, price, now);
    var e := Entered(d, o, now);
    if e.orders[n].Resting() {
      EvaluationSettles(e, n, price, now);
      FreshTerms(req, price, now);
      if Decide(o, price, now).Rest? {
        StatusAtRest(o, price, now);
        assert (d.orders + [o])[n := Decide(o, price, now).order] == d.orders + [Decide(o, price, now).order];
      } else {
        FilledSettles(e, n, price, now);
      }
    }
  }

  lemma FreshTerms(req: PaperOrderRequest, price: real, now: int)
    requires req.Valid() && PositiveIfSet(TriggerFor(req, price))
    ensures var o := OrderFor(req, price, now);
            && o.orderType == req.orderType && o.side == req.side && o.Resting()
            && (o.status.TriggerPending? <==> o.orderType.WaitsForTrigger())
            && (!req.orderType.TrailingStop? ==> o.trigger == req.trigger)
  {
  }

  /** Entering sets the cash of a waiting BUY aside, or stores the order as rejected and does nothing else. */
  lemma EnteringSetsAside(d: Desk, req: PaperOrderRequest, price: real, now: int)
    requires req.Valid() && price > 0.0 && PositiveIfSet(TriggerFor(req, price))
    ensures var o := OrderFor(req, price, now); var n: nat := |d.orders|;
            var (e, asked) := (Entered(d, o, now), Asked(req, price));
            if req.side.Buy? && !req.orderType.Market? && asked > d.ledger.cash - d.ledger.reserved + EPSILON then
              e.orders[n].status.Rejected? && e == d.(orders := d.orders + [e.orders[n]])
            else
              e == d.(ledger := d.ledger.(reserved := d.ledger.reserved + asked), orders := d.orders + [o],
                      reservations := if req.side.Buy? && !req.orderType.Market? then d.reservations[n := asked]
                                      else d.reservations)
  {
    hide TriggerFor, FirstTrigger;
    TriggerIsFirst(req, price);
    var o := OrderFor(req, price, now);
    assert o.Reserves() ==> Cost(o.quantity, o.WorstCase().GetOr(0.0)) == Asked(req, price);
    if o.Reserves() { AmountCoversLimit(o); }
  }

  /** A price leaves a fresh order waiting for its trigger unless it wakes a stop-limit. */
  lemma StatusAtRest(o: Order, price: real, now: int)
    requires price > 0.0 && o.Resting() && (o.status.TriggerPending? <==> o.orderType.WaitsForTrigger())
    requires Decide(o, price, now).Rest?
    ensures Decide(o, price, now).order.status.TriggerPending?
            <==> match o.orderType
                 case Stop => true
                 case TrailingStop => true
                 case StopLimit => if o.side.Buy? then price < o.trigger.value else price > o.trigger.value
                 case _ => false
  {
  }

  lemma FilledSettles(d: Desk, id: nat, price: real, now: int)
    requires Fires(d, id, price, now)
    ensures var s := Evaluated(d, id, price, now); s.error.None? ==> !s.desk.orders[id].Resting()
  {
    hide Exchanged, BracketSpawned, Decide;
    ExchangeOnlyDrops(d, id, price, now);
    var x := Exchanging(d, id, price, now);
    if x.error.None? && x.desk.orders[id].status.Complete? {
      SpawnedAreQuiet(x.desk, Completed(Fired(d, id, price, now), price, now), id, now);
    }
  }

  /** `level` is on the losing side of a fill. */
  predicate Losing(side: Side, level: Option<real>, fill: real) {
    level.Some? && if side.Buy? then level.value < fill else level.value > fill
  }

  predicate Winning(side: Side, level: Option<real>, fill: real) {
    level.Some? && if side.Buy? then level.value > fill else level.value < fill
  }

  /** A leg for what request `req` entered as order `n`: a stop at the request's
      stop or a limit at its target, on the other side, for the whole quantity. */
  predicate LegFor(leg: PaperOrder, req: PaperOrderRequest, isStop: bool) {
    && leg.key == req.key && leg.side == req.side.Opposite() && leg.quantity == req.quantity
    && (if isStop then leg.orderType.Stop? && leg.trigger == req.stopLoss
        else leg.orderType.Limit? && leg.price == req.target)
    && (leg.Resting() || (leg.status.Rejected? && leg.side.Buy?))
  }

  /** The bracket, read off the request: an entry of any type that fills during
      its placement leaves a stop leg exactly when the request's stop is on the
      losing side of the price and a target leg exactly when its target is on the
      winning side, the stop first, and nothing else. */
  lemma PlacementSpawns(d: Desk, req: PaperOrderRequest, price: real, now: int)
    requires req.Valid() && price > 0.0 && PositiveIfSet(FirstTrigger(req, price))
    requires var s := Placed(d, req, price, now);
             s.error.None? && |d.orders| < |s.desk.orders| && s.desk.orders[|d.orders|].status.Complete?
    ensures var legs := Placed(d, req, price, now).desk.orders[|d.orders| + 1..];
            var stops, targets := Losing(req.side, req.stopLoss, price), Winning(req.side, req.target, price);
            && |legs| == (if stops then 1 else 0) + (if targets then 1 else 0)
            && (stops ==> LegFor(legs[0], req, true))
            && (targets ==> LegFor(legs[|legs| - 1], req, false))
  {
    hide Exchanged, BracketSpawned, Decide, TriggerFor, FirstTrigger, Straddles;
    TriggerIsFirst(req, price);
    var n: nat := |d.orders|;
    var e := Entered(d, OrderFor(req, price, now), now);
    FiredPlacement(d, req, price, now);
    var x := Exchanging(e, n, price, now);
    var filled := Completed(Fired(e, n, price, now), price, now);
    var f := BracketSpawned(x.desk, filled, n, now);
    LegsStraddleTheFill(x.desk, filled, n, now);
    LegsAreFor(x.desk, f, filled, req, price);
  }

  /** A placement that ends complete fired at once. */
  lemma FiredPlacement(d: Desk, req: PaperOrderRequest, price: real, now: int)
    requires req.Valid() && price > 0.0 && PositiveIfSet(TriggerFor(req, price))
    requires var s := Placed(d, req, price, now);
             s.error.None? && |d.orders| < |s.desk.orders| && s.desk.orders[|d.orders|].status.Complete?
    ensures var e := Entered(d, OrderFor(req, price, now), now); var n: nat := |d.orders|;
            && Fires(e, n, price, now)
            && var x := Exchanging(e, n, price, now);
               var filled := Completed(Fired(e, n, price, now), price, now);
               && |x.desk.orders| == n + 1 && AskedFor(filled, req)
               && Placed(d, req, price, now).desk == BracketSpawned(x.desk, filled, n, now)
  {
    hide Exchanged, BracketSpawned, Decide, AskedFor, Entered, Completed, Dropped;
    var n: nat := |d.orders|;
    var e := Entered(d, OrderFor(req, price, now), now);
    EnteredAsAsked(d, req, price, now);
    DecidingKeepsRequest(e.orders[n], price, now, req);
    CompletingKeepsRequest(Fired(e, n, price, now), price, now, req);
    ExchangeKeepsRequest(e, n, price, now, req);
  }

  lemma EnteredAsAsked(d: Desk, req: PaperOrderRequest, price: real, now: int)
    requires req.Valid() && price > 0.0 && PositiveIfSet(TriggerFor(req, price))
    ensures var o := Entered(d, OrderFor(req, price, now), now).orders[|d.orders|];
            AskedFor(o, req) && !o.status.Complete?
  {
  }

  lemma LegsAreFor(d: Desk, f: Desk, entry: Order, req: PaperOrderRequest, price: real)
    requires AskedFor(entry, req) && d.orders <= f.orders
    requires forall i | |d.orders| <= i < |f.orders| :: Straddles(f.orders[i], entry, price)
    requires var stops, targets := Losing(req.side, req.stopLoss, price), Winning(req.side, req.target, price);
             && |f.orders| == |d.orders| + (if stops then 1 else 0) + (if targets then 1 else 0)
             && (stops ==> f.orders[|d.orders|].orderType.Stop?)
             && (targets ==> f.orders[|f.orders| - 1].orderType.Limit?)
    ensures var legs := f.orders[|d.orders|..];
            var stops, targets := Losing(req.side, req.stopLoss, price), Winning(req.side, req.target, price);
            && (stops ==> LegFor(legs[0], req, true))
            && (targets ==> LegFor(legs[|legs| - 1], req, false))
  {
  }
}
