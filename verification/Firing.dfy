/** When orders fire, in plain comparisons: one price, a price update of the
    engine, and any prices fed to a stop-limit order. */
module Firing {
  import opened Domain
  import opened Fifo
  import opened Portfolios
  import opened Positions
  import opened Matching
  import opened OrderDesk
  import opened Engine
  import opened Moves
  import opened Lifecycle
  import opened Reservations
  import opened PricePass
  import opened Calls
  import opened Trailing

  /** A price no worse than the limit. */
  predicate NoWorse(o: PaperOrder, price: real) {
    o.price.Some? && if o.side.Buy? then price <= o.price.value else price >= o.price.value
  }

  /** A price at the trigger or beyond it, against the trader. */
  predicate Touches(o: PaperOrder, price: real, trigger: Option<real>) {
    trigger.Some? && if o.side.Buy? then price >= trigger.value else price <= trigger.value
  }

  /** The trigger of a trailing order after a price: it keeps its distance from
      the price when that is an improvement, and stays otherwise. */
  function Trailed(o: PaperOrder, price: real): Option<real> {
    if o.trigger.None? then None
    else
      var distance := if o.trailingAmount.Some? then o.trailingAmount.value
                      else price * (o.trailingPercent.GetOr(0.0) / 100.0);
      if o.side.Sell? then
        Some(if price - distance > o.trigger.value then price - distance else o.trigger.value)
      else Some(if price + distance < o.trigger.value then price + distance else o.trigger.value)
  }

  /** The order fires at this price. */
  predicate Hits(o: PaperOrder, price: real) {
    match o.orderType
    case Market => true
    case Limit => NoWorse(o, price)
    case Stop => Touches(o, price, o.trigger)
    case StopLimit => NoWorse(o, price) && (o.status.Open? || Touches(o, price, o.trigger))
    case TrailingStop => Touches(o, price, Trailed(o, price))
  }

  /** What a price that does not fire it makes of a resting order: a stop-limit
      whose trigger is touched opens, a trailing stop follows, any other stays. */
  predicate Waits(o: PaperOrder, p: PaperOrder, price: real, now: int) {
    if o.orderType.StopLimit? && o.status.TriggerPending? && Touches(o, price, o.trigger) then
      p == o.(status := Open, updatedAt := now)
    else if o.orderType.TrailingStop? then p == o.(trigger := Trailed(o, price), updatedAt := p.updatedAt)
    else p == o
  }

  /** The law of matching, for every order at rest and every positive price. */
  lemma FiresExactlyWhenHit(o: Order, price: real, now: int)
    requires o.Resting() && price > 0.0
    ensures Decide(o, price, now).Fill? <==> Hits(o, price)
    ensures Decide(o, price, now).Rest? ==> Waits(o, Decide(o, price, now).order, price, now)
  {
    if o.orderType.TrailingStop? { TrailedIsRatcheted(o, price); }
  }

  lemma TrailedIsRatcheted(o: Order, price: real)
    requires o.orderType.TrailingStop? && price > 0.0
    ensures Trailed(o, price) == Some(RatchetedTrigger(o, price))
  {
    if o.trailingAmount.None? {
      var percent := o.trailingPercent.value;
      assert price * (percent / 100.0) == price * percent / 100.0;
    }
  }

  // ---------- A price update ----------

  /** What becomes of order `o` when its turn comes: it waits, or it fires and
      fills at the price or, a BUY that cannot be paid, is rejected. */
  predicate Turned(o: Order, p: Order, price: real, now: int)
    requires o.Resting() && price > 0.0
  {
    var w := Decide(o, price, now);
    if w.Rest? then p == w.order
    else
      || (p.status.Complete? && p.averageFillPrice == Some(price))
      || (p.status.Rejected? && p.side.Buy?)
  }

  lemma EvaluationTurns(d: Desk, id: nat, price: real, now: int)
    requires Rests(d, id) && price > 0.0 && Evaluated(d, id, price, now).error.None?
    ensures Turned(d.orders[id], Evaluated(d, id, price, now).desk.orders[id], price, now)
  {
    hide Exchanged, BracketSpawned, Decide;
    if Decide(d.orders[id], price, now).Fill? {
      var x := Exchanging(d, id, price, now);
      ExchangeTurns(d, id, price, now);
      if x.desk.orders[id].status.Complete? {
        SpawnedAreQuiet(x.desk, Completed(Moves.Fired(d, id, price, now), price, now), id, now);
      }
    }
  }

  lemma ExchangeTurns(d: Desk, id: nat, price: real, now: int)
    requires Fires(d, id, price, now) && Exchanging(d, id, price, now).error.None?
    ensures Turned(d.orders[id], Exchanging(d, id, price, now).desk.orders[id], price, now)
  {
    hide SiblingsCancelled, Filled, TradesOf, Unrecordable, Decide, Unreserved, Paid, Completed, Dropped, Cost;
    var o := Moves.Fired(d, id, price, now);
    SettledAs(o, price, now);
    RefusedIsBuy(Unreserved(d, id).desk.ledger, o, price);
    UnreservedOrders(d, id);
  }

  lemma SettledAs(o: Order, price: real, now: int)
    requires o.Resting() && price > 0.0 && o.WithinLimit(price)
    ensures Completed(o, price, now).status.Complete? && Completed(o, price, now).averageFillPrice == Some(price)
    ensures Dropped(o, Rejected, now).status.Rejected? && Dropped(o, Rejected, now).side == o.side
  {
  }

  lemma RefusedIsBuy(l: Ledger, o: PaperOrder, price: real)
    ensures Paid(l, o, price).Err? && Paid(l, o, price).error.InsufficientCash? ==> o.side.Buy?
  {
  }

  /** An order that fires fills exactly when it is a SELL or its cost is within cash plus the slack. */
  lemma FiredFillsExactlyWhenPaid(d: Desk, id: nat, price: real, now: int)
    requires Rests(d, id) && price > 0.0 && Hits(d.orders[id], price) && Evaluated(d, id, price, now).error.None?
    ensures var (o, p) := (d.orders[id], Evaluated(d, id, price, now).desk.orders[id]);
            && (p.status.Complete? <==> o.side.Sell? || o.quantity as real * price <= d.ledger.cash + EPSILON)
            && (p.status.Rejected? <==> !p.status.Complete?)
  {
    hide Exchanged, BracketSpawned, Decide, Hits;
    FiresExactlyWhenHit(d.orders[id], price, now);
    ExchangeFillsWhenPaid(d, id, price, now);
    var x := Exchanging(d, id, price, now);
    if x.desk.orders[id].status.Complete? {
      SpawnedAreQuiet(x.desk, Completed(Moves.Fired(d, id, price, now), price, now), id, now);
    }
  }

  lemma ExchangeFillsWhenPaid(d: Desk, id: nat, price: real, now: int)
    requires Fires(d, id, price, now) && Exchanging(d, id, price, now).error.None?
    ensures var (o, p) := (d.orders[id], Exchanging(d, id, price, now).desk.orders[id]);
            && (p.status.Complete? <==> o.side.Sell? || o.quantity as real * price <= d.ledger.cash + EPSILON)
            && (p.status.Rejected? <==> !p.status.Complete?)
  {
    hide SiblingsCancelled, Filled, TradesOf, Unrecordable, Decide, Unreserved, Paid, Completed, Dropped;
    var o := Moves.Fired(d, id, price, now);
    SettledAs(o, price, now);
    UnreservedOrders(d, id);
    FiredTerms(d.orders[id], price, now);
    PaidExactly(d, id, o, price);
  }

  lemma FiredTerms(o: Order, price: real, now: int)
    requires o.Resting() && price > 0.0
    ensures Decide(o, price, now).order.side == o.side && Decide(o, price, now).order.quantity == o.quantity
  {
  }

  lemma PaidExactly(d: Desk, id: nat, o: Order, price: real)
    requires price > 0.0
    ensures var r := Paid(Unreserved(d, id).desk.ledger, o, price);
            && (r.Ok? <==> o.side.Sell? || o.quantity as real * price <= d.ledger.cash + EPSILON)
            && (r.Err? ==> r.error.InsufficientCash?)
  {
    CostIsPositive(o.quantity, price);
  }

  /** After a pass that did not raise: a listed order was turned, or cancelled
      before or after its turn; any other was kept or cancelled. */
  lemma {:induction false} PassTurns(d: Desk, ids: seq<nat>, price: real, now: int, id: nat)
    requires price > 0.0 && Rests(d, id) && Distinct(ids)
    requires forall i | 0 <= i < |ids| :: ids[i] < |d.orders|
    requires Passed(d, ids, price, now).error.None?
    ensures id < |Passed(d, ids, price, now).desk.orders|
    ensures var (o, p) := (d.orders[id], Passed(d, ids, price, now).desk.orders[id]);
            if id in ids then Turned(o, p, price, now) || (o.ocoGroup.Some? && p.status.Cancelled?)
            else KeptOrCancelled(o, p)
    decreases |ids|
  {
    hide Evaluated, Decide, Turned, Evolved;
    if ids == [] {
    } else if !d.orders[ids[0]].Resting() {
      PassTurns(d, ids[1..], price, now, id);
    } else {
      var e := Evaluated(d, ids[0], price, now).desk;
      EvaluationSettles(d, ids[0], price, now);
      EvaluationTurns(d, ids[0], price, now);
      EvaluationEvolves(d, ids[0], price, now);
      assert Evolved(d.orders[id], e.orders[id]);
      SameGroup(d.orders[id], e.orders[id]);
      if Rests(e, id) {
        PassTurns(e, ids[1..], price, now, id);
      } else {
        PassOnlyAddsLegs(e, ids[1..], price, now);
        assert Evolved(e.orders[id], Passed(d, ids, price, now).desk.orders[id]);
        SettledStays(e.orders[id], Passed(d, ids, price, now).desk.orders[id]);
      }
    }
  }

  lemma SameGroup(o: Order, p: Order)
    requires Evolved(o, p)
    ensures p.ocoGroup == o.ocoGroup
  {
  }

  lemma SettledStays(o: Order, p: Order)
    requires Evolved(o, p) && !o.Resting()
    ensures p == o
  {
  }

  /** A price update that does not raise.  Every order at rest in the instrument
      fires if and only if the price hits it, unless another of its group fired
      first and cancelled it: it then fills at the price, or is rejected if it is
      a BUY that cannot be paid, and otherwise waits.  An order outside any group
      is settled exactly when it is hit; other instruments' orders outside groups
      are untouched. */
  lemma UpdateSettlesExactlyTheHit(e: Engine, key: Key, price: real, now: int, id: nat)
    requires price > 0.0 && PriceProcessed(e.desk, key, price, now).error.None? && Rests(e.desk, id)
    ensures var f := Apply(e, Price(key, price, now)); var o := e.desk.orders[id];
            && id < |f.desk.orders|
            && var p := f.desk.orders[id];
               if o.key != key then KeptOrCancelled(o, p)
               else
                 && (p.status.Cancelled? ==> o.ocoGroup.Some?)
                 && (p.Resting() ==> !Hits(o, price) && Waits(o, p, price, now))
                 && (p.status.Complete? ==> Hits(o, price) && p.averageFillPrice == Some(price))
                 && (p.status.Rejected? ==> Hits(o, price) && o.side.Buy?)
  {
    hide Passed, Hits, Waits, Decide;
    var ids := Candidates(e.desk.orders, key, 0);
    CandidatesAreDistinct(e.desk.orders, key, 0);
    PassOnlyAddsLegs(e.desk, ids, price, now);
    var p := Passed(e.desk, ids, price, now).desk.orders[id];
    assert Evolved(e.desk.orders[id], p);
    PassTurns(e.desk, ids, price, now, id);
    FiresExactlyWhenHit(e.desk.orders[id], price, now);
    DecisionRests(e.desk.orders[id], price, now);
  }

  /** A stop modified to a trigger obeys the new one: at the next price update it
      is settled if and only if the price has reached it. */
  lemma ModifiedStopObeys(e: Engine, m: OrderModification, now: int, price: real, later: int)
    requires m.Valid() && m.trigger.Some? && Modified(e.desk, m, now).error.None? && price > 0.0
    requires var o := e.desk.orders[m.orderId]; o.orderType.Stop? && o.ocoGroup.None?
    requires PriceProcessed(Apply(e, Modify(m, now)).desk, e.desk.orders[m.orderId].key, price, later).error.None?
    ensures var (id, o) := (m.orderId, e.desk.orders[m.orderId]);
            var f := Apply(Apply(e, Modify(m, now)), Price(o.key, price, later));
            && id < |f.desk.orders|
            && (!f.desk.orders[id].Resting()
                <==> if o.side.Buy? then price >= m.trigger.value else price <= m.trigger.value)
  {
    hide Modified, Apply, PriceProcessed, Waits;
    ModificationWrites(e, m, now);
    UpdateSettlesExactlyTheHit(Apply(e, Modify(m, now)), e.desk.orders[m.orderId].key, price, later, m.orderId);
  }

  lemma DecisionRests(o: Order, price: real, now: int)
    requires o.Resting() && price > 0.0
    ensures Decide(o, price, now).order.Resting()
  {
  }

  // ---------- A fed stop-limit ----------

  /** Price `i` is within the limit, and it or one before it touched the trigger. */
  predicate Ready(o: PaperOrder, prices: seq<real>, i: nat)
    requires i < |prices|
  {
    NoWorse(o, prices[i]) && exists j: nat :: j <= i && Touches(o, prices[j], o.trigger)
  }

  /** An order with nothing left but its limit, fed any prices, fires at the first within it. */
  lemma {:induction false} LimitFiresAtFirst(o: Order, prices: seq<real>, now: int)
    requires o.orderType.Limit? || o.orderType.StopLimit?
    requires o.status.Open? && AllPositive(prices)
    ensures var r := Watched(o, prices, now);
            && r.order == o
            && (r.Waiting? ==> forall i: nat | i < |prices| :: !NoWorse(o, prices[i]))
            && (r.Fired? ==> r.at < |prices| && NoWorse(o, prices[r.at])
                             && forall i: nat | i < r.at :: !NoWorse(o, prices[i]))
    decreases |prices|
  {
    if prices != [] {
      hide Decide, Hits, Waits, NoWorse;
      OpenDecides(o, prices[0], now);
      if Decide(o, prices[0], now).Rest? {
        LimitFiresAtFirst(o, prices[1..], now);
        assert forall i: nat | 0 < i < |prices| :: prices[i] == prices[1..][i - 1];
      }
    }
  }

  lemma OpenDecides(o: Order, price: real, now: int)
    requires o.orderType.Limit? || o.orderType.StopLimit?
    requires o.status.Open? && price > 0.0
    ensures Decide(o, price, now) == if NoWorse(o, price) then Fill(o) else Rest(o)
  {
  }

  /** A stop-limit that waits for its trigger, fed any prices, fires at the first
      price within its limit at or after the first price that touched its
      trigger; until then it is open exactly when the trigger has been touched. */
  lemma {:induction false} StopLimitFiresInTwoSteps(o: Order, prices: seq<real>, now: int)
    requires o.orderType.StopLimit? && o.status.TriggerPending? && AllPositive(prices)
    ensures var r := Watched(o, prices, now);
            && (r.Waiting? ==>
                  && (forall i: nat | i < |prices| :: !Ready(o, prices, i))
                  && (if exists j: nat :: j < |prices| && Touches(o, prices[j], o.trigger) then
                        r.order == o.(status := Open, updatedAt := now)
                      else r.order == o))
            && (r.Fired? ==>
                  && r.at < |prices| && Ready(o, prices, r.at)
                  && forall i: nat | i < r.at :: !Ready(o, prices, i))
    decreases |prices|
  {
    hide Decide, NoWorse, Touches;
    if prices != [] {
      PendingDecides(o, prices[0], now);
      var w := Decide(o, prices[0], now);
      if w.Rest? && w.order.status.Open? {
        LimitFiresAtFirst(w.order, prices[1..], now);
        SameTerms(o, w.order);
        assert Touches(o, prices[0], o.trigger);
        forall i: nat | i < |prices| ensures Ready(o, prices, i) <==> NoWorse(o, prices[i]) {
        }
        assert forall i: nat | 0 < i < |prices| :: prices[i] == prices[1..][i - 1];
      } else if w.Rest? {
        StopLimitFiresInTwoSteps(o, prices[1..], now);
        assert forall i: nat | 0 < i < |prices| :: prices[i] == prices[1..][i - 1];
        forall i: nat | 0 < i < |prices| ensures Ready(o, prices, i) <==> Ready(o, prices[1..], i - 1) {
          ReadyLater(o, prices, i);
        }
      }
    }
  }

  lemma ReadyLater(o: PaperOrder, prices: seq<real>, i: nat)
    requires 0 < i < |prices| && !Touches(o, prices[0], o.trigger)
    ensures Ready(o, prices, i) <==> Ready(o, prices[1..], i - 1)
  {
    hide NoWorse, Touches;
    if Ready(o, prices, i) {
      var j: nat :| j <= i && Touches(o, prices[j], o.trigger);
      assert prices[1..][j - 1] == prices[j];
    }
    if Ready(o, prices[1..], i - 1) {
      var j: nat :| j <= i - 1 && Touches(o, prices[1..][j], o.trigger);
      assert prices[j + 1] == prices[1..][j];
    }
  }

  lemma PendingDecides(o: Order, price: real, now: int)
    requires o.orderType.StopLimit? && o.status.TriggerPending? && price > 0.0
    ensures var w := Decide(o, price, now);
            && (w.Fill? <==> Touches(o, price, o.trigger) && NoWorse(o, price))
            && (w.Rest? ==> w.order == if Touches(o, price, o.trigger) then o.(status := Open, updatedAt := now) else o)
  {
  }

  lemma SameTerms(o: Order, w: Order)
    requires w == o.(status := w.status, updatedAt := w.updatedAt)
    ensures forall price: real :: NoWorse(w, price) == NoWorse(o, price)
  {
  }
}
