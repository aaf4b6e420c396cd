/** A trailing stop is a watermark: over any run its trigger is the level set by
    the best price seen since placement, and it fires at the first price to
    reach that level. */
module Trailing {
  import opened Domain
  import opened Matching
  import opened OrderDesk
  import opened Engine
  import opened Moves
  import opened Lifecycle
  import opened Reservations
  import opened PricePass
  import opened Clock
  import opened Runs

  /** The more favourable of two prices for a stop on `side`. */
  function Better(side: Side, x: real, y: real): real { if side.Sell? then Max(x, y) else Min(x, y) }

  function Best(side: Side, first: real, prices: seq<real>): real
    decreases |prices|
  {
    if prices == [] then first else Best(side, Better(side, first, prices[0]), prices[1..])
  }

  /** The trigger level a best price stands for. */
  function Level(o: PaperOrder, best: real): real {
    InitialTrailingTrigger(o.side, best, o.trailingAmount, o.trailingPercent)
  }

  predicate Reached(o: PaperOrder, price: real, level: real) {
    if o.side.Buy? then price >= level else price <= level
  }

  predicate AllPositive(prices: seq<real>) { forall i | 0 <= i < |prices| :: prices[i] > 0.0 }

  /** `o` is a resting trailing stop whose trigger reflects the best price `best`. */
  predicate Tracks(o: Order, best: real) {
    o.orderType.TrailingStop? && o.Resting() && best > 0.0 && o.trigger == Some(Level(o, best))
  }

  lemma NonNegativeProduct(x: real, y: real)
    requires x >= 0.0 && y >= 0.0
    ensures x * y >= 0.0
  {
  }

  lemma ScalesWithPrice(x: real, y: real, percent: real)
    requires x <= y && 0.0 < percent <= 100.0
    ensures x * percent / 100.0 <= y * percent / 100.0
    ensures x - x * percent / 100.0 <= y - y * percent / 100.0
  {
    NonNegativeProduct(y - x, percent);
    NonNegativeProduct(y - x, 100.0 - percent);
  }

  lemma LevelIsMonotone(o: Order, x: real, y: real)
    requires o.orderType.TrailingStop? && x <= y
    ensures Level(o, x) <= Level(o, y)
  {
    if o.trailingAmount.None? { ScalesWithPrice(x, y, o.trailingPercent.value); }
  }

  /** The level commutes with taking the better price. */
  lemma LevelOfBetter(o: Order, x: real, y: real)
    requires o.orderType.TrailingStop?
    ensures Level(o, Better(o.side, x, y)) == Better(o.side, Level(o, x), Level(o, y))
  {
    hide Level;
    if x <= y { LevelIsMonotone(o, x, y); } else { LevelIsMonotone(o, y, x); }
  }

  /** One price: the trigger moves to the level of the best price so far, and
      the order fires exactly when the price has reached that level. */
  lemma OnePrice(o: Order, best: real, price: real, now: int)
    requires Tracks(o, best) && price > 0.0
    ensures var w := Decide(o, price, now); var b := Better(o.side, best, price);
            && Tracks(w.order, b) && Level(w.order, b) == Level(o, b) && SameShape(o, w.order)
            && (w.Fill? <==> Reached(o, price, Level(o, b)))
            && (o.side.Sell? ==> Level(o, b) >= Level(o, best))
            && (o.side.Buy? ==> Level(o, b) <= Level(o, best))
  {
    hide InitialTrailingTrigger;
    LevelOfBetter(o, best, price);
    RatchetIsLevel(o, price);
  }

  lemma RatchetIsLevel(o: Order, price: real)
    requires o.orderType.TrailingStop? && price > 0.0
    ensures RatchetedTrigger(o, price) == Better(o.side, o.trigger.value, Level(o, price))
  {
  }

  // ---------- A fed order ----------

  datatype Watch = Waiting(order: Order) | Fired(at: nat, order: Order)

  /** Feed prices to an order until one fires it. */
  function Watched(o: Order, prices: seq<real>, now: int): Watch
    requires o.Resting() && AllPositive(prices)
    decreases |prices|
  {
    if prices == [] then Waiting(o)
    else match Decide(o, prices[0], now)
      case Fill(w) => Fired(0, w)
      case Rest(w) =>
        match Watched(w, prices[1..], now)
        case Waiting(v) => Waiting(v)
        case Fired(k, v) => Fired(k + 1, v)
  }

  /** Price `i` reaches the level of the best price up to and including it. */
  predicate ReachedAt(o: PaperOrder, first: real, prices: seq<real>, i: nat)
    requires i < |prices|
  {
    Reached(o, prices[i], Level(o, Best(o.side, first, prices[..i + 1])))
  }

  lemma ReachedFirst(o: PaperOrder, first: real, prices: seq<real>)
    requires prices != []
    ensures ReachedAt(o, first, prices, 0)
            <==> Reached(o, prices[0], Level(o, Better(o.side, first, prices[0])))
  {
    var best := Better(o.side, first, prices[0]);
    assert prices[..0 + 1] == [prices[0]];
    assert Best(o.side, first, [prices[0]]) == Best(o.side, best, []) == best by {
      assert [prices[0]][1..] == [];
    }
  }

  lemma ReachedLater(o: PaperOrder, w: PaperOrder, first: real, prices: seq<real>, i: nat)
    requires i + 1 < |prices|
    requires w.side == o.side && w.trailingAmount == o.trailingAmount && w.trailingPercent == o.trailingPercent
    ensures ReachedAt(o, first, prices, i + 1)
            <==> ReachedAt(w, Better(o.side, first, prices[0]), prices[1..], i)
  {
    assert prices[..i + 2][1..] == prices[1..][..i + 1];
  }

  /** Watermark form.  For any prices fed to a trailing stop, it fires at the
      first price that reaches the level of the best price so far, and until
      then its trigger is the level of the best of all prices. */
  lemma {:induction false} TrailingStopIsWatermark(o: Order, first: real, prices: seq<real>, now: int)
    requires Tracks(o, first) && AllPositive(prices)
    ensures var r := Watched(o, prices, now);
            && (r.Waiting? ==>
                  && r.order.trigger == Some(Level(o, Best(o.side, first, prices)))
                  && forall i: nat | i < |prices| :: !ReachedAt(o, first, prices, i))
            && (r.Fired? ==>
                  && r.at < |prices| && ReachedAt(o, first, prices, r.at)
                  && r.order.trigger == Some(Level(o, Best(o.side, first, prices[..r.at + 1])))
                  && forall i: nat | i < r.at :: !ReachedAt(o, first, prices, i))
    decreases |prices|
  {
    hide Decide, Level, Reached;
    if prices == [] {
    } else {
      var best := Better(o.side, first, prices[0]);
      OnePrice(o, first, prices[0], now);
      ReachedFirst(o, first, prices);
      assert prices[..1] == [prices[0]] && [prices[0]][1..] == [];
      var w := Decide(o, prices[0], now);
      if w.Rest? {
        TrailingStopIsWatermark(w.order, best, prices[1..], now);
        SameLevels(o, w.order);
        forall i: nat | i + 1 < |prices| ensures
          ReachedAt(o, first, prices, i + 1) <==> ReachedAt(w.order, best, prices[1..], i)
        {
          ReachedLater(o, w.order, first, prices, i);
        }
        var r := Watched(w.order, prices[1..], now);
        if r.Fired? {
          assert prices[..r.at + 2][1..] == prices[1..][..r.at + 1];
          forall i: nat | i < r.at + 1 ensures !ReachedAt(o, first, prices, i) {
            if i > 0 { assert !ReachedAt(w.order, best, prices[1..], i - 1); }
          }
        } else {
          forall i: nat | i < |prices| ensures !ReachedAt(o, first, prices, i) {
            if i > 0 { assert !ReachedAt(w.order, best, prices[1..], i - 1); }
          }
        }
      }
    }
  }

  lemma SameLevels(o: Order, w: Order)
    requires SameShape(o, w)
    ensures forall b: real :: Level(o, b) == Level(w, b)
  {
  }

  /** A trailing stop that rests after placement tracks the placement price. */
  lemma PlacedTrailingStopTracks(d: Desk, req: PaperOrderRequest, price: real, now: int)
    requires req.Valid() && req.orderType.TrailingStop?
    ensures var s := Placed(d, req, price, now);
            s.error.None? && s.desk.orders[|d.orders|].Resting() ==> Tracks(s.desk.orders[|d.orders|], price)
  {
    hide Evaluated, Entered;
    if price > 0.0 && PositiveIfSet(TriggerFor(req, price)) {
      var o := OrderFor(req, price, now);
      EnteringFillsNothing(d, o, now);
      EnteredOrder(d, o, now);
      var e := Entered(d, o, now);
      if e.orders[|d.orders|].Resting() {
        EvaluationSettles(e, |d.orders|, price, now);
        OnePrice(o, price, price, now);
      }
    }
  }

  lemma EnteredOrder(d: Desk, o: Order, now: int)
    requires o.Resting()
    ensures var p := Entered(d, o, now).orders[|d.orders|]; p.Resting() ==> p == o
  {
  }

  // ---------- The desk ----------

  /** The prices of instrument `key` among a run's price updates. */
  function PricesSeen(ops: seq<Op>, key: Key): (ps: seq<real>)
    ensures AllPositive(ps)
  {
    if ops == [] then []
    else
      var rest := PricesSeen(ops[1..], key);
      if ops[0].Price? && ops[0].key == key && ops[0].price > 0.0 then [ops[0].price] + rest else rest
  }

  predicate Untouched(ops: seq<Op>, id: nat) {
    forall i | 0 <= i < |ops| :: ops[i].Modify? ==> ops[i].m.orderId != id
  }

  /** A call that leaves order `id` at rest shows it at most its own instrument's price. */
  lemma CallShowsOnePrice(e: Engine, op: Op, id: nat)
    requires op.Valid() && Rests(e.desk, id) && Rests(Apply(e, op).desk, id)
    requires op.Modify? ==> op.m.orderId != id
    requires op.Price? ==> PriceProcessed(e.desk, op.key, op.price, op.now).error.None? || op.price <= 0.0
    ensures var (o, p) := (e.desk.orders[id], Apply(e, op).desk.orders[id]);
            if op.Price? && op.key == o.key && op.price > 0.0 then Decide(o, op.price, op.now) == Rest(p) else p == o
  {
    hide Placed, CancelledOrder, Modified, Passed;
    var d := e.desk;
    match op
    case Place(req, price, now) => PlacingTouchesNoOther(d, req, price, now, id);
    case Cancel(j, now) => CancellingTouchesNoOther(d, j, now, id);
    case Modify(m, now) => ModifyingTouchesNoOther(d, m, now, id);
    case Price(key, price, now) =>
      if price > 0.0 {
        CandidatesAreDistinct(d.orders, key, 0);
        PassShowsOnePrice(d, Candidates(d.orders, key, 0), price, now, id);
      }
  }

  lemma PlacingTouchesNoOther(d: Desk, req: PaperOrderRequest, price: real, now: int, id: nat)
    requires req.Valid() && Rests(d, id)
    ensures var o := Placed(d, req, price, now).desk.orders; id < |o| && (o[id].Resting() ==> o[id] == d.orders[id])
  {
    hide Evaluated, Entered;
    if price > 0.0 && PositiveIfSet(TriggerFor(req, price)) {
      var o := OrderFor(req, price, now);
      var e := Entered(d, o, now);
      EnteringFillsNothing(d, o, now);
      assert e.orders[id] == e.orders[..|d.orders|][id];
      if e.orders[|d.orders|].Resting() { EvaluationSettles(e, |d.orders|, price, now); }
    }
  }

  lemma CancellingTouchesNoOther(d: Desk, j: nat, now: int, id: nat)
    requires Rests(d, id)
    ensures var o := CancelledOrder(d, j, now).desk.orders; id < |o| && (o[id].Resting() ==> o[id] == d.orders[id])
  {
  }

  lemma ModifyingTouchesNoOther(d: Desk, m: OrderModification, now: int, id: nat)
    requires m.Valid() && Rests(d, id) && m.orderId != id
    ensures var o := Modified(d, m, now).desk.orders; id < |o| && o[id] == d.orders[id]
  {
    hide Rereserved;
    var r := RestingOrder(d.orders, m.orderId);
    if r.Ok? {
      var o := Amended(r.value, m, now);
      RereservingKeepsOrders(d, m.orderId, Cost(o.quantity, o.WorstCase().GetOr(0.0)));
    }
  }

  predicate Distinct(ids: seq<nat>) { ids == [] || (ids[0] !in ids[1..] && Distinct(ids[1..])) }

  lemma {:induction false} CandidatesAreDistinct(orders: seq<Order>, key: Key, i: nat)
    ensures Distinct(Candidates(orders, key, i))
    decreases |orders| - i
  {
    if i < |orders| {
      CandidatesAreDistinct(orders, key, i + 1);
      var rest := Candidates(orders, key, i + 1);
      assert ([i] + rest)[1..] == rest;
    }
  }

  predicate Ascends(ids: seq<nat>) { forall a, b | 0 <= a < b < |ids| :: ids[a] < ids[b] }

  lemma PrependAscends(i: nat, ids: seq<nat>)
    requires Ascends(ids) && forall b | 0 <= b < |ids| :: i < ids[b]
    ensures Ascends([i] + ids)
  {
  }

  /** The candidates come in insertion order. */
  lemma {:induction false} CandidatesAscend(orders: seq<Order>, key: Key, i: nat)
    ensures Ascends(Candidates(orders, key, i))
    decreases |orders| - i
  {
    if i < |orders| {
      CandidatesAscend(orders, key, i + 1);
      var rest := Candidates(orders, key, i + 1);
      forall b | 0 <= b < |rest| ensures i < rest[b] {
        assert rest[b] in rest;
      }
      PrependAscends(i, rest);
    }
  }

  /** A pass shows the price once to each candidate that survives it, and to no other order. */
  lemma {:induction false} PassShowsOnePrice(d: Desk, ids: seq<nat>, price: real, now: int, id: nat)
    requires price > 0.0 && Rests(d, id)
    requires forall i | 0 <= i < |ids| :: ids[i] < |d.orders|
    requires Distinct(ids)
    requires Passed(d, ids, price, now).error.None? && Rests(Passed(d, ids, price, now).desk, id)
    ensures var p := Passed(d, ids, price, now).desk.orders[id];
            if id in ids then Decide(d.orders[id], price, now) == Rest(p) else p == d.orders[id]
    decreases |ids|
  {
    hide Evaluated, Decide;
    if ids == [] {
    } else if !d.orders[ids[0]].Resting() {
      PassShowsOnePrice(d, ids[1..], price, now, id);
    } else {
      var e := Evaluated(d, ids[0], price, now).desk;
      EvaluationSettles(d, ids[0], price, now);
      PassOnlyAddsLegs(e, ids[1..], price, now);
      assert Evolved(e.orders[id], Passed(d, ids, price, now).desk.orders[id]);
      PassShowsOnePrice(e, ids[1..], price, now, id);
    }
  }

  /** Over any prudent run that does not modify it, a trailing stop that still
      rests has as trigger the level of the best price its instrument has seen. */
  lemma {:induction false} RunKeepsWatermark(e: Engine, ops: seq<Op>, id: nat, best: real, start: int)
    requires ValidOps(ops) && Accounted(e.desk) && PrudentRun(e, ops) && Untouched(ops, id)
    requires Timely(ops, start) && Current(e.desk.book, start)
    requires Rests(e.desk, id) && Tracks(e.desk.orders[id], best)
    requires Rests(Run(e, ops).desk, id)
    ensures var o := e.desk.orders[id];
            Run(e, ops).desk.orders[id].trigger == Some(Level(o, Best(o.side, best, PricesSeen(ops, o.key))))
    decreases |ops|
  {
    hide Apply, Decide, Level, Accounted, Prudent, PriceProcessed, Current;
    if ops != [] {
      CurrentLater(e.desk.book, start, ops[0].now);
      var o := e.desk.orders[id];
      var f := Apply(e, ops[0]);
      RunEvolves(f, ops[1..]);
      RunEvolves(e, [ops[0]]);
      RunOnce(e, ops[0]);
      assert Evolved(o, f.desk.orders[id]);
      assert Evolved(f.desk.orders[id], Run(e, ops).desk.orders[id]);
      PrudentPriceNeverRaises(e, ops[0]);
      CallShowsOnePrice(e, ops[0], id);
      var p := f.desk.orders[id];
      SameLevels(o, p);
      if ops[0].Price? && ops[0].key == o.key && ops[0].price > 0.0 {
        OnePrice(o, best, ops[0].price, ops[0].now);
        RunKeepsWatermark(f, ops[1..], id, Better(o.side, best, ops[0].price), ops[0].now);
      } else {
        RunKeepsWatermark(f, ops[1..], id, best, ops[0].now);
      }
    }
  }

  lemma RunOnce(e: Engine, op: Op)
    requires op.Valid()
    ensures Run(e, [op]) == Apply(e, op)
  {
    hide Apply;
    assert [op][1..] == [];
    assert Run(Apply(e, op), []) == Apply(e, op);
  }

  lemma PrudentPriceNeverRaises(e: Engine, op: Op)
    requires op.Valid() && Accounted(e.desk) && Prudent(e.desk, op) && Current(e.desk.book, op.now)
    ensures Accounted(Apply(e, op).desk) && Current(Apply(e, op).desk.book, op.now)
    ensures op.Price? && op.price > 0.0 ==> PriceProcessed(e.desk, op.key, op.price, op.now).error.None?
  {
    hide Accounted, Passed, Placed, Modified, CancelledOrder, Enabled, Do, Current;
    var ms := PrudentCallIsSound(e, op);
    if op.Price? && op.price > 0.0 {
      var ns := PassIsMoves(e.desk, Candidates(e.desk.orders, op.key, 0), op.price, op.now);
      PlayKeepsCurrent(e.desk, ns, op.now);
      PlayKeepsAccounts(e.desk, ns);
    }
  }
}
