/** What one pass over the resting orders of an instrument does, and why a
    second pass at the same price finds nothing to do. */
module PricePass {
  import opened Domain
  import opened Fifo
  import opened Positions
  import opened Matching
  import opened OrderDesk
  import opened Engine
  import opened Moves
  import opened Lifecycle
  import opened Clock

  /** Nothing at rest in `key` responds to `price`. */
  ghost predicate QuietAt(d: Desk, key: Key, price: real)
    requires price > 0.0
  {
    forall i: nat | i < |d.orders| && d.orders[i].key == key :: Quiet(d.orders[i], price)
  }

  /** `p` is `o` as it was, or `o` rested in a group and was cancelled. */
  predicate KeptOrCancelled(o: Order, p: Order) {
    p == o || (o.Resting() && o.ocoGroup.Some? && p == o.(status := Cancelled, updatedAt := p.updatedAt))
  }

  /** Orders of `a` either stay as they are or are cancelled, except order `at`. */
  predicate OnlyDrops(a: seq<Order>, b: seq<Order>, at: Option<nat>) {
    |a| <= |b| && forall i: nat | i < |a| && at != Some(i) :: KeptOrCancelled(a[i], b[i])
  }

  lemma {:induction false} SiblingsOnlyDrop(d: Desk, filled: nat, group: Option<nat>, i: nat, now: int)
    ensures OnlyDrops(d.orders, SiblingsCancelled(d, filled, group, i, now).desk.orders, None)
    decreases |d.orders| - i
  {
    hide Withdrawn, OnlyDrops;
    if group.None? || i >= |d.orders| {
      NothingDrops(d.orders);
    } else if i == filled || d.orders[i].ocoGroup != group || !d.orders[i].Resting() {
      SiblingsOnlyDrop(d, filled, group, i + 1, now);
    } else {
      var w := Withdrawn(d, i, Cancelled, now).desk;
      WithdrawingOnlyDrops(d, i, now);
      SiblingsOnlyDrop(w, filled, group, i + 1, now);
      DropsJoin(d.orders, w.orders, SiblingsCancelled(w, filled, group, i + 1, now).desk.orders);
    }
  }

  lemma NothingDrops(a: seq<Order>)
    ensures OnlyDrops(a, a, None)
  {
  }

  lemma DropsJoin(a: seq<Order>, b: seq<Order>, c: seq<Order>)
    requires OnlyDrops(a, b, None) && OnlyDrops(b, c, None)
    ensures OnlyDrops(a, c, None)
  {
    forall i: nat | i < |a| ensures KeptOrCancelled(a[i], c[i]) {
      assert KeptOrCancelled(a[i], b[i]) && KeptOrCancelled(b[i], c[i]);
    }
  }

  lemma WithdrawingOnlyDrops(d: Desk, id: nat, now: int)
    requires Rests(d, id) && d.orders[id].ocoGroup.Some?
    ensures OnlyDrops(d.orders, Withdrawn(d, id, Cancelled, now).desk.orders, None)
  {
  }

  /** A leg that is spawned lies on the far side of the price that filled its entry. */
  lemma LegIsQuiet(d: Desk, entry: Order, id: nat, isStop: bool, level: Option<real>, g: nat, now: int)
    requires PositiveIfSet(level) && entry.averageFillPrice.Some?
    ensures var e := WithLeg(d, entry, id, isStop, level, g, now);
            && d.orders <= e.orders
            && forall i: nat | |d.orders| <= i < |e.orders| ::
                 e.orders[i].parent == Some(id) && Quiet(e.orders[i], entry.averageFillPrice.value)
  {
    hide Cost;
  }

  lemma SpawnedAreQuiet(d: Desk, entry: Order, id: nat, now: int)
    requires entry.averageFillPrice.Some?
    ensures var e := BracketSpawned(d, entry, id, now);
            && d.orders <= e.orders
            && forall i: nat | |d.orders| <= i < |e.orders| ::
                 e.orders[i].parent == Some(id) && Quiet(e.orders[i], entry.averageFillPrice.value)
  {
    hide WithLeg, Quiet;
    if entry.parent.None? && (entry.stopLoss.Some? || entry.target.Some?) {
      var d0 := d.(groups := d.groups + 1);
      var d1 := WithLeg(d0, entry, id, true, entry.stopLoss, d.groups, now);
      LegIsQuiet(d0, entry, id, true, entry.stopLoss, d.groups, now);
      LegIsQuiet(d1, entry, id, false, entry.target, d.groups, now);
    }
  }

  lemma ExchangeOnlyDrops(d: Desk, id: nat, price: real, now: int)
    requires Fires(d, id, price, now)
    ensures var s := Exchanging(d, id, price, now);
            && OnlyDrops(d.orders, s.desk.orders, Some(id))
            && (s.error.None? ==> !s.desk.orders[id].Resting()
                                  && (s.desk.orders[id].status.Complete? || s.desk.orders[id].status.Rejected?))
  {
    hide Filled, TradesOf, SiblingsCancelled, OnlyDrops;
    var o := Fired(d, id, price, now);
    var u := Unreserved(d, id).desk;
    var p := Paid(u.ledger, o, price);
    if p.Ok? {
      var x := Executed(u, id, o, p.value, price, now);
      SiblingsOnlyDrop(x.desk, id, o.ocoGroup, 0, now);
      DropsCompose(d.orders, x.desk.orders, SiblingsCancelled(x.desk, id, o.ocoGroup, 0, now).desk.orders, id);
    }
    DropsRewrite(d.orders, id, o);
    DropsRewrite(d.orders, id, Dropped(o, Rejected, now));
  }

  lemma DropsRewrite(a: seq<Order>, id: nat, o: Order)
    requires id < |a|
    ensures OnlyDrops(a, a[id := o], Some(id)) && OnlyDrops(a, a, Some(id))
  {
  }

  lemma DropsCompose(a: seq<Order>, b: seq<Order>, c: seq<Order>, id: nat)
    requires id < |a| == |b| && b == a[id := b[id]]
    requires OnlyDrops(b, c, None)
    ensures OnlyDrops(a, c, Some(id))
  {
  }

  /** Evaluating one order leaves it settled or quiet; it may drop others,
      touches no other, and all newcomers are quiet legs. */
  lemma EvaluationSettles(d: Desk, id: nat, price: real, now: int)
    requires Rests(d, id) && price > 0.0
    ensures var s := Evaluated(d, id, price, now);
            && OnlyDrops(d.orders, s.desk.orders, Some(id))
            && (s.error.None? ==> Quiet(s.desk.orders[id], price))
            && (s.error.None? && s.desk.orders[id].Resting() ==>
                  Decide(d.orders[id], price, now) == Rest(s.desk.orders[id]))
            && (forall i: nat | |d.orders| <= i < |s.desk.orders| ::
                  s.desk.orders[i].parent.Some? && Quiet(s.desk.orders[i], price))
  {
    hide Exchanged, BracketSpawned, OnlyDrops, Quiet;
    var w := Decide(d.orders[id], price, now);
    if w.Rest? {
      RestedIsQuiet(d.orders[id], price, now);
      DropsRewrite(d.orders, id, w.order);
    } else {
      ExchangeOnlyDrops(d, id, price, now);
      var x := Exchanging(d, id, price, now);
      if x.error.None? {
        SettledIsQuiet(x.desk.orders[id], price);
        if x.desk.orders[id].status.Complete? {
          var filled := Completed(w.order, price, now);
          SpawnedAreQuiet(x.desk, filled, id, now);
          DropsExtend(d.orders, x.desk.orders, BracketSpawned(x.desk, filled, id, now).orders, id);
        }
      }
    }
  }

  lemma SettledIsQuiet(o: Order, price: real)
    requires price > 0.0 && !o.Resting()
    ensures Quiet(o, price)
  {
  }

  lemma DropsExtend(a: seq<Order>, b: seq<Order>, c: seq<Order>, id: nat)
    requires OnlyDrops(a, b, Some(id)) && b <= c
    ensures OnlyDrops(a, c, Some(id))
  {
  }

  /** What is already quiet, or still to come, is quiet in the end. */
  lemma {:induction false} PassQuiets(d: Desk, ids: seq<nat>, key: Key, price: real, now: int)
    requires price > 0.0
    requires forall i | 0 <= i < |ids| :: ids[i] < |d.orders|
    requires forall i: nat | i < |d.orders| && d.orders[i].key == key :: i in ids || Quiet(d.orders[i], price)
    requires Passed(d, ids, price, now).error.None?
    ensures QuietAt(Passed(d, ids, price, now).desk, key, price)
    decreases |ids|
  {
    hide Evaluated, Quiet;
    if ids == [] {
    } else if !d.orders[ids[0]].Resting() {
      SettledIsQuiet(d.orders[ids[0]], price);
      StillListed(d.orders, d.orders, ids, key, price);
      PassQuiets(d, ids[1..], key, price, now);
    } else {
      EvaluationSettles(d, ids[0], price, now);
      EvaluationEvolves(d, ids[0], price, now);
      var e := Evaluated(d, ids[0], price, now).desk;
      StillListed(d.orders, e.orders, ids, key, price);
      PassQuiets(e, ids[1..], key, price, now);
    }
  }

  lemma StillListed(a: seq<Order>, b: seq<Order>, ids: seq<nat>, key: Key, price: real)
    requires price > 0.0 && ids != [] && ids[0] < |a|
    requires OnlyDrops(a, b, Some(ids[0])) && Quiet(b[ids[0]], price)
    requires forall i: nat | i < |a| :: a[i].key == b[i].key
    requires forall i: nat | i < |a| && a[i].key == key :: i in ids || Quiet(a[i], price)
    requires forall i: nat | |a| <= i < |b| :: Quiet(b[i], price)
    ensures forall i: nat | i < |b| && b[i].key == key :: i in ids[1..] || Quiet(b[i], price)
  {
    hide Decide;
    forall i: nat | i < |b| && b[i].key == key
      ensures i in ids[1..] || Quiet(b[i], price)
    {
      if i < |a| && i != ids[0] && i in ids {
        assert i in ids[1..];
      }
    }
  }

  lemma EvaluationEvolves(d: Desk, id: nat, price: real, now: int)
    requires Rests(d, id) && price > 0.0
    ensures Evolves(d.orders, Evaluated(d, id, price, now).desk.orders)
  {
    hide Evaluated, Enabled, Do, Evolves;
    var ms := EvaluationIsMoves(d, id, price, now);
    PlayEvolves(d, ms);
  }

  lemma {:induction false} QuietPassDoesNothing(d: Desk, ids: seq<nat>, price: real, now: int)
    requires price > 0.0
    requires forall i | 0 <= i < |ids| :: ids[i] < |d.orders| && Quiet(d.orders[ids[i]], price)
    ensures Passed(d, ids, price, now) == Step(d, [], None)
  {
    hide Settled, Decide;
    if ids != [] {
      var id := ids[0];
      if d.orders[id].Resting() {
        assert Decide(d.orders[id], price, now) == Rest(d.orders[id]);
        assert Stored(d, id, d.orders[id]) == d;
      }
      QuietPassDoesNothing(d, ids[1..], price, now);
    }
  }

  /** A pass goes through its list from front to back: up to any point, and unless
      it raised there, from the state reached on. */
  lemma {:induction false} PassInParts(d: Desk, a: seq<nat>, b: seq<nat>, price: real, now: int)
    requires price > 0.0
    requires forall i | 0 <= i < |a| :: a[i] < |d.orders|
    requires forall i | 0 <= i < |b| :: b[i] < |d.orders|
    ensures var first := Passed(d, a, price, now);
            && |d.orders| <= |first.desk.orders|
            && Passed(d, a + b, price, now)
               == if first.error.Some? then first
                  else
                    var rest := Passed(first.desk, b, price, now);
                    if rest.error.Some? then rest else rest.(closed := first.closed + rest.closed)
    decreases |a|
  {
    hide Evaluated;
    if a == [] {
      assert a + b == b;
      var rest := Passed(d, b, price, now);
      assert [] + rest.closed == rest.closed;
    } else {
      assert (a + b)[1..] == a[1..] + b;
      if !d.orders[a[0]].Resting() {
        PassInParts(d, a[1..], b, price, now);
      } else {
        var s := Evaluated(d, a[0], price, now);
        if s.error.None? {
          PassInParts(s.desk, a[1..], b, price, now);
          var x := Passed(s.desk, a[1..], price, now);
          var y := Passed(x.desk, b, price, now);
          assert s.closed + (x.closed + y.closed) == s.closed + x.closed + y.closed;
        }
      }
    }
  }

  /** A price pass reaches a fixpoint.  Unless it raises, afterwards nothing at
      rest in the instrument responds to the price, spawned legs included, and
      a second pass at that price, at any time, trades nothing and changes nothing. */
  lemma PassIsAFixpoint(d: Desk, key: Key, price: real, now: int, later: int)
    requires price > 0.0 && PriceProcessed(d, key, price, now).error.None?
    ensures var e := PriceProcessed(d, key, price, now).desk;
            && QuietAt(e, key, price)
            && PriceProcessed(e, key, price, later) == Step(e, [], None)
  {
    hide Quiet, Passed;
    var e := PriceProcessed(d, key, price, now).desk;
    forall i: nat | i < |d.orders| && d.orders[i].key == key
      ensures i in Candidates(d.orders, key, 0) || Quiet(d.orders[i], price)
    {
      if !d.orders[i].Resting() { SettledIsQuiet(d.orders[i], price); }
    }
    PassQuiets(d, Candidates(d.orders, key, 0), key, price, now);
    QuietPassDoesNothing(e, Candidates(e.orders, key, 0), price, later);
  }

  /** At the engine: a second update at the same price adds no trade and moves
      no cash, order, reservation or lot; only the position's mark is renewed. */
  lemma SecondUpdateOnlyRemarks(e: Engine, key: Key, price: real, now: int, later: int)
    requires price > 0.0 && PriceProcessed(e.desk, key, price, now).error.None?
    ensures var f := Apply(e, Price(key, price, now)); var g := Apply(f, Price(key, price, later));
            && g.trades == f.trades && g.desk.ledger == f.desk.ledger && g.desk.orders == f.desk.orders
            && g.desk.reservations == f.desk.reservations && g.desk.groups == f.desk.groups
            && g.desk.book.lots == f.desk.book.lots
  {
    hide Passed, Quiet;
    var d := PriceProcessed(e.desk, key, price, now).desk;
    PassIsAFixpoint(e.desk, key, price, now, later);
    var f := Apply(e, Price(key, price, now));
    MarkingKeepsLots(d.book, key, price, now);
    forall i | 0 <= i < |Candidates(f.desk.orders, key, 0)|
      ensures Quiet(f.desk.orders[Candidates(f.desk.orders, key, 0)[i]], price)
    {
      assert Candidates(f.desk.orders, key, 0)[i] in Candidates(f.desk.orders, key, 0);
    }
    QuietPassDoesNothing(f.desk, Candidates(f.desk.orders, key, 0), price, later);
    MarkingKeepsLots(f.desk.book, key, price, later);
    assert f.trades + [] == f.trades;
  }

  /** A leg exits exactly what its entry filled, on the other side, and the legs
      of one entry straddle its fill price: the stop on the losing side, the
      target on the winning side. */
  predicate Straddles(leg: Order, entry: Order, fill: real) {
    && leg.key == entry.key && leg.side == entry.side.Opposite() && leg.quantity == entry.quantity
    && (leg.orderType.Stop? ==> leg.trigger == entry.stopLoss && leg.trigger.Some?
                                && if entry.side.Buy? then leg.trigger.value < fill else leg.trigger.value > fill)
    && (leg.orderType.Limit? ==> leg.price == entry.target && leg.price.Some?
                                 && if entry.side.Buy? then leg.price.value > fill else leg.price.value < fill)
    && (leg.Resting() || (leg.status.Rejected? && leg.side.Buy?))
  }

  lemma LegStraddles(d: Desk, entry: Order, id: nat, isStop: bool, level: Option<real>, g: nat, now: int)
    requires PositiveIfSet(level) && entry.averageFillPrice.Some?
    requires level == if isStop then entry.stopLoss else entry.target
    ensures var e := WithLeg(d, entry, id, isStop, level, g, now);
            && d.orders <= e.orders && |e.orders| <= |d.orders| + 1
            && (forall i | |d.orders| <= i < |e.orders| ::
                  && Straddles(e.orders[i], entry, entry.averageFillPrice.value)
                  && e.orders[i].orderType == if isStop then Stop else Limit)
            && (|e.orders| == |d.orders| + 1
                <==> level.Some? && LegIsValid(entry.side, isStop, level.value, entry.averageFillPrice.value))
  {
    hide Cost;
  }

  /** An entry that fills gets a stop leg exactly when its stop is on the losing
      side of the actual fill, a target leg exactly when its target is on the
      winning side; legs never get legs. */
  lemma LegsStraddleTheFill(d: Desk, entry: Order, id: nat, now: int)
    requires entry.averageFillPrice.Some?
    ensures var e := BracketSpawned(d, entry, id, now);
            var fill := entry.averageFillPrice.value;
            var stops := entry.stopLoss.Some? && LegIsValid(entry.side, true, entry.stopLoss.value, fill);
            var targets := entry.target.Some? && LegIsValid(entry.side, false, entry.target.value, fill);
            && d.orders <= e.orders
            && (forall i | |d.orders| <= i < |e.orders| :: Straddles(e.orders[i], entry, fill))
            && |e.orders| == |d.orders| + (if stops then 1 else 0) + (if targets then 1 else 0)
            && (entry.parent.Some? ==> e == d)
            && (stops ==> e.orders[|d.orders|].orderType.Stop?)
            && (targets ==> e.orders[|e.orders| - 1].orderType.Limit?)
  {
    hide WithLeg, Straddles, LegIsValid;
    if entry.parent.None? && (entry.stopLoss.Some? || entry.target.Some?) {
      var d0 := d.(groups := d.groups + 1);
      var d1 := WithLeg(d0, entry, id, true, entry.stopLoss, d.groups, now);
      var d2 := WithLeg(d1, entry, id, false, entry.target, d.groups, now);
      LegStraddles(d0, entry, id, true, entry.stopLoss, d.groups, now);
      LegStraddles(d1, entry, id, false, entry.target, d.groups, now);
    }
  }

  /** An instrument without resting orders has no candidates. */
  lemma {:induction false} NoCandidates(orders: seq<Order>, key: Key, i: nat)
    requires forall j | 0 <= j < |orders| && orders[j].Resting() :: orders[j].key != key
    ensures Candidates(orders, key, i) == []
    decreases |orders| - i
  {
    if i < |orders| { NoCandidates(orders, key, i + 1); }
  }

  // ---------- MARKET orders never rest ----------

  predicate NoMarketRests(orders: seq<Order>) {
    forall i | 0 <= i < |orders| :: orders[i].Resting() ==> !orders[i].orderType.Market?
  }

  /** Only BUY orders hold reservations. */
  predicate KnownReservations(d: Desk) {
    forall id | id in d.reservations :: id < |d.orders| && d.orders[id].side.Buy?
  }

  lemma FewerReservations(d: Desk, e: Desk)
    requires KnownReservations(d) && e.reservations.Keys <= d.reservations.Keys && Evolves(d.orders, e.orders)
    ensures KnownReservations(e)
  {
    forall id | id in e.reservations ensures id < |e.orders| && e.orders[id].side.Buy? {
      assert Evolved(d.orders[id], e.orders[id]);
    }
  }

  lemma EnteringKeepsKnown(d: Desk, o: Order, now: int)
    requires KnownReservations(d) && o.Resting()
    ensures KnownReservations(Entered(d, o, now))
  {
    hide Cost;
  }

  lemma LegKeepsKnown(d: Desk, entry: Order, id: nat, isStop: bool, level: Option<real>, g: nat, now: int)
    requires KnownReservations(d) && PositiveIfSet(level) && entry.averageFillPrice.Some?
    ensures KnownReservations(WithLeg(d, entry, id, isStop, level, g, now))
  {
    hide Entered, KnownReservations;
    if level.Some? && LegIsValid(entry.side, isStop, level.value, entry.averageFillPrice.value) {
      EnteringKeepsKnown(d, LegOf(entry, id, isStop, level.value, g, now), now);
    }
  }

  lemma SpawningKeepsKnown(d: Desk, entry: Order, id: nat, now: int)
    requires KnownReservations(d) && entry.averageFillPrice.Some?
    ensures KnownReservations(BracketSpawned(d, entry, id, now))
  {
    hide WithLeg;
    var d0 := d.(groups := d.groups + 1);
    LegKeepsKnown(d0, entry, id, true, entry.stopLoss, d.groups, now);
    LegKeepsKnown(WithLeg(d0, entry, id, true, entry.stopLoss, d.groups, now),
                  entry, id, false, entry.target, d.groups, now);
  }

  lemma AmendingKeepsKnown(d: Desk, m: OrderModification, now: int)
    requires m.Valid() && KnownReservations(d)
    ensures KnownReservations(Modified(d, m, now).desk)
  {
    hide Cost;
  }

  lemma ExchangeReleases(d: Desk, id: nat, price: real, now: int)
    requires Fires(d, id, price, now)
    ensures Exchanging(d, id, price, now).desk.reservations.Keys <= d.reservations.Keys
  {
    hide SiblingsCancelled, Filled, TradesOf, Unrecordable;
    var o := Fired(d, id, price, now);
    var u := Unreserved(d, id).desk;
    var p := Paid(u.ledger, o, price);
    if p.Ok? && !Unrecordable(u.book, o, price, now) {
      SiblingsRelease(Executed(u, id, o, p.value, price, now).desk, id, o.ocoGroup, 0, now);
    }
  }

  lemma {:induction false} SiblingsRelease(d: Desk, filled: nat, group: Option<nat>, i: nat, now: int)
    ensures SiblingsCancelled(d, filled, group, i, now).desk.reservations.Keys <= d.reservations.Keys
    decreases |d.orders| - i
  {
    if group.None? || i >= |d.orders| {
    } else if i == filled || d.orders[i].ocoGroup != group || !d.orders[i].Resting() {
      SiblingsRelease(d, filled, group, i + 1, now);
    } else {
      SiblingsRelease(Withdrawn(d, i, Cancelled, now).desk, filled, group, i + 1, now);
    }
  }

  lemma MoveKeepsKnown(d: Desk, mv: Move)
    requires Enabled(d, mv) && KnownReservations(d)
    ensures KnownReservations(Do(d, mv))
  {
    hide Exchanging, Entered, Modified, BracketSpawned, Evolves, KnownReservations, Decide, Rereserved;
    MoveEvolves(d, mv);
    match mv
    case Enter(o, now) => EnteringKeepsKnown(d, o, now);
    case Spawn(id, now) => SpawningKeepsKnown(d, d.orders[id], id, now);
    case Amend(m, now) => AmendingKeepsKnown(d, m, now);
    case Trade(id, price, now) =>
      ExchangeReleases(d, id, price, now);
      FewerReservations(d, Do(d, mv));
    case Strand(id, price, now) =>
      ExchangeReleases(d, id, price, now);
      FewerReservations(d, Do(d, mv));
    case Spoil(id, price, now) =>
      ExchangeReleases(d, id, price, now);
      FewerReservations(d, Do(d, mv));
    case Forgo(id, amount, _) =>
      RereservingKeepsKeys(d, id, amount);
      FewerReservations(d, Do(d, mv));
    case _ => FewerReservations(d, Do(d, mv));
  }

  lemma RereservingKeepsKeys(d: Desk, id: nat, amount: real)
    ensures Rereserved(d, id, amount).error.Some? ==> Rereserved(d, id, amount).desk.reservations == d.reservations
  {
  }

  lemma {:induction false} PlayKeepsKnown(d: Desk, ms: seq<Move>)
    requires Legal(d, ms) && KnownReservations(d)
    ensures KnownReservations(Play(d, ms))
    decreases |ms|
  {
    hide Enabled, Do, KnownReservations;
    if ms != [] {
      MoveKeepsKnown(d, ms[0]);
      PlayKeepsKnown(Do(d, ms[0]), ms[1..]);
    }
  }

  predicate OnlyLegsJoin(a: seq<Order>, b: seq<Order>) {
    Evolves(a, b) && forall i: nat | |a| <= i < |b| :: b[i].parent.Some?
  }

  lemma OnlyLegsKeepMarket(a: seq<Order>, b: seq<Order>)
    requires OnlyLegsJoin(a, b) && NoMarketRests(a)
    ensures NoMarketRests(b)
  {
    forall i | 0 <= i < |b| ensures b[i].Resting() ==> !b[i].orderType.Market? {
      if i < |a| { assert Evolved(a[i], b[i]); }
    }
  }

  lemma {:induction false} PassOnlyAddsLegs(d: Desk, ids: seq<nat>, price: real, now: int)
    requires price > 0.0
    requires forall i | 0 <= i < |ids| :: ids[i] < |d.orders|
    ensures OnlyLegsJoin(d.orders, Passed(d, ids, price, now).desk.orders)
    decreases |ids|
  {
    hide Evaluated, Evolved;
    if ids == [] {
      NothingHappens(d.orders);
    } else if !d.orders[ids[0]].Resting() {
      PassOnlyAddsLegs(d, ids[1..], price, now);
    } else {
      EvaluationSettles(d, ids[0], price, now);
      EvaluationEvolves(d, ids[0], price, now);
      var s := Evaluated(d, ids[0], price, now);
      if s.error.None? {
        PassOnlyAddsLegs(s.desk, ids[1..], price, now);
        LegsCompose(d.orders, s.desk.orders, Passed(d, ids, price, now).desk.orders);
      }
    }
  }

  lemma LegsCompose(a: seq<Order>, b: seq<Order>, c: seq<Order>)
    requires OnlyLegsJoin(a, b) && OnlyLegsJoin(b, c)
    ensures OnlyLegsJoin(a, c)
  {
    EvolvesFurther(a, b, c);
    forall i: nat | |a| <= i < |c| ensures c[i].parent.Some? {
      if i < |b| { assert Evolved(b[i], c[i]); }
    }
  }

  /** A MARKET order that is paid but cannot be recorded. */
  predicate LeavesMarket(d: Desk, op: Op)
    requires op.Valid()
  {
    && op.Place? && op.req.orderType.Market? && op.price > 0.0
    && var o := OrderFor(op.req, op.price, op.now);
       Paid(d.ledger, o, op.price).Ok? && Unrecordable(d.book, o, op.price, op.now)
  }

  /** A MARKET order is settled by the call that places it, unless it is paid and cannot be recorded. */
  lemma MarketSettlesAtOnce(d: Desk, req: PaperOrderRequest, price: real, now: int)
    requires req.Valid() && price > 0.0 && req.orderType.Market? && KnownReservations(d)
    ensures var s := Placed(d, req, price, now);
            && |s.desk.orders| > |d.orders|
            && (s.desk.orders[|d.orders|].Resting() <==> LeavesMarket(d, Place(req, price, now)))
  {
    hide Filled, TradesOf, SiblingsCancelled, BracketSpawned, AnyLate, ClosedBy, UntilLate;
    var id: nat := |d.orders|;
    var e := Entered(d, OrderFor(req, price, now), now);
    assert Unreserved(e, id).error.None?;
    var u := Unreserved(e, id).desk;
    var o := Decide(e.orders[id], price, now).order;
    var p := Paid(u.ledger, o, price);
    CostIsPositive(o.quantity, price);
    if p.Ok? {
      var c := Exchanged(e, id, o, price, now).desk;
      SpawnedAreQuiet(c, Completed(o, price, now), id, now);
    }
  }

  /** After any call, also one that raised, no MARKET order rests, but for one
      that the call paid and could not record. */
  lemma CallLeavesNoMarket(e: Engine, op: Op)
    requires op.Valid() && KnownReservations(e.desk) && NoMarketRests(e.desk.orders)
    ensures KnownReservations(Apply(e, op).desk)
    ensures NoMarketRests(Apply(e, op).desk.orders) <==> !LeavesMarket(e.desk, op)
  {
    hide Placed, CancelledOrder, Modified, Passed, Enabled, Do, KnownReservations, NoMarketRests;
    var d := e.desk;
    var f := Apply(e, op).desk;
    var ms := OperationIsMoves(e, op);
    PlayKeepsKnown(d, ms);
    PlayEvolves(d, ms);
    match op
    case Place(req, price, now) => PlacementLeavesNoMarket(d, req, price, now);
    case Cancel(id, now) =>
      CancellationKeepsCount(d, id, now);
      OnlyLegsKeepMarket(d.orders, f.orders);
    case Modify(m, now) =>
      AmendingFillsNothing(d, m, now);
      OnlyLegsKeepMarket(d.orders, f.orders);
    case Price(key, price, now) =>
      if price > 0.0 {
        PassOnlyAddsLegs(d, Candidates(d.orders, key, 0), price, now);
        OnlyLegsKeepMarket(d.orders, f.orders);
      }
  }

  lemma CancellationKeepsCount(d: Desk, id: nat, now: int)
    ensures |CancelledOrder(d, id, now).desk.orders| == |d.orders|
  {
  }

  lemma PlacementLeavesNoMarket(d: Desk, req: PaperOrderRequest, price: real, now: int)
    requires req.Valid() && KnownReservations(d) && NoMarketRests(d.orders)
    ensures NoMarketRests(Placed(d, req, price, now).desk.orders) <==> !LeavesMarket(d, Place(req, price, now))
  {
    hide Evaluated, Entered, KnownReservations, LeavesMarket;
    if price <= 0.0 || !PositiveIfSet(TriggerFor(req, price)) {
      assert !LeavesMarket(d, Place(req, price, now)) by { NothingIsLeft(d, req, price, now); }
    } else {
      var o := OrderFor(req, price, now);
      var e := Entered(d, o, now);
      EnteringFillsNothing(d, o, now);
      var f := Placed(d, req, price, now).desk;
      if req.orderType.Market? {
        MarketSettlesAtOnce(d, req, price, now);
      } else {
        NothingIsLeft(d, req, price, now);
      }
      if e.orders[|d.orders|].Resting() {
        EvaluationSettles(e, |d.orders|, price, now);
        EvaluationEvolves(e, |d.orders|, price, now);
      } else {
        NothingHappens(e.orders);
      }
      assert Evolved(e.orders[|d.orders|], f.orders[|d.orders|]);
      forall i: nat | i < |f.orders| && i != |d.orders|
        ensures f.orders[i].Resting() ==> !f.orders[i].orderType.Market?
      {
        if i < |d.orders| {
          assert Evolved(e.orders[i], f.orders[i]);
          assert e.orders[i] == d.orders[i];
        }
      }
    }
  }

  lemma NothingIsLeft(d: Desk, req: PaperOrderRequest, price: real, now: int)
    requires req.Valid() && (price <= 0.0 || !PositiveIfSet(TriggerFor(req, price)) || !req.orderType.Market?)
    ensures !LeavesMarket(d, Place(req, price, now))
  {
  }

  /** With a clock that never goes back no MARKET order rests after any call of any run. */
  lemma {:induction false} RunLeavesNoMarket(e: Engine, ops: seq<Op>, start: int)
    requires ValidOps(ops) && Timely(ops, start) && Current(e.desk.book, start)
    requires KnownReservations(e.desk) && NoMarketRests(e.desk.orders)
    ensures NoMarketRests(Run(e, ops).desk.orders)
    decreases |ops|
  {
    hide Apply, KnownReservations, NoMarketRests, Unrecordable, Current;
    if ops != [] {
      CurrentLater(e.desk.book, start, ops[0].now);
      if ops[0].Place? && LeavesMarket(e.desk, ops[0]) {
        CurrentIsRecordable(e.desk.book, OrderFor(ops[0].req, ops[0].price, ops[0].now), ops[0].price, ops[0].now);
      }
      CallLeavesNoMarket(e, ops[0]);
      CallKeepsCurrent(e, ops[0]);
      RunLeavesNoMarket(Apply(e, ops[0]), ops[1..], ops[0].now);
    }
  }
}
