/** Calls on one instrument leave the positions and the resting orders of every other alone. */
module Locality {
  import opened Domain
  import opened Positions
  import opened Matching
  import opened OrderDesk
  import opened Moves
  import opened Lifecycle
  import opened Accounts

  /** Newcomers of `b` all trade in `key`. */
  predicate JoinIn(a: seq<Order>, b: seq<Order>, key: Key) {
    Evolves(a, b) && forall i | |a| <= i < |b| :: b[i].key == key
  }

  /** The book differs at most in `key`, and so do the newcomers. */
  predicate LocalTo(d: Desk, e: Desk, key: Key) {
    BookOk(e.book) && SameElsewhere(d.book, e.book, key) && JoinIn(d.orders, e.orders, key)
  }

  lemma LocalFurther(d: Desk, e: Desk, f: Desk, key: Key)
    requires LocalTo(d, e, key) && LocalTo(e, f, key)
    ensures LocalTo(d, f, key)
  {
    EvolvesFurther(d.orders, e.orders, f.orders);
    forall i | |d.orders| <= i < |f.orders| ensures f.orders[i].key == key {
      if i < |e.orders| { assert Evolved(e.orders[i], f.orders[i]); }
    }
  }

  lemma NothingIsLocal(d: Desk, key: Key)
    requires BookOk(d.book)
    ensures LocalTo(d, d, key)
  {
  }

  lemma ExchangeIsLocal(d: Desk, id: nat, price: real, now: int)
    requires Fires(d, id, price, now) && BookOk(d.book)
    ensures LocalTo(d, Exchanging(d, id, price, now).desk, d.orders[id].key)
  {
    hide SiblingsCancelled, Filled, TradesOf, Evolves, BookOk;
    var o := Fired(d, id, price, now);
    var u := Unreserved(d, id).desk;
    var p := Paid(u.ledger, o, price);
    ExchangeEvolves(d, id, price, now);
    if p.Ok? {
      var x := Executed(u, id, o, p.value, price, now);
      FillIsOk(d.book, o.key, o.side, o.quantity, price, id, now);
      SiblingsKeepMoney(x.desk, id, o.ocoGroup, 0, now);
    }
  }

  lemma ExchangeEvolves(d: Desk, id: nat, price: real, now: int)
    requires Fires(d, id, price, now)
    ensures var e := Exchanging(d, id, price, now).desk;
            Evolves(d.orders, e.orders) && |e.orders| == |d.orders|
  {
    hide Exchanged, Evolves, Enabled, Do;
    var ms := ExchangeIsAMove(d, id, price, now);
    PlayEvolves(d, ms);
  }

  lemma LegIsLocal(d: Desk, entry: Order, id: nat, isStop: bool, level: Option<real>, g: nat, now: int)
    requires PositiveIfSet(level) && entry.averageFillPrice.Some? && BookOk(d.book)
    ensures LocalTo(d, WithLeg(d, entry, id, isStop, level, g, now), entry.key)
  {
    hide BookOk, Entered;
    NothingIsLocal(d, entry.key);
    if level.Some? && LegIsValid(entry.side, isStop, level.value, entry.averageFillPrice.value) {
      var leg := LegOf(entry, id, isStop, level.value, g, now);
      EnteringFillsNothing(d, leg, now);
      EnteringKeepsBook(d, leg, now);
    }
  }

  lemma EnteringKeepsBook(d: Desk, o: Order, now: int)
    requires o.Resting()
    ensures Entered(d, o, now).book == d.book
  {
  }

  lemma SpawnIsLocal(d: Desk, entry: Order, id: nat, now: int)
    requires entry.averageFillPrice.Some? && BookOk(d.book)
    ensures LocalTo(d, BracketSpawned(d, entry, id, now), entry.key)
  {
    hide WithLeg, BookOk;
    NothingIsLocal(d, entry.key);
    var d0 := d.(groups := d.groups + 1);
    var d1 := WithLeg(d0, entry, id, true, entry.stopLoss, d.groups, now);
    LegIsLocal(d0, entry, id, true, entry.stopLoss, d.groups, now);
    LegIsLocal(d1, entry, id, false, entry.target, d.groups, now);
    LocalFurther(d0, d1, WithLeg(d1, entry, id, false, entry.target, d.groups, now), entry.key);
  }

  lemma EvaluationIsLocal(d: Desk, id: nat, price: real, now: int)
    requires Rests(d, id) && price > 0.0 && BookOk(d.book)
    ensures LocalTo(d, Evaluated(d, id, price, now).desk, d.orders[id].key)
  {
    hide Exchanged, BracketSpawned, LocalTo;
    var key := d.orders[id].key;
    if Decide(d.orders[id], price, now).Rest? {
      LookingIsLocal(d, id, price, now);
    } else {
      ExchangeIsLocal(d, id, price, now);
      var x := Exchanging(d, id, price, now);
      if x.error.None? && x.desk.orders[id].status.Complete? {
        var filled := Completed(Fired(d, id, price, now), price, now);
        LocalBook(d, x.desk, key);
        SpawnIsLocal(x.desk, filled, id, now);
        LocalFurther(d, x.desk, BracketSpawned(x.desk, filled, id, now), key);
      }
    }
  }

  lemma LocalBook(d: Desk, e: Desk, key: Key)
    requires LocalTo(d, e, key)
    ensures BookOk(e.book)
  {
  }

  lemma LookingIsLocal(d: Desk, id: nat, price: real, now: int)
    requires Rests(d, id) && price > 0.0 && BookOk(d.book)
    ensures LocalTo(d, Stored(d, id, Decide(d.orders[id], price, now).order), d.orders[id].key)
  {
    hide BookOk, Decide;
    LookingFillsNothing(d, id, price, now);
  }

  lemma {:induction false} PassIsLocal(d: Desk, ids: seq<nat>, key: Key, price: real, now: int)
    requires price > 0.0 && BookOk(d.book)
    requires forall i | 0 <= i < |ids| :: ids[i] < |d.orders| && d.orders[ids[i]].key == key
    ensures LocalTo(d, Passed(d, ids, price, now).desk, key)
    decreases |ids|
  {
    hide Evaluated, BookOk, SameElsewhere;
    NothingIsLocal(d, key);
    if ids != [] {
      if !d.orders[ids[0]].Resting() {
        PassIsLocal(d, ids[1..], key, price, now);
      } else {
        EvaluationIsLocal(d, ids[0], price, now);
        var s := Evaluated(d, ids[0], price, now);
        if s.error.None? {
          forall i | 0 <= i < |ids| ensures s.desk.orders[ids[i]].key == key {
            assert Evolved(d.orders[ids[i]], s.desk.orders[ids[i]]);
          }
          PassIsLocal(s.desk, ids[1..], key, price, now);
          LocalFurther(d, s.desk, Passed(s.desk, ids[1..], price, now).desk, key);
        }
      }
    }
  }

  lemma PlacementIsLocal(d: Desk, req: PaperOrderRequest, price: real, now: int)
    requires req.Valid() && BookOk(d.book)
    ensures LocalTo(d, Placed(d, req, price, now).desk, req.key)
  {
    hide Evaluated, Entered, BookOk, LocalTo;
    NothingIsLocal(d, req.key);
    if price > 0.0 && PositiveIfSet(TriggerFor(req, price)) {
      var o := OrderFor(req, price, now);
      var e := Entered(d, o, now);
      EnteringIsLocal(d, o, now);
      LocalBook(d, e, req.key);
      EnteringFillsNothing(d, o, now);
      if e.orders[|d.orders|].Resting() {
        EvaluationIsLocal(e, |d.orders|, price, now);
        LocalFurther(d, e, Evaluated(e, |d.orders|, price, now).desk, req.key);
      }
    }
  }

  lemma EnteringIsLocal(d: Desk, o: Order, now: int)
    requires o.Resting() && BookOk(d.book)
    ensures LocalTo(d, Entered(d, o, now), o.key)
  {
    hide Entered, BookOk;
    EnteringFillsNothing(d, o, now);
    EnteringKeepsBook(d, o, now);
  }
}
