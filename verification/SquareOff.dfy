/** What the exit pass of a cycle achieves at the end of the trading day. */
module SquareOff {
  import opened Domain
  import opened Calendar
  import opened Lists
  import opened OrderDesk
  import opened Engine
  import opened Clock
  import opened PricePass
  import opened MarketOrders
  import opened AutoRisk
  import opened AutoTrading

  /** The account can take orders: what any run of calls with a clock that never goes back leaves. */
  ghost predicate Serviceable(e: Engine, now: int) { KnownReservations(e.desk) && Current(e.desk.book, now) }

  /** Step `i` finds its position open and its exit cannot be paid. */
  predicate Unpayable(t: Trace<Key>, i: nat, quotes: map<Key, real>)
    requires i < |t.order| < |t.states| && t.order[i] in t.states[i].positions && t.order[i] in quotes
  {
    var (s, key) := (t.states[i], t.order[i]);
    var p := s.positions[key];
    && key in s.engine.desk.book.positions
    && !Affordable(s.engine.desk.ledger, p.side.Opposite(), Cost(p.quantity, quotes[key]))
  }

  /** One step at square-off: it never raises, and drops the position unless its exit cannot be paid. */
  lemma StepLeaves(cfg: AutoConfig, a: Loop, b: Loop, key: Key, signals: map<string, AutoSignal>,
                   quotes: map<Key, real>, now: int, cycle: nat, passed: bool)
    requires ExitStep(cfg, a, b, key, signals, quotes, now, cycle, passed)
    requires TimeOfDay(now) >= cfg.squareOffTime && Serviceable(a.engine, now) && key in quotes && quotes[key] > 0.0
    ensures passed && Serviceable(b.engine, now)
    ensures var p := a.positions[key];
            var stays := key in a.engine.desk.book.positions
                         && !Affordable(a.engine.desk.ledger, p.side.Opposite(), Cost(p.quantity, quotes[key]));
            b.positions == if stays then a.positions else a.positions - {key}
  {
    hide Placed, Current, Cost, PnlSince, SignalFor, TimeOfDay, CapsHold;
    var (p, price) := (a.positions[key], quotes[key]);
    if key in a.engine.desk.book.positions {
      MarketOrderOutcome(a.engine.desk, key, p.side.Opposite(), p.quantity, price, now);
      var req := MarketRequest(key, p.side.Opposite(), p.quantity);
      SameKnown(a.engine.desk, Placed(a.engine.desk, req, price, now).desk);
    }
  }

  lemma SameKnown(d: Desk, e: Desk)
    requires KnownReservations(d) && e.reservations == d.reservations
    requires |e.orders| == |d.orders| + 1 && e.orders[..|d.orders|] == d.orders
    ensures KnownReservations(e)
  {
    assert forall i | 0 <= i < |d.orders| :: e.orders[..|d.orders|][i] == e.orders[i];
  }

  /** Every step of the pass finds its position, one of those tracked at the start. */
  lemma StepsFind(cfg: AutoConfig, t: Trace<Key>, a: Loop, b: Loop, signals: map<string, AutoSignal>,
                  quotes: map<Key, real>, now: int, cycle: nat, passed: bool)
    requires ExitsTraced(cfg, t, a, b, signals, quotes, now, cycle, passed) && ListsOnce(a.tracked, a.positions.Keys)
    requires forall k | k in a.positions :: k in quotes && quotes[k] > 0.0
    ensures Found(t, quotes)
  {
    hide ExitOk;
    forall i | 0 <= i < |t.order| ensures t.order[i] in t.states[i].positions && t.order[i] in quotes {
      assert ExitStep(cfg, t.states[i], t.states[i + 1], t.order[i], signals, quotes, now, cycle,
                      passed || i < |t.order| - 1);
      assert a.tracked[i] in a.positions;
    }
  }

  /** A trace whose every step finds its position, quoted. */
  ghost predicate Found(t: Trace<Key>, quotes: map<Key, real>) {
    && |t.states| == |t.order| + 1 && Distinct(t.order)
    && forall i | 0 <= i < |t.order| :: t.order[i] in t.states[i].positions && t.order[i] in quotes
  }

  /** Before step `n`: what is tracked is as it was at the start; what is still to
      come is tracked, and of what has been looked at just the unpayable. */
  ghost predicate Reached(t: Trace<Key>, a: Loop, quotes: map<Key, real>, n: nat)
    requires Found(t, quotes) && n <= |t.order|
  {
    && (forall k | k in t.states[n].positions :: k in a.positions && t.states[n].positions[k] == a.positions[k])
    && (forall i: nat | n <= i < |t.order| :: t.order[i] in t.states[n].positions)
    && (forall i: nat | i < n :: t.order[i] in t.states[n].positions <==> Unpayable(t, i, quotes))
    && (forall k | k in a.positions && k !in t.order[..n] :: k in t.states[n].positions)
  }

  lemma StepReaches(t: Trace<Key>, a: Loop, quotes: map<Key, real>, m: nat)
    requires Found(t, quotes) && m < |t.order| && Reached(t, a, quotes, m)
    requires t.states[m + 1].positions
          == if Unpayable(t, m, quotes) then t.states[m].positions else t.states[m].positions - {t.order[m]}
    ensures Reached(t, a, quotes, m + 1)
  {
    hide Unpayable;
    assert t.order[..m + 1] == t.order[..m] + [t.order[m]];
  }

  lemma {:induction false} PassUpTo(cfg: AutoConfig, t: Trace<Key>, a: Loop, b: Loop, signals: map<string, AutoSignal>,
                                    quotes: map<Key, real>, now: int, cycle: nat, passed: bool, n: nat)
    requires ExitsTraced(cfg, t, a, b, signals, quotes, now, cycle, passed) && n <= |t.order| && Found(t, quotes)
    requires TimeOfDay(now) >= cfg.squareOffTime && Serviceable(a.engine, now)
    requires forall k | k in a.positions :: k in quotes && quotes[k] > 0.0
    requires ListsOnce(a.tracked, a.positions.Keys)
    ensures Serviceable(t.states[n].engine, now) && (0 < n == |t.order| ==> passed) && Reached(t, a, quotes, n)
  {
    hide ExitOk, Unpayable, Serviceable, TimeOfDay, Reached;
    if n == 0 {
      assert Reached(t, a, quotes, 0) by { NothingReached(t, a, quotes); }
    } else {
      var m := n - 1;
      PassUpTo(cfg, t, a, b, signals, quotes, now, cycle, passed, m);
      var key := t.order[m];
      assert ExitStep(cfg, t.states[m], t.states[n], key, signals, quotes, now, cycle, passed || m < |t.order| - 1);
      assert a.tracked[m] in a.positions;
      StepLeaves(cfg, t.states[m], t.states[n], key, signals, quotes, now, cycle, passed || m < |t.order| - 1);
      UnpayableAt(t, m, quotes);
      StepReaches(t, a, quotes, m);
    }
  }

  lemma NothingReached(t: Trace<Key>, a: Loop, quotes: map<Key, real>)
    requires Found(t, quotes) && t.states[0] == a && t.order <= a.tracked && ListsOnce(a.tracked, a.positions.Keys)
    ensures Reached(t, a, quotes, 0)
  {
    forall i: nat | i < |t.order| ensures t.order[i] in a.positions {
      assert t.order[i] == a.tracked[i];
    }
  }

  lemma UnpayableAt(t: Trace<Key>, i: nat, quotes: map<Key, real>)
    requires i < |t.order| < |t.states| && t.order[i] in t.states[i].positions && t.order[i] in quotes
    ensures var (s, key) := (t.states[i], t.order[i]);
            var p := s.positions[key];
            Unpayable(t, i, quotes)
            <==> key in s.engine.desk.book.positions
                 && !Affordable(s.engine.desk.ledger, p.side.Opposite(), Cost(p.quantity, quotes[key]))
  {
  }

  /** Square-off.  From a serviceable account, with a price for every tracked
      position, the exit pass never raises, and afterwards exactly those
      positions are still tracked whose exit could not be paid when its turn
      came: they are shorts, and unchanged. */
  lemma SquareOffLeaves(cfg: AutoConfig, t: Trace<Key>, a: Loop, b: Loop, signals: map<string, AutoSignal>,
                        quotes: map<Key, real>, now: int, cycle: nat, passed: bool)
    requires ExitsTraced(cfg, t, a, b, signals, quotes, now, cycle, passed) && ListsOnce(a.tracked, a.positions.Keys)
    requires TimeOfDay(now) >= cfg.squareOffTime && Serviceable(a.engine, now)
    requires forall k | k in a.positions :: k in quotes && quotes[k] > 0.0
    ensures passed && t.order == a.tracked && Found(t, quotes)
    ensures forall k :: k in b.positions
                        <==> exists i: nat :: i < |t.order| && t.order[i] == k && Unpayable(t, i, quotes)
    ensures forall k | k in b.positions ::
              k in a.positions && b.positions[k] == a.positions[k] && b.positions[k].side.Sell?
  {
    hide ExitStep, TimeOfDay, Serviceable, Unpayable;
    StepsFind(cfg, t, a, b, signals, quotes, now, cycle, passed);
    var n := |t.order|;
    PassUpTo(cfg, t, a, b, signals, quotes, now, cycle, passed, n);
    assert t.order[..n] == t.order;
    forall k | k in b.positions
      ensures exists i: nat :: i < n && t.order[i] == k && Unpayable(t, i, quotes)
      ensures b.positions[k].side.Sell?
    {
      assert k in a.positions && k in a.tracked;
      var i: nat :| i < n && t.order[i] == k;
      PassUpTo(cfg, t, a, b, signals, quotes, now, cycle, passed, i);
      UnpayableIsShort(t, i, quotes);
    }
  }

  lemma UnpayableIsShort(t: Trace<Key>, i: nat, quotes: map<Key, real>)
    requires i < |t.order| < |t.states| && t.order[i] in t.states[i].positions && t.order[i] in quotes
    requires Unpayable(t, i, quotes)
    ensures t.states[i].positions[t.order[i]].side.Sell?
  {
  }
}
