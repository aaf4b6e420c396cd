/** The premium cap over every run, brackets included: what entries, exits and
    legs that fire may do to open options. */
module OptionRuns {
  import opened Domain
  import opened Fifo
  import opened Sums
  import opened Portfolios
  import opened Positions
  import opened Matching
  import opened OrderDesk
  import opened Engine
  import opened Moves
  import opened Lifecycle
  import opened Accounts
  import opened Clock
  import opened Conservation
  import opened Oco
  import opened PricePass
  import opened Locality
  import opened MarketOrders
  import opened Solvency
  import Trailing
  import opened Options
  import opened Commitments

  /** Options are only ever held long. */
  predicate HeldLong(b: Book) {
    forall k | k in b.lots && k.exchange.NFO? :: b.lots[k] != [] && b.lots[k][0].side.Buy?
  }

  /** ... and what they cost is within the cap. */
  ghost predicate BookCapped(b: Book, cap: real) { BookOk(b) && HeldLong(b) && Total(Bases(b)) <= cap }

  ghost predicate OrdersOk(d: Desk) { KnownReservations(d) && GroupsOk(d) && OptionLegsOk(d.orders) }

  /** What resting legs may still sell is open. */
  ghost predicate LegsCovered(d: Desk) {
    forall key: Key | key.exchange.NFO? :: Committed(d.orders, key) <= Shares(d.book.Lots(key)) as real
  }

  ghost predicate Capped(d: Desk, cap: real, t: int) {
    BookCapped(d.book, cap) && OrdersOk(d) && LegsCovered(d) && Current(d.book, t)
  }

  // ---------- Steps that leave option lots alone ----------

  ghost predicate SameOptions(a: Book, b: Book) {
    forall k: Key | k.exchange.NFO? :: b.Lots(k) == a.Lots(k)
  }

  lemma SameOptionsCostTheSame(a: Book, b: Book)
    requires SameOptions(a, b) && BookOk(a) && BookOk(b)
    ensures Total(Bases(b)) == Total(Bases(a))
  {
    hide Total, Bases, OptionBases, BookOk, SameOptions;
    OtherBasesAreZero(a);
    OtherBasesAreZero(b);
    SameOptionBases(a, b);
  }

  lemma SameOptionBases(a: Book, b: Book)
    requires SameOptions(a, b) && BookOk(a) && BookOk(b)
    ensures OptionBases(b) == OptionBases(a)
  {
    hide Fits, Basis;
    forall k: Key | k.exchange.NFO? ensures (k in a.lots <==> k in b.lots) && (k in a.lots ==> a.lots[k] == b.lots[k]) {
      assert b.Lots(k) == a.Lots(k);
    }
  }

  function OptionBases(b: Book): map<Key, real> { map k | k in b.lots && k.exchange.NFO? :: Basis(b.lots[k]) }

  lemma OtherBasesAreZero(b: Book)
    ensures Total(Bases(b)) == Total(OptionBases(b))
  {
    DropZeros(Bases(b), OptionBases(b));
  }

  lemma {:induction false} DropZeros(m: map<Key, real>, n: map<Key, real>)
    requires n.Keys <= m.Keys && forall k | k in m :: m[k] == if k in n then n[k] else 0.0
    ensures Total(m) == Total(n)
    decreases |m|
  {
    if k :| k in m && k !in n {
      TotalWithout(m, k);
      Smaller(m, k);
      DropZeros(m - {k}, n);
    } else {
      assert m == n;
    }
  }

  /** A step that leaves option lots alone, and option orders dwindling. */
  lemma QuietStepKeepsCap(d: Desk, e: Desk, cap: real, t: int, now: int)
    requires Capped(d, cap, t) && BookOk(e.book) && Current(e.book, now) && SameOptions(d.book, e.book)
    requires KnownReservations(e) && GroupsOk(e) && Dwindles(d.orders, e.orders)
    ensures Capped(e, cap, now)
  {
    hide BookOk, Current, KnownReservations, GroupsOk, Dwindles, Committed, Total, OptionLegsOk, Shares, HeldLong;
    SameOptionsCostTheSame(d.book, e.book);
    DwindlingKeepsLegs(d, e);
    SameOptionsStayLong(d.book, e.book);
    forall key: Key | key.exchange.NFO? ensures Committed(e.orders, key) <= Shares(e.book.Lots(key)) as real {
      CommittedDwindles(d, e, key);
    }
  }

  lemma SameOptionsStayLong(a: Book, b: Book)
    requires SameOptions(a, b) && BookOk(a) && BookOk(b) && HeldLong(a)
    ensures HeldLong(b)
  {
    forall k | k in b.lots && k.exchange.NFO? ensures b.lots[k] != [] && b.lots[k][0].side.Buy? {
      assert b.Lots(k) == a.Lots(k);
    }
  }

  // ---------- Option fills ----------

  /** A BUY on a long or flat option adds its cost; a SELL of no more than is open
      only takes away; and open quantity moves by the fill's. */
  lemma OptionFill(b: Book, cap: real, key: Key, side: Side, quantity: int, price: real, id: nat, now: int)
    requires BookCapped(b, cap) && key.exchange.NFO? && quantity > 0 && price > 0.0
    requires side.Buy? ==> Total(Bases(b)) + Cost(quantity, price) <= cap
    requires side.Sell? ==> quantity <= Shares(b.Lots(key))
    ensures var f := Filled(b, key, side, quantity, price, id, now).book;
            && BookCapped(f, cap)
            && Shares(f.Lots(key)) == Shares(b.Lots(key)) + (if side.Buy? then quantity else -quantity)
            && forall k: Key | k != key :: f.Lots(k) == b.Lots(k)
  {
    hide Filled, Total, Cost, Basis, QueueAfter, ClosedBy, Fits, Bases;
    var f := Filled(b, key, side, quantity, price, id, now).book;
    var queue := QueueAfter(b.Lots(key), side, quantity, price, id, now);
    FillIsOk(b, key, side, quantity, price, id, now);
    FillMovesQueue(b.Lots(key), side, quantity, price, id, now);
    LongFill(b.Lots(key), side, quantity, price, id, now);
    BasesMove(b, f, key);
    NetOfLong(b.Lots(key));
    NetOfLong(queue);
    forall k: Key | k != key ensures f.Lots(k) == b.Lots(k) {
      LotsElsewhere(b, f, key, k);
    }
    assert forall k | k in f.lots && k.exchange.NFO? :: f.Lots(k) == f.lots[k];
  }

  lemma NetOfLong(lots: seq<Lot>)
    requires OneSided(lots, Buy)
    ensures Net(lots) == Shares(lots)
  {
  }

  /** Among several commitments none exceeds their sum. */
  lemma CommitmentIsPart(orders: seq<Order>, key: Key, p: nat)
    requires p in Held(orders, key)
    ensures orders[p].quantity as real <= Committed(orders, key)
  {
    var m := Held(orders, key);
    TotalWithout(m, p);
    TotalOfFewer(m - {p}, map[]);
  }

  // ---------- A leg fires ----------

  /** A firing option leg can always be settled: it sells what is open, and its sibling holds nothing. */
  lemma LegSettles(d: Desk, cap: real, id: nat, price: real, now: int)
    requires Capped(d, cap, now) && Fires(d, id, price, now) && d.orders[id].key.exchange.NFO?
    ensures d.orders[id].side.Sell? && d.orders[id].parent.Some?
    ensures d.orders[id].quantity <= Shares(d.book.Lots(d.orders[id].key))
    ensures Pays(d, id, price, now) && Exchanging(d, id, price, now).error.None?
  {
    hide BookCapped, Committed, Total, Held, Current, Decide, PairOk;
    var o := d.orders[id];
    assert OptionLegOk(d.orders, id) && LegOk(d.orders, d.groups, id);
    var p := o.parent.value;
    assert HasRestingLeg(d.orders, p);
    assert p in Held(d.orders, o.key) by { HeldHas(d.orders, id, p); }
    CommitmentIsPart(d.orders, o.key, p);
    LegPays(d, id, price, now);
    hide LegOk;
    assert SiblingsReleasable(d, id) by { OptionSiblingsHoldNothing(d, id); }
    FillRaisesExactly(d, id, price, now);
  }

  lemma HeldHas(orders: seq<Order>, id: nat, p: nat)
    requires id < |orders| && p < |orders| && orders[id].Resting() && orders[id].parent == Some(p)
    requires orders[p].key == orders[id].key
    ensures p in Held(orders, orders[id].key)
  {
    assert HasRestingLeg(orders, p);
  }

  lemma LegPays(d: Desk, id: nat, price: real, now: int)
    requires KnownReservations(d) && Current(d.book, now) && Fires(d, id, price, now) && d.orders[id].side.Sell?
    ensures Pays(d, id, price, now)
  {
    hide Current, Unrecordable, Decide;
    var o := Fired(d, id, price, now);
    assert id !in d.reservations;
    FiringKeepsTerms(d, id, price, now);
    CostIsPositive(o.quantity, price);
    CurrentIsRecordable(d.book, o, price, now);
  }

  lemma OptionSiblingsHoldNothing(d: Desk, id: nat)
    requires OrdersOk(d) && id < |d.orders| && d.orders[id].key.exchange.NFO?
    ensures SiblingsReleasable(d, id)
  {
    forall j: nat | j < |d.orders| && Siblings(d.orders, id, j) && d.orders[j].Resting()
      ensures j !in d.reservations
    {
      assert PairOk(d.orders, id, j) && LegOk(d.orders, d.groups, id) && LegOk(d.orders, d.groups, j);
      assert OptionLegOk(d.orders, j);
    }
  }

  /** After a leg has fired no leg of its entry rests. */
  lemma EntryIsFree(d: Desk, id: nat, price: real, now: int)
    requires OrdersOk(d) && Pays(d, id, price, now) && d.orders[id].key.exchange.NFO? && d.orders[id].parent.Some?
    requires Exchanging(d, id, price, now).error.None?
    ensures !HasRestingLeg(Exchanging(d, id, price, now).desk.orders, d.orders[id].parent.value)
  {
    hide SiblingsCancelled, Exchanging, Filling, Unrecordable, Decide;
    var p, group := d.orders[id].parent.value, d.orders[id].ocoGroup;
    var x := Filling(d, id, price, now).desk;
    var e := Exchanging(d, id, price, now).desk;
    FillingIsTrade(d, id, price, now);
    FiredRests(d, id, price, now);
    FillingCompletes(d, id, price, now);
    TradeEvolves(d, id, price, now);
    SiblingsAreCleared(x, id, group, 0, now);
    forall j | 0 <= j < |e.orders| && e.orders[j].parent == Some(p) ensures !e.orders[j].Resting() {
      assert Evolved(d.orders[j], e.orders[j]);
      assert OneGroup(d.orders, id, j);
      if j != id { assert x.orders[j].ocoGroup == group; }
    }
  }

  lemma FiredRests(d: Desk, id: nat, price: real, now: int)
    requires Pays(d, id, price, now)
    ensures id < |d.orders| && d.orders[id].Resting()
  {
  }

  /** A firing leg keeps the cap: it sells at most its entry's quantity, which is no longer committed. */
  lemma FiringKeepsCap(d: Desk, cap: real, id: nat, price: real, now: int)
    requires Capped(d, cap, now) && Fires(d, id, price, now) && d.orders[id].key.exchange.NFO?
    ensures Pays(d, id, price, now) && Exchanging(d, id, price, now).error.None?
    ensures Capped(Exchanging(d, id, price, now).desk, cap, now)
  {
    hide BookCapped, Committed, Total, Current, Decide, Exchanging, Filling, OptionLegsOk, GroupsOk,
         KnownReservations, Shares, Unrecordable;
    var o := d.orders[id];
    LegSettles(d, cap, id, price, now);
    var e := Exchanging(d, id, price, now).desk;
    FiringSells(d, cap, id, price, now);
    FiringDwindles(d, id, price, now);
    FiringKeepsGroups(d, id, price, now);
    DwindlingKeepsLegs(d, e);
    forall key: Key | key.exchange.NFO? ensures Committed(e.orders, key) <= Shares(e.book.Lots(key)) as real {
      if key == o.key { FiringUncommits(d, id, price, now); } else { CommittedDwindles(d, e, key); }
    }
  }

  lemma FiringSells(d: Desk, cap: real, id: nat, price: real, now: int)
    requires Pays(d, id, price, now) && d.orders[id].key.exchange.NFO? && d.orders[id].side.Sell?
    requires BookCapped(d.book, cap) && d.orders[id].quantity <= Shares(d.book.Lots(d.orders[id].key))
    ensures var (o, e) := (d.orders[id], Exchanging(d, id, price, now).desk);
            && BookCapped(e.book, cap)
            && Shares(e.book.Lots(o.key)) == Shares(d.book.Lots(o.key)) - o.quantity
            && forall k: Key | k != o.key :: e.book.Lots(k) == d.book.Lots(k)
  {
    hide BookCapped, Total, Decide, Exchanging, SiblingsCancelled, Filled, TradesOf, Unrecordable, Shares, Paid;
    var o := Moves.Fired(d, id, price, now);
    FiringKeepsTerms(d, id, price, now);
    FiringKeepsKey(d, id, price, now);
    UnreservingKeepsMoney(d, id);
    OptionFill(d.book, cap, o.key, Sell, o.quantity, price, id, now);
    FillingIsTrade(d, id, price, now);
    SiblingsKeepMoney(Filling(d, id, price, now).desk, id, d.orders[id].ocoGroup, 0, now);
  }

  lemma FiringKeepsKey(d: Desk, id: nat, price: real, now: int)
    requires Fires(d, id, price, now)
    ensures Moves.Fired(d, id, price, now).key == d.orders[id].key
  {
  }

  lemma FiringDwindles(d: Desk, id: nat, price: real, now: int)
    requires Pays(d, id, price, now) && Exchanging(d, id, price, now).error.None?
    ensures Dwindles(d.orders, Exchanging(d, id, price, now).desk.orders)
  {
    hide Exchanging, Decide, Unrecordable, Evolved;
    TradeEvolves(d, id, price, now);
    ExchangeOnlyDrops(d, id, price, now);
  }

  lemma FiringKeepsGroups(d: Desk, id: nat, price: real, now: int)
    requires Pays(d, id, price, now) && Exchanging(d, id, price, now).error.None?
    requires GroupsOk(d) && KnownReservations(d) && Current(d.book, now)
    ensures var e := Exchanging(d, id, price, now).desk; GroupsOk(e) && KnownReservations(e) && Current(e.book, now)
  {
    hide Exchanging, Pays, GroupsOk, KnownReservations, Current;
    var mv := Trade(id, price, now);
    assert Enabled(d, mv);
    MoveKeepsGroups(d, mv);
    MoveKeepsKnown(d, mv);
    MoveKeepsCurrent(d, mv);
  }

  /** What the fired leg's entry held is no longer committed. */
  lemma FiringUncommits(d: Desk, id: nat, price: real, now: int)
    requires OrdersOk(d) && Pays(d, id, price, now) && Exchanging(d, id, price, now).error.None?
    requires d.orders[id].key.exchange.NFO?
    ensures Committed(Exchanging(d, id, price, now).desk.orders, d.orders[id].key)
            <= Committed(d.orders, d.orders[id].key) - d.orders[id].quantity as real
  {
    hide Exchanging, Decide, Unrecordable, KnownReservations, Total, Dwindles, Held, Filling;
    var (o, e) := (d.orders[id], Exchanging(d, id, price, now).desk);
    assert OptionLegOk(d.orders, id) && LegOk(d.orders, d.groups, id);
    var p := o.parent.value;
    FiringDwindles(d, id, price, now);
    MoveKeepsGroups(d, Trade(id, price, now));
    EntryIsFree(d, id, price, now);
    HeldHas(d.orders, id, p);
    UncommittedOne(d, e, o.key, p);
  }

  lemma UncommittedOne(d: Desk, e: Desk, key: Key, p: nat)
    requires GroupsOk(d) && GroupsOk(e) && Dwindles(d.orders, e.orders) && key.exchange.NFO?
    requires p in Held(d.orders, key) && !HasRestingLeg(e.orders, p)
    ensures Committed(e.orders, key) <= Committed(d.orders, key) - d.orders[p].quantity as real
  {
    hide Dwindles, GroupsOk;
    var m, n := Held(d.orders, key), Held(e.orders, key);
    forall k | k in n ensures k in m && n[k] == m[k] {
      EntryIsFixed(d, e, key, k);
    }
    TotalWithout(m, p);
    TotalOfFewer(m - {p}, n);
  }

  lemma LegEvaluationKeepsCap(d: Desk, cap: real, id: nat, price: real, now: int)
    requires Capped(d, cap, now) && Rests(d, id) && price > 0.0 && d.orders[id].key.exchange.NFO?
    ensures var s := Evaluated(d, id, price, now);
            s.error.None? && Capped(s.desk, cap, now) && Evolves(d.orders, s.desk.orders)
  {
    hide Capped, Exchanged, Evolves, Current;
    EvaluationEvolves(d, id, price, now);
    if Decide(d.orders[id], price, now).Rest? {
      LookingKeepsCap(d, cap, id, price, now);
    } else {
      FiringKeepsCap(d, cap, id, price, now);
      FiringOfALeg(d, cap, id, price, now);
    }
  }

  /** A leg gets no legs of its own. */
  lemma FiringOfALeg(d: Desk, cap: real, id: nat, price: real, now: int)
    requires Capped(d, cap, now) && Fires(d, id, price, now) && d.orders[id].key.exchange.NFO?
    ensures Evaluated(d, id, price, now) == Exchanging(d, id, price, now)
  {
    hide Exchanged, BookCapped, Current, KnownReservations, GroupsOk, LegsCovered;
    assert OptionLegOk(d.orders, id);
    CompletingEvolves(d, id, price, now);
  }

  lemma LookingKeepsCap(d: Desk, cap: real, id: nat, price: real, now: int)
    requires Capped(d, cap, now) && Rests(d, id) && price > 0.0
    ensures Capped(Stored(d, id, Decide(d.orders[id], price, now).order), cap, now)
  {
    hide Total, Committed, Held, OptionLegsOk, GroupsOk, KnownReservations, Current, BookOk;
    var mv := Look(id, price, now);
    var e := Do(d, mv);
    LookingFillsNothing(d, id, price, now);
    MoveKeepsGroups(d, mv);
    MoveKeepsKnown(d, mv);
    assert SameOptions(d.book, e.book);
    QuietStepKeepsCap(d, e, cap, now, now);
  }

  /** A price pass over an option fires its legs one after the other, and never raises. */
  lemma {:induction false} OptionPassKeepsCap(d: Desk, cap: real, ids: seq<nat>, key: Key, price: real, now: int)
    requires Capped(d, cap, now) && price > 0.0 && key.exchange.NFO?
    requires forall i | 0 <= i < |ids| :: ids[i] < |d.orders| && d.orders[ids[i]].key == key
    ensures var s := Passed(d, ids, price, now); s.error.None? && Capped(s.desk, cap, now)
    decreases |ids|
  {
    hide Capped, Evaluated;
    if ids != [] {
      if !d.orders[ids[0]].Resting() {
        OptionPassKeepsCap(d, cap, ids[1..], key, price, now);
      } else {
        LegEvaluationKeepsCap(d, cap, ids[0], price, now);
        var e := Evaluated(d, ids[0], price, now).desk;
        forall i | 0 <= i < |ids| ensures ids[i] < |e.orders| && e.orders[ids[i]].key == key {
          assert Evolved(d.orders[ids[i]], e.orders[ids[i]]);
        }
        OptionPassKeepsCap(e, cap, ids[1..], key, price, now);
      }
    }
  }

  // ---------- Entries and exits ----------

  /** A bracketed BUY adds what it costs, and its legs sell no more than it bought. */
  lemma BuyingKeepsCap(d: Desk, cap: real, req: PaperOrderRequest, price: real, now: int)
    requires Capped(d, cap, now) && price > 0.0 && req.Valid() && req.orderType.Market? && req.side.Buy?
    requires req.key.exchange.NFO? && Total(Bases(d.book)) + Cost(req.quantity, price) <= cap
    ensures Capped(Placed(d, req, price, now).desk, cap, now)
  {
    hide Placed, Total, Current, BookCapped, Bases, Cost, KnownReservations, LegsCovered, OptionLegsOk,
         GroupsOk, Filled, BracketSpawned;
    MarketSettlement(d, req, price, now);
    if Affordable(d.ledger, req.side, Cost(req.quantity, price)) {
      var m := MarketFilled(d, req, price, now);
      BuyingFills(d, cap, req, price, now);
      SpawnedKeepsCap(d, m, cap, now);
    } else {
      RejectionKeepsCap(d, cap, OrderFor(req, price, now), now);
    }
  }

  lemma RejectionKeepsCap(d: Desk, cap: real, o: Order, now: int)
    requires Capped(d, cap, now) && o.Resting() && o.parent.None?
    ensures Capped(d.(orders := d.orders + [Dropped(o, Rejected, now)]), cap, now)
  {
    hide Total, Committed, Held, OptionLegsOk, Current, BookOk, GroupsOk;
    var e := d.(orders := d.orders + [Dropped(o, Rejected, now)]);
    JoiningSettled(d, Dropped(o, Rejected, now));
    assert SameOptions(d.book, e.book);
    QuietStepKeepsCap(d, e, cap, now, now);
  }

  /** A settled order that is no leg joins. */
  lemma JoiningSettled(d: Desk, o: Order)
    requires GroupsOk(d) && !o.Resting() && o.parent.None?
    ensures var e := d.(orders := d.orders + [o]);
            Evolves(d.orders, e.orders) && Dwindles(d.orders, e.orders) && GroupsOk(e)
            && (KnownReservations(d) ==> KnownReservations(e))
  {
    var e := d.(orders := d.orders + [o]);
    EvolvingKeepsGroups(d, e);
  }

  /** The desk after the fill of an option BUY, before its legs join. */
  ghost predicate Filledup(d: Desk, m: Desk, cap: real, now: int) {
    var n := |d.orders|;
    && BookCapped(m.book, cap) && Current(m.book, now) && KnownReservations(m) && GroupsOk(m)
    && Dwindles(d.orders, m.orders) && |m.orders| == n + 1 && m.orders[..n] == d.orders
    && m.orders[n].status.Complete? && m.orders[n].parent.None? && m.orders[n].side.Buy?
    && m.orders[n].key.exchange.NFO?
    && Shares(m.book.Lots(m.orders[n].key)) == Shares(d.book.Lots(m.orders[n].key)) + m.orders[n].quantity
    && forall k: Key | k != m.orders[n].key :: m.book.Lots(k) == d.book.Lots(k)
  }

  lemma BuyingFills(d: Desk, cap: real, req: PaperOrderRequest, price: real, now: int)
    requires Capped(d, cap, now) && price > 0.0 && req.Valid() && req.orderType.Market? && req.side.Buy?
    requires req.key.exchange.NFO? && Total(Bases(d.book)) + Cost(req.quantity, price) <= cap
    ensures Filledup(d, MarketFilled(d, req, price, now), cap, now)
  {
    hide Total, Current, BookCapped, Bases, Cost, LegsCovered, OptionLegsOk, GroupsOk, Filled, Dwindles, TotalPnl,
         Shares;
    var m, n := MarketFilled(d, req, price, now), |d.orders|;
    OptionFill(d.book, cap, req.key, Buy, req.quantity, price, n, now);
    FillKeepsCurrent(d.book, req.key, Buy, req.quantity, price, n, now);
    JoiningSettled(d, Completed(OrderFor(req, price, now), price, now));
    GroupsOfOrders(d.(orders := m.orders), m);
  }

  lemma GroupsOfOrders(d: Desk, e: Desk)
    requires GroupsOk(d) && e.orders == d.orders && e.groups == d.groups
    ensures GroupsOk(e)
  {
  }

  /** `e` adds to `m` fresh legs of its last order, each of that order's whole quantity. */
  ghost predicate LegsJoined(m: Desk, e: Desk, n: nat)
    requires n < |m.orders|
  {
    && m.orders <= e.orders && e.book == m.book
    && forall k | |m.orders| <= k < |e.orders| ::
         && FreshLeg(e.orders[k], m.orders[n], n, m.groups) && e.orders[k].quantity == m.orders[n].quantity
  }

  lemma SpawningJoinsLegs(m: Desk, n: nat, now: int)
    requires n < |m.orders| && m.orders[n].status.Complete? && GroupsOk(m)
    ensures LegsJoined(m, BracketSpawned(m, m.orders[n], n, now), n)
  {
    hide BracketSpawned, GroupsOk;
    SpawnKeepsGroups(m, n, now);
    LegsStraddleTheFill(m, m.orders[n], n, now);
    SpawningKeepsMoney(m, m.orders[n], n, now);
  }

  lemma SpawnedKeepsCap(d: Desk, m: Desk, cap: real, now: int)
    requires Capped(d, cap, now) && Filledup(d, m, cap, now)
    ensures var n := |d.orders|; Capped(BracketSpawned(m, m.orders[n], n, now), cap, now)
  {
    hide BracketSpawned, BookCapped, Current, KnownReservations, GroupsOk, OptionLegsOk, Dwindles, LegsJoined,
         Committed, Shares;
    var n := |d.orders|;
    var e := BracketSpawned(m, m.orders[n], n, now);
    SpawningJoinsLegs(m, n, now);
    SpawnKeepsGroups(m, n, now);
    SpawningKeepsKnown(m, m.orders[n], n, now);
    assert e.book == m.book by { SpawningKeepsMoney(m, m.orders[n], n, now); }
    JoinedLegsAreOk(d, m, e, cap, now);
    forall key: Key | key.exchange.NFO? ensures Committed(e.orders, key) <= Shares(e.book.Lots(key)) as real {
      JoinedCommitments(d, m, e, key, cap, now);
    }
  }

  lemma JoinedLegsAreOk(d: Desk, m: Desk, e: Desk, cap: real, now: int)
    requires OptionLegsOk(d.orders) && Filledup(d, m, cap, now) && LegsJoined(m, e, |d.orders|) && GroupsOk(e)
    ensures OptionLegsOk(e.orders)
  {
    hide BookCapped, Current, KnownReservations, Dwindles, PairOk;
    var n := |d.orders|;
    forall i: nat | i < n ensures e.orders[i] == d.orders[i] {
      assert m.orders[..n][i] == d.orders[i];
    }
    forall i: nat | i < |e.orders| ensures OptionLegOk(e.orders, i) {
      if i < n {
        assert OptionLegOk(d.orders, i) && LegOk(e.orders, e.groups, i);
      }
    }
    forall i: nat, j: nat | i < |e.orders| && j < |e.orders| ensures OneGroup(e.orders, i, j) {
      assert LegOk(e.orders, e.groups, i) && LegOk(e.orders, e.groups, j);
      if i < n && j < n { assert OneGroup(d.orders, i, j); }
    }
  }

  lemma JoinedCommitments(d: Desk, m: Desk, e: Desk, key: Key, cap: real, now: int)
    requires Filledup(d, m, cap, now) && LegsJoined(m, e, |d.orders|) && GroupsOk(e)
    ensures Committed(e.orders, key)
            <= Committed(d.orders, key) + if key == m.orders[|d.orders|].key then m.orders[|d.orders|].quantity as real
                                         else 0.0
  {
    hide BookCapped, Current, KnownReservations, Dwindles, PairOk, Committed;
    var n := |d.orders|;
    assert forall i | 0 <= i < n :: m.orders[..n][i] == d.orders[i];
    forall i: nat | i < |e.orders| && e.orders[i].parent.Some? ensures e.orders[i].parent.value < i {
      assert LegOk(e.orders, e.groups, i);
    }
    CommittedOfJoined(d.orders, e.orders, key);
  }

  /** Where an order and then only its legs join, it alone adds to what is committed. */
  lemma CommittedOfJoined(a: seq<Order>, b: seq<Order>, key: Key)
    requires |a| < |b| && forall i | 0 <= i < |a| :: b[i] == a[i]
    requires forall i: nat | i < |b| && b[i].parent.Some? :: b[i].parent.value < i
    requires b[|a|].parent.None? && forall i | |a| < i < |b| :: b[i].parent == Some(|a|)
    ensures Committed(b, key)
            <= Committed(a, key) + if key == b[|a|].key then b[|a|].quantity as real else 0.0
  {
    hide Total, Held;
    var n: nat := |a|;
    var held, after := Held(a, key), Held(b, key);
    var bound := if key == b[n].key then held[n := b[n].quantity as real] else held;
    forall p | p in after ensures p in bound && after[p] == bound[p] {
      HeldOfJoined(a, b, key, p);
    }
    HeldIsPositive(a, key);
    TotalOfFewer(bound, after);
    TotalAfter(held, bound, n);
  }

  lemma HeldIsPositive(a: seq<Order>, key: Key)
    ensures forall p | p in Held(a, key) :: p < |a| && Held(a, key)[p] >= 0.0
  {
  }

  lemma HeldOfJoined(a: seq<Order>, b: seq<Order>, key: Key, p: nat)
    requires |a| < |b| && forall i | 0 <= i < |a| :: b[i] == a[i]
    requires forall i: nat | i < |b| && b[i].parent.Some? :: b[i].parent.value < i
    requires b[|a|].parent.None? && forall i | |a| < i < |b| :: b[i].parent == Some(|a|)
    requires p in Held(b, key)
    ensures if p == |a| then b[p].key == key && Held(b, key)[p] == b[p].quantity as real
            else p in Held(a, key) && Held(a, key)[p] == Held(b, key)[p]
  {
    var i :| 0 <= i < |b| && b[i].Resting() && b[i].parent == Some(p);
    if i < |a| { assert HasRestingLeg(a, p); }
  }

  /** An exit sells what no leg is committed to. */
  lemma SellingKeepsCap(d: Desk, cap: real, key: Key, quantity: int, price: real, now: int)
    requires Capped(d, cap, now) && price > 0.0 && quantity > 0 && key.exchange.NFO?
    requires Committed(d.orders, key) + quantity as real <= Shares(d.book.Lots(key)) as real
    ensures Capped(Placed(d, MarketRequest(key, Sell, quantity), price, now).desk, cap, now)
  {
    hide Placed, Total, Current, BookCapped, Bases, Cost, OptionLegsOk, GroupsOk, Filled, BracketSpawned, Committed,
         Shares, Dwindles;
    var req := MarketRequest(key, Sell, quantity);
    var n := |d.orders|;
    var e := MarketFilled(d, req, price, now);
    MarketSettlement(d, req, price, now);
    NothingToSpawn(e, Completed(OrderFor(req, price, now), price, now), n, now);
    CommittedIsNonNegative(d.orders, key);
    OptionFill(d.book, cap, key, Sell, quantity, price, n, now);
    FillKeepsCurrent(d.book, key, Sell, quantity, price, n, now);
    var o := Completed(OrderFor(req, price, now), price, now);
    JoiningSettled(d, o);
    GroupsOfOrders(d.(orders := d.orders + [o]), e);
    DwindlingKeepsLegs(d, e);
    forall k: Key | k.exchange.NFO? ensures Committed(e.orders, k) <= Shares(e.book.Lots(k)) as real {
      CommittedDwindles(d, e, k);
    }
  }

  lemma NothingToSpawn(d: Desk, o: Order, id: nat, now: int)
    requires o.averageFillPrice.Some? && o.stopLoss.None? && o.target.None?
    ensures BracketSpawned(d, o, id, now) == d
  {
  }

  lemma CommittedIsNonNegative(orders: seq<Order>, key: Key)
    ensures Committed(orders, key) >= 0.0
  {
    TotalOfFewer(Held(orders, key), map[]);
  }

  lemma OpenIsShares(b: Book, cap: real)
    requires BookCapped(b, cap)
    ensures forall key: Key | key.exchange.NFO? :: OpenQuantity(b, key) == Shares(b.Lots(key))
  {
    forall key: Key | key.exchange.NFO? ensures OpenQuantity(b, key) == Shares(b.Lots(key)) {
      OpenIsNet(b, key);
      NetOfLong(b.Lots(key));
    }
  }

  lemma OpenIsNet(b: Book, key: Key)
    requires BookOk(b)
    ensures OpenQuantity(b, key) == Net(b.Lots(key))
  {
  }

  lemma EntryKeepsCap(e: Engine, r: OptionRisk, lim: Limits, a: Entry, now: int)
    requires Capped(e.desk, lim.maxExposure, now)
    ensures Capped(OptionEntered(e, r, lim, a, now).engine.desk, lim.maxExposure, now)
  {
    hide Capped, Placed, Exposure, Total;
    var s := OptionEntered(e, r, lim, a, now);
    if s.engine != e {
      var quantity := a.lots * a.lotSize.value;
      var req := EntryRequest(a, quantity);
      PlacingIsPlaced(e, req, a.quote.value, now);
      if a.quote.value > 0.0 {
        ExposureOfCapped(e.desk, lim.maxExposure, now);
        BuyingKeepsCap(e.desk, lim.maxExposure, req, a.quote.value, now);
      } else {
        NonPositivePrice(e.desk, req, a.quote.value, now);
      }
    }
  }

  lemma ExposureOfCapped(d: Desk, cap: real, t: int)
    requires Capped(d, cap, t)
    ensures Exposure(d.book) == Total(Bases(d.book))
  {
    hide Exposure, Total;
    ExposureIsBasis(d.book);
  }

  /** The shares an exit asks to sell. */
  function ExitSize(d: Desk, x: Exit): int { x.quantity.GetOr(Magnitude(OpenQuantity(d.book, Key(NFO, x.symbol)))) }

  /** What is open covers the exit and everything the resting legs may still
      sell; an exit of more than is open is refused anyway. */
  ghost predicate ExitCovered(d: Desk, x: Exit) {
    var key := Key(NFO, x.symbol);
    ExitSize(d, x) <= OpenQuantity(d.book, key) ==>
      Committed(d.orders, key) + ExitSize(d, x) as real <= OpenQuantity(d.book, key) as real
  }

  lemma ExitKeepsCap(e: Engine, r: OptionRisk, cap: real, x: Exit, now: int)
    requires Capped(e.desk, cap, now) && ExitCovered(e.desk, x)
    ensures Capped(OptionLeft(e, r, x, now).engine.desk, cap, now)
  {
    hide OrdersOk, LegsCovered, Current, Placed, Committed, BookCapped, Shares, CanSnapshot;
    var s := OptionLeft(e, r, x, now);
    if s.engine != e {
      var key := Key(NFO, x.symbol);
      OpenIsShares(e.desk.book, cap);
      SharesAreOpen(e.desk.book.Lots(key));
      var req := MarketRequest(key, Sell, ExitSize(e.desk, x));
      PlacingIsPlaced(e, req, x.quote.value, now);
      if x.quote.value > 0.0 {
        SellingKeepsCap(e.desk, cap, key, ExitSize(e.desk, x), x.quote.value, now);
      } else {
        NonPositivePrice(e.desk, req, x.quote.value, now);
      }
    }
  }

  lemma SharesAreOpen(lots: seq<Lot>)
    ensures Shares(lots) >= 0
  {
  }

  /** A settled order that is no leg commits nothing. */
  lemma CommittedOfSettled(d: Desk, o: Order, key: Key)
    requires GroupsOk(d) && !o.Resting() && o.parent.None?
    ensures Committed(d.orders + [o], key) == Committed(d.orders, key)
  {
    hide Total;
    var a, b := d.orders, d.orders + [o];
    forall p: nat ensures p in Held(b, key) <==> p in Held(a, key) {
      if p in Held(b, key) {
        var i :| 0 <= i < |b| && b[i].Resting() && b[i].parent == Some(p);
        assert LegOk(a, d.groups, i) && b[i] == a[i];
        assert HasRestingLeg(a, p);
      }
      if p in Held(a, key) {
        var i :| 0 <= i < |a| && a[i].Resting() && a[i].parent == Some(p);
        assert b[i] == a[i] && HasRestingLeg(b, p);
      }
    }
    assert Held(b, key) == Held(a, key);
  }

  /** The condition is exact, exit by exit: an exit that goes through leaves the
      resting legs covered if and only if what was open covered both. */
  lemma ExitKeepsLegsCoveredExactly(e: Engine, r: OptionRisk, cap: real, x: Exit, now: int)
    requires Capped(e.desk, cap, now) && OptionLeft(e, r, x, now).error.None?
    ensures LegsCovered(OptionLeft(e, r, x, now).engine.desk) <==> ExitCovered(e.desk, x)
  {
    hide OrdersOk, Current, Placed, Committed, BookCapped, Shares, CanSnapshot, LegsCovered;
    var (key, q, d) := (Key(NFO, x.symbol), ExitSize(e.desk, x), e.desk);
    OpenIsShares(d.book, cap);
    SharesAreOpen(d.book.Lots(key));
    var f := OptionLeft(e, r, x, now).engine.desk;
    var req := MarketRequest(key, Sell, q);
    PlacingIsPlaced(e, req, x.quote.value, now);
    if x.quote.value <= 0.0 { NonPositivePrice(d, req, x.quote.value, now); }
    ExitSells(d, cap, key, q, x.quote.value, now);
    if ExitCovered(d, x) {
      SellingKeepsCap(d, cap, key, q, x.quote.value, now);
    } else {
      assert !LegsCovered(f) by { LegsUncovered(f, key); }
    }
  }

  lemma LegsUncovered(d: Desk, key: Key)
    requires key.exchange.NFO? && Committed(d.orders, key) > Shares(d.book.Lots(key)) as real
    ensures !LegsCovered(d)
  {
  }

  lemma ExitSells(d: Desk, cap: real, key: Key, quantity: int, price: real, now: int)
    requires Capped(d, cap, now) && price > 0.0 && 0 < quantity <= Shares(d.book.Lots(key)) && key.exchange.NFO?
    ensures var f := Placed(d, MarketRequest(key, Sell, quantity), price, now).desk;
            && Shares(f.book.Lots(key)) == Shares(d.book.Lots(key)) - quantity
            && Committed(f.orders, key) == Committed(d.orders, key)
  {
    hide Placed, Total, Current, BookCapped, Bases, Cost, OptionLegsOk, GroupsOk, Filled, BracketSpawned, Committed,
         Shares, LegsCovered;
    var req := MarketRequest(key, Sell, quantity);
    var o := Completed(OrderFor(req, price, now), price, now);
    MarketSettlement(d, req, price, now);
    NothingToSpawn(MarketFilled(d, req, price, now), o, |d.orders|, now);
    OptionFill(d.book, cap, key, Sell, quantity, price, |d.orders|, now);
    CommittedOfSettled(d, o, key);
  }

  /** A SELL that fires changes what is open by its quantity; so from a long or
      flat position it leaves the position long or flat if and only if no more
      than that was open. */
  lemma FiredSellStaysLongExactly(d: Desk, id: nat, price: real, now: int)
    requires BookOk(d.book) && Pays(d, id, price, now) && d.orders[id].side.Sell?
    ensures var (o, f) := (d.orders[id], Exchanging(d, id, price, now).desk);
            && BookOk(f.book) && OpenQuantity(f.book, o.key) == OpenQuantity(d.book, o.key) - o.quantity
            && (OpenQuantity(f.book, o.key) >= 0 <==> o.quantity <= OpenQuantity(d.book, o.key))
  {
    hide Decide, Exchanging, SiblingsCancelled, Filled, TradesOf, Unrecordable, Net, Paid, BookOk, OpenQuantity,
         QueueAfter;
    var o := Moves.Fired(d, id, price, now);
    FiringKeepsTerms(d, id, price, now);
    FiringKeepsKey(d, id, price, now);
    UnreservingKeepsMoney(d, id);
    FillIsOk(d.book, o.key, o.side, o.quantity, price, id, now);
    LotsOfOk(d.book, o.key);
    FillMovesQueue(d.book.Lots(o.key), o.side, o.quantity, price, id, now);
    var x := Filling(d, id, price, now).desk;
    FillingIsTrade(d, id, price, now);
    SiblingsKeepMoney(x, id, d.orders[id].ocoGroup, 0, now);
    OpenIsNet(d.book, o.key);
    OpenIsNet(x.book, o.key);
  }

  lemma LotsOfOk(b: Book, key: Key)
    requires BookOk(b)
    ensures b.Lots(key) != [] ==> QueueOk(b.Lots(key))
  {
  }

  // ---------- Any other call ----------

  predicate NotAnOption(op: Op) { op.Place? ==> !op.req.key.exchange.NFO? }

  /** A modification does not enlarge a resting option order. */
  predicate EnlargesNoOption(d: Desk, op: Op) {
    op.Modify? && Rests(d, op.m.orderId) && d.orders[op.m.orderId].key.exchange.NFO? && op.m.quantity.Some? ==>
      op.m.quantity.value <= d.orders[op.m.orderId].quantity
  }

  lemma LocalKeepsOptions(d: Desk, f: Desk, key: Key)
    requires LocalTo(d, f, key) && !key.exchange.NFO?
    ensures SameOptions(d.book, f.book)
  {
    forall k: Key | k.exchange.NFO? ensures f.book.Lots(k) == d.book.Lots(k) {
      LotsElsewhere(d.book, f.book, key, k);
    }
  }

  lemma PlacingElsewhere(d: Desk, cap: real, req: PaperOrderRequest, price: real, now: int)
    requires req.Valid() && Capped(d, cap, now) && !req.key.exchange.NFO?
    ensures var f := Placed(d, req, price, now).desk;
            BookOk(f.book) && SameOptions(d.book, f.book) && Dwindles(d.orders, f.orders)
  {
    hide Placed, Total, Current, OrdersOk, LegsCovered, LocalTo, SameOptions;
    var f := Placed(d, req, price, now).desk;
    PlacementIsLocal(d, req, price, now);
    LocalKeepsOptions(d, f, req.key);
    LocalBook(d, f, req.key);
    LocalOrders(d, f, req.key);
    forall i: nat | i < |d.orders| && f.orders[i].Resting() ensures f.orders[i].quantity == d.orders[i].quantity {
      assert Evolved(d.orders[i], f.orders[i]);
      Trailing.PlacingTouchesNoOther(d, req, price, now, i);
    }
  }

  lemma LocalOrders(d: Desk, f: Desk, key: Key)
    requires LocalTo(d, f, key)
    ensures Evolves(d.orders, f.orders) && forall i | |d.orders| <= i < |f.orders| :: f.orders[i].key == key
  {
  }

  lemma CancellingDwindles(d: Desk, id: nat, now: int)
    ensures var f := CancelledOrder(d, id, now).desk; f.book == d.book && Dwindles(d.orders, f.orders)
  {
    hide Withdrawn;
    NothingHappens(d.orders);
    if Rests(d, id) {
      WithdrawingFillsNothing(d, id, now);
      WithdrawingKeepsBook(d, id, now);
    }
  }

  lemma WithdrawingKeepsBook(d: Desk, id: nat, now: int)
    requires Rests(d, id)
    ensures Withdrawn(d, id, Cancelled, now).desk.book == d.book
    ensures |Withdrawn(d, id, Cancelled, now).desk.orders| == |d.orders|
    ensures forall i: nat | i < |d.orders| && Withdrawn(d, id, Cancelled, now).desk.orders[i].Resting() ::
              Withdrawn(d, id, Cancelled, now).desk.orders[i] == d.orders[i]
  {
  }

  lemma ModifyingDwindles(d: Desk, m: OrderModification, now: int)
    requires m.Valid() && EnlargesNoOption(d, Modify(m, now))
    ensures var f := Modified(d, m, now).desk; f.book == d.book && Dwindles(d.orders, f.orders)
  {
    hide Rereserved;
    var f := Modified(d, m, now).desk;
    AmendingFillsNothing(d, m, now);
    AmendingKeepsMoney(d, m, now);
    if Rests(d, m.orderId) {
      var o := Amended(d.orders[m.orderId], m, now);
      RereservingKeepsOrders(d, m.orderId, Cost(o.quantity, o.WorstCase().GetOr(0.0)));
    }
  }

  /** A pass leaves orders it does not list alone, but for dropping them. */
  lemma {:induction false} PassTouchesNoOther(d: Desk, ids: seq<nat>, price: real, now: int, id: nat)
    requires price > 0.0 && id < |d.orders| && id !in ids
    requires forall i | 0 <= i < |ids| :: ids[i] < |d.orders|
    ensures var o := Passed(d, ids, price, now).desk.orders; id < |o| && (o[id].Resting() ==> o[id] == d.orders[id])
    decreases |ids|
  {
    hide Evaluated;
    if ids == [] {
    } else if !d.orders[ids[0]].Resting() {
      PassTouchesNoOther(d, ids[1..], price, now, id);
    } else {
      var s := Evaluated(d, ids[0], price, now);
      EvaluationSettles(d, ids[0], price, now);
      if s.error.None? {
        PassTouchesNoOther(s.desk, ids[1..], price, now, id);
        PassOnlyAddsLegs(s.desk, ids[1..], price, now);
        assert Evolved(s.desk.orders[id], Passed(s.desk, ids[1..], price, now).desk.orders[id]);
      }
    }
  }

  lemma PassingElsewhere(d: Desk, cap: real, key: Key, price: real, now: int)
    requires Capped(d, cap, now) && price > 0.0 && !key.exchange.NFO?
    ensures var f := Passed(d, Candidates(d.orders, key, 0), price, now).desk;
            BookOk(f.book) && SameOptions(d.book, f.book) && Dwindles(d.orders, f.orders)
  {
    hide Passed, Total, Current, OrdersOk, LegsCovered, LocalTo, SameOptions;
    var ids := Candidates(d.orders, key, 0);
    var f := Passed(d, ids, price, now).desk;
    PassIsLocal(d, ids, key, price, now);
    LocalKeepsOptions(d, f, key);
    LocalBook(d, f, key);
    LocalOrders(d, f, key);
    forall i: nat | i < |d.orders| && f.orders[i].Resting() && f.orders[i].key.exchange.NFO?
      ensures f.orders[i].quantity == d.orders[i].quantity
    {
      assert Evolved(d.orders[i], f.orders[i]);
      assert i !in ids;
      PassTouchesNoOther(d, ids, price, now, i);
    }
  }

  /** Re-marking a position moves no lot and no order. */
  lemma MarkingKeepsCap(d: Desk, cap: real, key: Key, price: real, now: int)
    requires Capped(d, cap, now) && price > 0.0
    ensures Capped(d.(book := Marked(d.book, key, price, now)), cap, now)
  {
    hide Total, PositionOf, Current, KnownReservations, GroupsOk, OptionLegsOk, LegsCovered, Rebuilt;
    var e := d.(book := Marked(d.book, key, price, now));
    MarkingKeepsLots(d.book, key, price, now);
    MarkKeepsCurrent(d.book, key, price, now, now);
    if d.book.Lots(key) != [] { RebuiltIsOk(d.book, key, d.book.Lots(key), price, now); }
    NothingHappens(d.orders);
    GroupsOfOrders(d, e);
    KnownOfSame(d, e);
    QuietStepKeepsCap(d, e, cap, now, now);
  }

  lemma KnownOfSame(d: Desk, e: Desk)
    requires KnownReservations(d) && e.orders == d.orders && e.reservations == d.reservations
    ensures KnownReservations(e)
  {
  }

  /** A call that places no option order and enlarges none keeps the cap, price updates of options included. */
  lemma OtherCallKeepsCap(e: Engine, op: Op, cap: real)
    requires op.Valid() && Capped(e.desk, cap, op.now) && NotAnOption(op) && EnlargesNoOption(e.desk, op)
    ensures Capped(Apply(e, op).desk, cap, op.now)
  {
    hide Placed, Passed, Modified, CancelledOrder, BookCapped, LegsCovered, Enabled, Do, Marked, Current,
         KnownReservations, GroupsOk, OptionLegsOk, SameOptions, Dwindles;
    var (d, f) := (e.desk, Apply(e, op).desk);
    var ms := OperationIsMoves(e, op);
    PlayKeepsKnown(d, ms);
    PlayKeepsGroups(d, ms);
    PlayKeepsCurrent(d, ms, op.now);
    BookOfCapped(d, cap, op.now);
    match op
    case Place(req, price, now) =>
      PlacingElsewhere(d, cap, req, price, now);
      QuietStepKeepsCap(d, f, cap, now, now);
    case Cancel(id, now) =>
      CancellingDwindles(d, id, now);
      QuietStepKeepsCap(d, f, cap, now, now);
    case Modify(m, now) =>
      ModifyingDwindles(d, m, now);
      QuietStepKeepsCap(d, f, cap, now, now);
    case Price(key, price, now) => PriceKeepsCap(e, cap, key, price, now);
  }

  lemma BookOfCapped(d: Desk, cap: real, t: int)
    requires Capped(d, cap, t)
    ensures BookOk(d.book) && SameOptions(d.book, d.book)
  {
  }

  lemma PriceKeepsCap(e: Engine, cap: real, key: Key, price: real, now: int)
    requires Capped(e.desk, cap, now)
    ensures Capped(Apply(e, Price(key, price, now)).desk, cap, now)
  {
    hide Passed, Capped, Marked, SameOptions, Dwindles, Enabled, Do;
    var d := e.desk;
    if price > 0.0 {
      var ids := Candidates(d.orders, key, 0);
      var s := Passed(d, ids, price, now);
      PassKeepsCap(d, cap, key, price, now);
      if s.error.None? { MarkingKeepsCap(s.desk, cap, key, price, now); }
    }
  }

  lemma PassKeepsCap(d: Desk, cap: real, key: Key, price: real, now: int)
    requires Capped(d, cap, now) && price > 0.0
    ensures Capped(Passed(d, Candidates(d.orders, key, 0), price, now).desk, cap, now)
  {
    hide Passed, BookCapped, LegsCovered, Enabled, Do, Current, KnownReservations, GroupsOk, OptionLegsOk,
         SameOptions, Dwindles;
    var ids := Candidates(d.orders, key, 0);
    if key.exchange.NFO? {
      OptionPassKeepsCap(d, cap, ids, key, price, now);
    } else {
      var f := Passed(d, ids, price, now).desk;
      var ms := PassIsMoves(d, ids, price, now);
      PlayKeepsKnown(d, ms);
      PlayKeepsGroups(d, ms);
      PlayKeepsCurrent(d, ms, now);
      PassingElsewhere(d, cap, key, price, now);
      QuietStepKeepsCap(d, f, cap, now, now);
    }
  }

  // ---------- Runs ----------

  datatype OptionOp =
    | Entering(a: Entry, now: int)
    | Exiting(x: Exit, now: int)
    | Other(op: Op)
  {
    predicate Valid() { Other? ==> op.Valid() && NotAnOption(op) }

    function Now(): int { if Other? then op.now else now }

    /** What a client must see to: an exit leaves open what the resting legs may
        still sell, and no leg is enlarged. */
    ghost predicate Careful(d: Desk) {
      match this
      case Entering(_, _) => true
      case Exiting(x, _) => ExitCovered(d, x)
      case Other(op) => EnlargesNoOption(d, op)
    }
  }

  predicate ValidOptionOps(ops: seq<OptionOp>) { forall i | 0 <= i < |ops| :: ops[i].Valid() }

  ghost function Performed(e: Engine, r: OptionRisk, lim: Limits, op: OptionOp): OptionStep
    requires op.Valid()
  {
    match op
    case Entering(a, now) => OptionEntered(e, r, lim, a, now)
    case Exiting(x, now) => OptionLeft(e, r, x, now)
    case Other(o) => OptionStep(Apply(e, o), r, None)
  }

  ghost function AfterAll(e: Engine, r: OptionRisk, lim: Limits, ops: seq<OptionOp>): Engine
    requires ValidOptionOps(ops)
    decreases |ops|
  {
    if ops == [] then e
    else
      var s := Performed(e, r, lim, ops[0]);
      AfterAll(s.engine, s.risk, lim, ops[1..])
  }

  /** A careful run whose clock readings never go back. */
  ghost predicate CarefulRun(e: Engine, r: OptionRisk, lim: Limits, ops: seq<OptionOp>, start: int)
    requires ValidOptionOps(ops)
    decreases |ops|
  {
    ops != [] ==>
      && start <= ops[0].Now() && ops[0].Careful(e.desk)
      && var s := Performed(e, r, lim, ops[0]); CarefulRun(s.engine, s.risk, lim, ops[1..], ops[0].Now())
  }

  lemma CappedLater(d: Desk, cap: real, t: int, now: int)
    requires Capped(d, cap, t) && t <= now
    ensures Capped(d, cap, now)
  {
    hide BookCapped, OrdersOk, LegsCovered, Current;
    CurrentLater(d.book, t, now);
  }

  lemma StepKeepsCap(e: Engine, r: OptionRisk, lim: Limits, op: OptionOp)
    requires op.Valid() && Capped(e.desk, lim.maxExposure, op.Now()) && op.Careful(e.desk)
    ensures Capped(Performed(e, r, lim, op).engine.desk, lim.maxExposure, op.Now())
  {
    hide Capped, OptionEntered, OptionLeft, Apply, ExitCovered, EnlargesNoOption, NotAnOption;
    match op
    case Entering(a, now) => EntryKeepsCap(e, r, lim, a, now);
    case Exiting(x, now) => ExitKeepsCap(e, r, lim.maxExposure, x, now);
    case Other(o) => OtherCallKeepsCap(e, o, lim.maxExposure);
  }

  lemma {:induction false} RunKeepsCap(e: Engine, r: OptionRisk, lim: Limits, ops: seq<OptionOp>, start: int)
    returns (t: int)
    requires ValidOptionOps(ops) && CarefulRun(e, r, lim, ops, start) && Capped(e.desk, lim.maxExposure, start)
    ensures Capped(AfterAll(e, r, lim, ops).desk, lim.maxExposure, t)
    decreases |ops|
  {
    hide Capped, Performed, OptionOp.Careful;
    t := start;
    if ops != [] {
      CappedLater(e.desk, lim.maxExposure, start, ops[0].Now());
      StepKeepsCap(e, r, lim, ops[0]);
      var s := Performed(e, r, lim, ops[0]);
      t := RunKeepsCap(s.engine, s.risk, lim, ops[1..], ops[0].Now());
    }
  }

  lemma NothingDeployed(capital: real, cap: real, t: int)
    requires capital > 0.0 && cap >= 0.0
    ensures Capped(NewDesk(capital), cap, t)
  {
    assert Bases(EMPTY) == map[];
    assert forall key: Key :: Held([], key) == map[];
  }

  /** The exposure cap.  In every careful run of entries, with or without bracket,
      of exits and of any other trading, no option position is short and
      deployed premium never exceeds the limit. */
  lemma ExposureNeverExceedsLimit(capital: real, r: OptionRisk, lim: Limits, ops: seq<OptionOp>, start: int)
    requires capital > 0.0 && lim.maxExposure >= 0.0
    requires ValidOptionOps(ops) && CarefulRun(NewEngine(capital), r, lim, ops, start)
    ensures var b := AfterAll(NewEngine(capital), r, lim, ops).desk.book;
            && Exposure(b) <= lim.maxExposure
            && forall k | k in b.positions && k.exchange.NFO? :: b.positions[k].quantity > 0
  {
    hide CarefulRun, Exposure, Total, OrdersOk, LegsCovered, Current;
    NothingDeployed(capital, lim.maxExposure, start);
    var t := RunKeepsCap(NewEngine(capital), r, lim, ops, start);
    var d := AfterAll(NewEngine(capital), r, lim, ops).desk;
    ExposureIsBasis(d.book);
    forall k | k in d.book.positions && k.exchange.NFO? ensures d.book.positions[k].quantity > 0 {
      NetOfLong(d.book.lots[k]);
      SharesOfSome(d.book.lots[k]);
    }
  }

  lemma SharesOfSome(lots: seq<Lot>)
    requires lots != []
    ensures Shares(lots) > 0
  {
  }

  // ---------- Runs without brackets ----------

  predicate NoOptionRests(orders: seq<Order>) {
    forall i | 0 <= i < |orders| && orders[i].Resting() :: !orders[i].key.exchange.NFO?
  }

  predicate Bracketless(ops: seq<OptionOp>) {
    forall i | 0 <= i < |ops| && ops[i].Entering? :: ops[i].a.stopLoss.None? && ops[i].a.target.None?
  }

  predicate TimelyOptions(ops: seq<OptionOp>, start: int) {
    ops != [] ==> start <= ops[0].Now() && TimelyOptions(ops[1..], ops[0].Now())
  }

  lemma NothingCommitted(d: Desk, key: Key)
    requires GroupsOk(d) && NoOptionRests(d.orders) && key.exchange.NFO?
    ensures Committed(d.orders, key) == 0.0
  {
    forall p: nat | HasRestingLeg(d.orders, p) ensures p < |d.orders| && !d.orders[p].key.exchange.NFO? {
      var i :| 0 <= i < |d.orders| && d.orders[i].Resting() && d.orders[i].parent == Some(p);
      assert LegOk(d.orders, d.groups, i);
    }
    assert Held(d.orders, key) == map[];
  }

  lemma StepIsCareful(e: Engine, op: OptionOp, cap: real, t: int)
    requires op.Valid() && Capped(e.desk, cap, t) && NoOptionRests(e.desk.orders)
    ensures op.Careful(e.desk)
  {
    hide Committed, BookCapped;
    if op.Exiting? { NothingCommitted(e.desk, Key(NFO, op.x.symbol)); }
  }

  lemma PlainOrderRests(d: Desk, cap: real, key: Key, side: Side, quantity: int, price: real, now: int)
    requires Capped(d, cap, now) && NoOptionRests(d.orders) && quantity > 0
    ensures NoOptionRests(Placed(d, MarketRequest(key, side, quantity), price, now).desk.orders)
  {
    hide Placed, BookCapped, GroupsOk, OptionLegsOk, LegsCovered, Current, Filled, TotalPnl, PnlOf, Cost, Affordable;
    var n := |d.orders|;
    if price > 0.0 {
      MarketOrderOutcome(d, key, side, quantity, price, now);
      JoinedRests(d.orders, Placed(d, MarketRequest(key, side, quantity), price, now).desk.orders);
    } else {
      NonPositivePrice(d, MarketRequest(key, side, quantity), price, now);
    }
  }

  lemma JoinedRests(a: seq<Order>, b: seq<Order>)
    requires |b| == |a| + 1 && b[..|a|] == a && !b[|a|].Resting() && NoOptionRests(a)
    ensures NoOptionRests(b)
  {
    assert forall i | 0 <= i < |a| :: b[..|a|][i] == b[i];
  }

  lemma OtherRests(e: Engine, cap: real, op: Op)
    requires op.Valid() && Capped(e.desk, cap, op.now) && NoOptionRests(e.desk.orders) && NotAnOption(op)
    ensures NoOptionRests(Apply(e, op).desk.orders)
  {
    hide Placed, Passed, Modified, CancelledOrder, Capped, LocalTo, Enabled, Do, Evolves, NoOptionRests;
    var (d, f) := (e.desk, Apply(e, op).desk);
    BookOfCapped(d, cap, op.now);
    match op
    case Place(req, price, now) =>
      PlacementIsLocal(d, req, price, now);
      NewcomersRestElsewhere(d, f, req.key);
    case Cancel(id, now) =>
      CancellingDwindles(d, id, now);
      DwindlingRests(d.orders, f.orders);
    case Modify(m, now) =>
      AmendingFillsNothing(d, m, now);
      EvolvingRests(d.orders, f.orders);
    case Price(key, price, now) =>
      if price > 0.0 {
        var ids := Candidates(d.orders, key, 0);
        if key.exchange.NFO? {
          NoneOfOption(d.orders, key);
          NoCandidates(d.orders, key, 0);
          EmptyPass(d, price, now);
        } else {
          PassIsLocal(d, ids, key, price, now);
          NewcomersRestElsewhere(d, Passed(d, ids, price, now).desk, key);
        }
      }
  }

  lemma NoneOfOption(orders: seq<Order>, key: Key)
    requires NoOptionRests(orders) && key.exchange.NFO?
    ensures forall j | 0 <= j < |orders| && orders[j].Resting() :: orders[j].key != key
  {
  }

  lemma EmptyPass(d: Desk, price: real, now: int)
    requires price > 0.0
    ensures Passed(d, [], price, now) == Step(d, [], None)
  {
  }

  lemma NewcomersRestElsewhere(d: Desk, f: Desk, key: Key)
    requires LocalTo(d, f, key) && !key.exchange.NFO? && NoOptionRests(d.orders)
    ensures NoOptionRests(f.orders)
  {
    forall i | 0 <= i < |f.orders| && f.orders[i].Resting() ensures !f.orders[i].key.exchange.NFO? {
      if i < |d.orders| { assert Evolved(d.orders[i], f.orders[i]); }
    }
  }

  lemma DwindlingRests(a: seq<Order>, b: seq<Order>)
    requires Dwindles(a, b) && NoOptionRests(a)
    ensures NoOptionRests(b)
  {
    forall i | 0 <= i < |b| && b[i].Resting() ensures !b[i].key.exchange.NFO? {
      if i < |a| { assert Evolved(a[i], b[i]); }
    }
  }

  lemma EvolvingRests(a: seq<Order>, b: seq<Order>)
    requires Evolves(a, b) && |a| == |b| && NoOptionRests(a)
    ensures NoOptionRests(b)
  {
    forall i | 0 <= i < |b| && b[i].Resting() ensures !b[i].key.exchange.NFO? {
      assert Evolved(a[i], b[i]);
    }
  }

  lemma StepRests(e: Engine, r: OptionRisk, lim: Limits, op: OptionOp)
    requires op.Valid() && Capped(e.desk, lim.maxExposure, op.Now()) && NoOptionRests(e.desk.orders)
    requires Bracketless([op])
    ensures NoOptionRests(Performed(e, r, lim, op).engine.desk.orders)
  {
    hide Capped, Placed, Exposure, NoOptionRests, CanSnapshot;
    var s := Performed(e, r, lim, op);
    assert [op][0] == op;
    if s.engine != e {
      match op
      case Entering(a, now) =>
        var quantity := a.lots * a.lotSize.value;
        assert EntryRequest(a, quantity) == MarketRequest(Key(NFO, a.symbol.value), Buy, quantity);
        PlainOrderRests(e.desk, lim.maxExposure, Key(NFO, a.symbol.value), Buy, quantity, a.quote.value, now);
      case Exiting(x, now) =>
        var side := if OpenQuantity(e.desk.book, Key(NFO, x.symbol)) > 0 then Sell else Buy;
        PlainOrderRests(e.desk, lim.maxExposure, Key(NFO, x.symbol), side, ExitSize(e.desk, x), x.quote.value, now);
      case Other(o) => OtherRests(e, lim.maxExposure, o);
    }
  }

  lemma {:induction false} BracketlessIsCareful(e: Engine, r: OptionRisk, lim: Limits, ops: seq<OptionOp>, start: int)
    requires ValidOptionOps(ops) && Bracketless(ops) && TimelyOptions(ops, start)
    requires Capped(e.desk, lim.maxExposure, start) && NoOptionRests(e.desk.orders)
    ensures CarefulRun(e, r, lim, ops, start)
    decreases |ops|
  {
    hide Capped, Performed, OptionOp.Careful, NoOptionRests;
    if ops != [] {
      CappedLater(e.desk, lim.maxExposure, start, ops[0].Now());
      StepIsCareful(e, ops[0], lim.maxExposure, ops[0].Now());
      StepKeepsCap(e, r, lim, ops[0]);
      StepRests(e, r, lim, ops[0]);
      var s := Performed(e, r, lim, ops[0]);
      BracketlessIsCareful(s.engine, s.risk, lim, ops[1..], ops[0].Now());
    }
  }

  /** Without bracket premiums nothing has to be seen to: every run with a clock
      that never goes back keeps the cap and holds no option short. */
  lemma BracketlessRunsKeepCap(capital: real, r: OptionRisk, lim: Limits, ops: seq<OptionOp>, start: int)
    requires capital > 0.0 && lim.maxExposure >= 0.0
    requires ValidOptionOps(ops) && Bracketless(ops) && TimelyOptions(ops, start)
    ensures var b := AfterAll(NewEngine(capital), r, lim, ops).desk.book;
            && Exposure(b) <= lim.maxExposure
            && forall k | k in b.positions && k.exchange.NFO? :: b.positions[k].quantity > 0
  {
    hide CarefulRun, Exposure, Capped, AfterAll;
    NothingDeployed(capital, lim.maxExposure, start);
    BracketlessIsCareful(NewEngine(capital), r, lim, ops, start);
    ExposureNeverExceedsLimit(capital, r, lim, ops, start);
  }
}
