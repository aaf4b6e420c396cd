/** The ledger identity, move by move: cash plus the open lots at cost is the
    initial capital plus realized profit. */
module Accounts {
  import opened Domain
  import opened Fifo
  import opened Sums
  import opened Portfolios
  import opened Positions
  import opened Matching
  import opened OrderDesk
  import opened Moves
  import opened Lifecycle

  /** What an open queue is worth at cost; a short queue is owed. */
  function Value(lots: seq<Lot>): real {
    if lots == [] then 0.0 else Signed(lots[0].side, Basis(lots))
  }

  function Net(lots: seq<Lot>): int {
    if lots == [] then 0 else lots[0].side.Sign() * Shares(lots)
  }

  predicate QueueOk(lots: seq<Lot>) { lots != [] && OneSided(lots, lots[0].side) }

  /** A visible position tells the truth about its lots. */
  predicate Fits(p: PaperPosition, key: Key, lots: seq<Lot>)
    requires lots != []
  {
    && p.key == key && p.quantity == Net(lots) && p.lastPrice > 0.0
    && p.averagePrice == Basis(lots) / Shares(lots) as real
    && p.unrealizedPnl == Cost(p.quantity, p.lastPrice - p.averagePrice)
  }

  predicate BookOk(b: Book) {
    && b.positions.Keys == b.lots.Keys
    && forall k | k in b.lots :: QueueOk(b.lots[k]) && Fits(b.positions[k], k, b.lots[k])
  }

  function Values(b: Book): map<Key, real> { map k | k in b.lots :: Value(b.lots[k]) }

  ghost predicate Balanced(d: Desk) {
    && BookOk(d.book)
    && d.ledger.cash + Total(Values(d.book)) == d.ledger.initialCapital + d.ledger.realized
  }

  /** Equal outside instrument `key`. */
  predicate SameElsewhere(a: Book, b: Book, key: Key) {
    a.lots - {key} == b.lots - {key} && a.positions - {key} == b.positions - {key}
  }

  lemma PositionFits(key: Key, lots: seq<Lot>, mark: real, realized: real, now: int)
    requires QueueOk(lots) && mark > 0.0
    ensures Fits(PositionOf(key, lots, mark, realized, now), key, lots)
  {
  }

  lemma RebuiltIsOk(b: Book, key: Key, lots: seq<Lot>, mark: real, now: int)
    requires BookOk(b) && mark > 0.0 && (lots != [] ==> QueueOk(lots))
    ensures var r := Rebuilt(b, key, lots, mark, now);
            BookOk(r) && r.Lots(key) == lots && SameElsewhere(b, r, key)
  {
    hide Fits, PositionOf, OneSided;
    if lots != [] { PositionFits(key, lots, mark, At(b.realizedSinceOpen, key), now); }
  }

  lemma EmptyQueue()
    ensures Shares([]) == 0 && Basis([]) == 0.0
  {
  }

  lemma ClosingMovesQueue(lots: seq<Lot>, quantity: int, price: real, now: int)
    requires quantity > 0 && QueueOk(lots)
    ensures var c := CloseFifo(lots, quantity, price, now);
            && 0 <= c.remaining <= quantity && (c.remaining > 0 ==> c.lots == [])
            && OneSided(c.lots, lots[0].side)
            && Value(c.lots) == Value(lots) + TotalPnl(c.closed)
                                - Signed(lots[0].side, Cost(quantity - c.remaining, price))
            && Net(c.lots) == Net(lots) - lots[0].side.Sign() * (quantity - c.remaining)
  {
    hide CloseFifo, Units, ClosedUnits, Shares, Basis, TotalPnl, ClosedShares, SharesOf, ClosedOf, Cost;
    var side := lots[0].side;
    var c := CloseFifo(lots, quantity, price, now);
    ClosesOldestFirst(lots, quantity, price, now);
    ClosingConservesShares(lots, quantity, price, now, 0);
    PiecesAreSound(lots, quantity, price, now, side);
    ClosingRealizes(lots, quantity, price, now, side);
    EmptyQueue();
    assert c.lots != [] ==> c.lots[0].side == side;
  }

  lemma AppendMovesQueue(lots: seq<Lot>, lot: Lot)
    requires OneSided(lots, lot.side)
    ensures QueueOk(lots + [lot])
    ensures Value(lots + [lot]) == Value(lots) + Signed(lot.side, Cost(lot.quantity, lot.price))
    ensures Net(lots + [lot]) == Net(lots) + lot.side.Sign() * lot.quantity
  {
    Append(lots, lot, 0);
    assert (lots + [lot])[0].side == lot.side;
  }

  /** A fill moves the value of its queue by the cash it moves plus the profit
      it realizes, and the net position by its own signed quantity. */
  lemma FillMovesQueue(lots: seq<Lot>, side: Side, quantity: int, price: real, id: nat, now: int)
    requires quantity > 0 && price > 0.0 && (lots != [] ==> QueueOk(lots))
    ensures var c := ClosedBy(lots, side, quantity, price, now);
            var queue := QueueAfter(lots, side, quantity, price, id, now);
            && (queue != [] ==> QueueOk(queue))
            && Value(queue) == Value(lots) + TotalPnl(c.closed) + Signed(side, Cost(quantity, price))
            && Net(queue) == Net(lots) + side.Sign() * quantity
  {
    hide CloseFifo, TotalPnl, Basis, Shares, Cost, Value, Net;
    var c := ClosedBy(lots, side, quantity, price, now);
    if lots != [] && lots[0].side != side {
      ClosingMovesQueue(lots, quantity, price, now);
      CostSplits(quantity - c.remaining, c.remaining, price);
      if c.remaining == 0 { NoCost(price); }
    } else {
      NoPnl();
    }
    if c.remaining > 0 {
      AppendMovesQueue(c.lots, Lot(id, now, price, c.remaining, side));
    }
  }

  lemma FillIsOk(b: Book, key: Key, side: Side, quantity: int, price: real, id: nat, now: int)
    requires BookOk(b) && quantity > 0 && price > 0.0
    ensures var f := Filled(b, key, side, quantity, price, id, now);
            && BookOk(f.book) && SameElsewhere(b, f.book, key)
            && f.book.Lots(key) == QueueAfter(b.Lots(key), side, quantity, price, id, now)
            && f.closed == ClosedBy(b.Lots(key), side, quantity, price, now).closed
  {
    hide ClosedBy, QueueAfter, TotalPnl, Rebuilt, Fits, Value, Net;
    var lots := b.Lots(key);
    var c := ClosedBy(lots, side, quantity, price, now);
    var realized := if lots == [] || c.lots == [] then 0.0 else At(b.realizedSinceOpen, key) + TotalPnl(c.closed);
    FillMovesQueue(lots, side, quantity, price, id, now);
    RebuiltIsOk(b.(realizedSinceOpen := b.realizedSinceOpen[key := realized]), key,
                QueueAfter(lots, side, quantity, price, id, now), price, now);
  }

  /** Changing one instrument moves the total by the change of that queue's value. */
  lemma ValuesMove(a: Book, b: Book, key: Key)
    requires SameElsewhere(a, b, key)
    requires forall k | k in a.lots :: a.lots[k] != []
    requires forall k | k in b.lots :: b.lots[k] != []
    ensures Total(Values(b)) == Total(Values(a)) - Value(a.Lots(key)) + Value(b.Lots(key))
  {
    var va, vb := Values(a), Values(b);
    assert va - {key} == vb - {key} by {
      forall k | k != key ensures (k in va <==> k in vb) && (k in va ==> va[k] == vb[k]) {
        assert k in a.lots - {key} <==> k in b.lots - {key};
        if k in a.lots { assert (a.lots - {key})[k] == (b.lots - {key})[k]; }
      }
    }
    TotalAfter(va, vb, key);
  }

  // ---------- Moves ----------

  /** Cash, profit and positions are untouched; only reservations and orders may differ. */
  predicate SameMoney(d: Desk, e: Desk) {
    && e.book == d.book && e.ledger.cash == d.ledger.cash && e.ledger.realized == d.ledger.realized
    && e.ledger.initialCapital == d.ledger.initialCapital
  }

  lemma {:induction false} SiblingsKeepMoney(d: Desk, filled: nat, group: Option<nat>, i: nat, now: int)
    ensures SameMoney(d, SiblingsCancelled(d, filled, group, i, now).desk)
    decreases |d.orders| - i
  {
    if group.None? || i >= |d.orders| {
    } else if i == filled || d.orders[i].ocoGroup != group || !d.orders[i].Resting() {
      SiblingsKeepMoney(d, filled, group, i + 1, now);
    } else {
      SiblingsKeepMoney(Withdrawn(d, i, Cancelled, now).desk, filled, group, i + 1, now);
    }
  }

  /** Every move but a fill and a mark leaves the money alone. */
  lemma OtherMovesKeepMoney(d: Desk, mv: Move)
    requires Enabled(d, mv) && !mv.Trade? && !mv.Strand? && !mv.Mark? && !mv.Spoil?
    ensures SameMoney(d, Do(d, mv))
  {
    hide Decide, Dropped, Amended, Entered, BracketSpawned, Modified, Rereserved, Unreserved, Paid;
    match mv
    case Enter(o, now) => EnteringKeepsMoney(d, o, now);
    case Spawn(id, now) => SpawningKeepsMoney(d, d.orders[id], id, now);
    case Amend(m, now) => AmendingKeepsMoney(d, m, now);
    case Forgo(id, amount, _) => RereservingKeepsMoney(d, id, amount);
    case Refuse(id, _, _) => UnreservingKeepsMoney(d, id);
    case Withdraw(id, _) => UnreservingKeepsMoney(d, id);
    case Lose(id, _) => UnreservingKeepsMoney(d, id);
    case Look(_, _, _) =>
  }

  lemma UnreservingKeepsMoney(d: Desk, id: nat)
    ensures SameMoney(d, Unreserved(d, id).desk)
  {
  }

  lemma EnteringKeepsMoney(d: Desk, o: Order, now: int)
    requires o.Resting()
    ensures SameMoney(d, Entered(d, o, now))
  {
  }

  lemma SpawningKeepsMoney(d: Desk, entry: Order, id: nat, now: int)
    requires entry.averageFillPrice.Some?
    ensures SameMoney(d, BracketSpawned(d, entry, id, now))
  {
    hide WithLeg;
    var d0 := d.(groups := d.groups + 1);
    LegKeepsMoney(d0, entry, id, true, entry.stopLoss, d.groups, now);
    LegKeepsMoney(WithLeg(d0, entry, id, true, entry.stopLoss, d.groups, now),
                  entry, id, false, entry.target, d.groups, now);
  }

  lemma LegKeepsMoney(d: Desk, entry: Order, id: nat, isStop: bool, level: Option<real>, g: nat, now: int)
    requires PositiveIfSet(level) && entry.averageFillPrice.Some?
    ensures SameMoney(d, WithLeg(d, entry, id, isStop, level, g, now))
  {
    hide Entered;
    if level.Some? && LegIsValid(entry.side, isStop, level.value, entry.averageFillPrice.value) {
      EnteringKeepsMoney(d, LegOf(entry, id, isStop, level.value, g, now), now);
    }
  }

  lemma RereservingKeepsMoney(d: Desk, id: nat, amount: real)
    ensures SameMoney(d, Rereserved(d, id, amount).desk)
  {
  }

  lemma AmendingKeepsMoney(d: Desk, m: OrderModification, now: int)
    requires m.Valid()
    ensures SameMoney(d, Modified(d, m, now).desk)
  {
    hide Rereserved;
    var r := RestingOrder(d.orders, m.orderId);
    if r.Ok? && Amended(r.value, m, now).Reserves() {
      var o := Amended(r.value, m, now);
      RereservingKeepsMoney(d, m.orderId, Cost(o.quantity, o.WorstCase().GetOr(0.0)));
    }
  }

  /** A paid fill changes cash plus the value of the lots by the profit it realizes, and overdraws nothing. */
  lemma FillMovesMoney(d: Desk, id: nat, price: real, now: int)
    requires Charges(d, id, price, now) && BookOk(d.book)
    ensures var o := Fired(d, id, price, now);
            var l := Paid(Unreserved(d, id).desk.ledger, o, price).value;
            var f := Filled(d.book, o.key, o.side, o.quantity, price, id, now);
            && BookOk(f.book) && l.realized == d.ledger.realized && l.initialCapital == d.ledger.initialCapital
            && l.cash + Total(Values(f.book)) == d.ledger.cash + Total(Values(d.book)) + TotalPnl(f.closed)
            && (l.cash >= -EPSILON || o.side.Sell?) && (o.side.Sell? ==> l.cash >= d.ledger.cash)
  {
    hide ClosedBy, QueueAfter, Filled, Total, Decide;
    var o := Fired(d, id, price, now);
    CostIsPositive(o.quantity, price);
    FillIsOk(d.book, o.key, o.side, o.quantity, price, id, now);
    FillMovesQueue(d.book.Lots(o.key), o.side, o.quantity, price, id, now);
    ValuesMove(d.book, Filled(d.book, o.key, o.side, o.quantity, price, id, now).book, o.key);
  }

  /** The profit of the pieces that a fill closes but does not book. */
  function Unbooked(d: Desk, o: PaperOrder, price: real, now: int): real {
    var closed := ClosedBy(d.book.Lots(o.key), o.side, o.quantity, price, now).closed;
    if AnyLate(closed) then TotalPnl(closed) - TotalPnl(UntilLate(closed)) else 0.0
  }

  /** A fill that cannot be recorded overdraws nothing either, but it breaks the
      ledger identity by exactly what it does not book. */
  lemma SpoilingMovesMoney(d: Desk, id: nat, price: real, now: int)
    requires Spoils(d, id, price, now) && BookOk(d.book)
    ensures var e := Exchanging(d, id, price, now).desk;
            && BookOk(e.book) && e.ledger.initialCapital == d.ledger.initialCapital
            && (d.ledger.cash >= -EPSILON ==> e.ledger.cash >= -EPSILON)
            && e.ledger.cash + Total(Values(e.book)) - e.ledger.realized
               == d.ledger.cash + Total(Values(d.book)) - d.ledger.realized
                  + Unbooked(d, Fired(d, id, price, now), price, now)
  {
    hide ClosedBy, Filled, Total, Decide, AnyLate, UntilLate, Paid, BookOk, Exchanging;
    var o := Fired(d, id, price, now);
    SpoilingKeepsOrders(d, id, price, now);
    UnreservingKeepsMoney(d, id);
    FillMovesMoney(d, id, price, now);
    FilledCloses(d.book, o.key, o.side, o.quantity, price, id, now);
    FiringKeepsSide(d, id, price, now);
  }

  lemma FiringKeepsSide(d: Desk, id: nat, price: real, now: int)
    requires Fires(d, id, price, now)
    ensures Fired(d, id, price, now).side == d.orders[id].side
  {
  }

  /** What the ledger identity is off by. */
  ghost function Gap(d: Desk): real {
    d.ledger.cash + Total(Values(d.book)) - d.ledger.initialCapital - d.ledger.realized
  }

  /** Lots and positions agree, and cash is not overdrawn beyond the comparison slack. */
  predicate Covered(d: Desk) { BookOk(d.book) && d.ledger.cash >= -EPSILON }

  /** The profit that a move closes without booking it. */
  function Missed(d: Desk, mv: Move): real
    requires Enabled(d, mv)
  {
    if mv.Spoil? then Unbooked(d, Fired(d, mv.id, mv.price, mv.now), mv.price, mv.now) else 0.0
  }

  function MissedIn(d: Desk, ms: seq<Move>): real
    requires Legal(d, ms)
    decreases |ms|
  {
    if ms == [] then 0.0 else Missed(d, ms[0]) + MissedIn(Do(d, ms[0]), ms[1..])
  }

  lemma TradeMovesMoney(d: Desk, id: nat, price: real, now: int)
    requires Pays(d, id, price, now) && Covered(d)
    ensures var e := Exchanging(d, id, price, now).desk;
            Covered(e) && e.ledger.initialCapital == d.ledger.initialCapital && Gap(e) == Gap(d)
  {
    hide BookOk, Filled, TradesOf, Total, Paid, Unrecordable, TotalPnl, SiblingsCancelled, Exchanging;
    var x := Filling(d, id, price, now).desk;
    UnreservingKeepsMoney(d, id);
    FillMovesMoney(d, id, price, now);
    FiringKeepsSide(d, id, price, now);
    FillingIsTrade(d, id, price, now);
    SiblingsKeepMoney(x, id, d.orders[id].ocoGroup, 0, now);
  }

  /** The ledger identity is exact, fill by fill: a paid fill keeps it if and
      only if it books the profit of every piece it closes. */
  lemma FillBalancesExactlyWhenBooked(d: Desk, id: nat, price: real, now: int)
    requires Charges(d, id, price, now) && Balanced(d) && Covered(d)
    ensures Balanced(Exchanging(d, id, price, now).desk)
            <==> Unbooked(d, Fired(d, id, price, now), price, now) == 0.0
  {
    hide ClosedBy, Total, Decide, AnyLate, UntilLate, Paid, Exchanging, BookOk, Fired;
    UnreservingKeepsMoney(d, id);
    if Pays(d, id, price, now) {
      TradeMovesMoney(d, id, price, now);
    } else {
      SpoilingMovesMoney(d, id, price, now);
    }
  }

  /** Every move, broken or not, moves the ledger identity by exactly what it
      misses to book, and never overdraws cash. */
  lemma MoveBalances(d: Desk, mv: Move)
    requires Enabled(d, mv) && Covered(d)
    ensures Covered(Do(d, mv)) && Do(d, mv).ledger.initialCapital == d.ledger.initialCapital
    ensures Gap(Do(d, mv)) == Gap(d) + Missed(d, mv)
  {
    hide Exchanging, BookOk, Unbooked, Total, Values, Pays, Charges;
    match mv
    case Trade(id, price, now) =>
      TradeMovesMoney(d, id, price, now);
    case Strand(id, price, now) =>
      TradeMovesMoney(d, id, price, now);
    case Spoil(id, price, now) =>
      SpoilingMovesMoney(d, id, price, now);
    case Mark(key, price, now) =>
      MarkBalances(d, key, price, now);
    case _ =>
      OtherMovesKeepMoney(d, mv);
  }

  lemma MarkBalances(d: Desk, key: Key, price: real, now: int)
    requires BookOk(d.book) && price > 0.0
    ensures var e := d.(book := Marked(d.book, key, price, now)); BookOk(e.book) && Gap(e) == Gap(d)
  {
    hide Total;
    if d.book.Lots(key) != [] {
      RebuiltIsOk(d.book, key, d.book.Lots(key), price, now);
      ValuesMove(d.book, Marked(d.book, key, price, now), key);
    }
  }

  lemma {:induction false} PlayBalances(d: Desk, ms: seq<Move>)
    requires Legal(d, ms) && Covered(d)
    ensures Covered(Play(d, ms)) && Play(d, ms).ledger.initialCapital == d.ledger.initialCapital
    ensures Gap(Play(d, ms)) == Gap(d) + MissedIn(d, ms)
    ensures NoSpoil(ms) ==> MissedIn(d, ms) == 0.0
    decreases |ms|
  {
    hide Enabled, Do, Covered, Gap, Missed;
    if ms != [] {
      MoveBalances(d, ms[0]);
      PlayBalances(Do(d, ms[0]), ms[1..]);
      if NoSpoil(ms) { NothingMissed(d, ms[0]); }
    }
  }

  lemma NothingMissed(d: Desk, mv: Move)
    requires Enabled(d, mv) && !mv.Spoil?
    ensures Missed(d, mv) == 0.0
  {
  }

  // ---------- Snapshots ----------

  /** A position's market value is its lots at cost plus its unrealized profit. */
  lemma PositionWorth(p: PaperPosition, key: Key, lots: seq<Lot>)
    requires QueueOk(lots) && Fits(p, key, lots)
    ensures Cost(p.quantity, p.lastPrice) == Value(lots) + p.unrealizedPnl
    ensures Cost(if p.quantity < 0 then -p.quantity else p.quantity, p.averagePrice) == Basis(lots)
    ensures p.Valid()
  {
    var n := Shares(lots) as real;
    assert n * (Basis(lots) / n) == Basis(lots);
    CostOfGain(p.quantity, p.lastPrice, p.averagePrice);
    assert Basis(lots) / n > 0.0;
  }

  lemma {:induction false} ListedWorth(b: Book, ps: seq<PaperPosition>, keys: seq<Key>)
    requires BookOk(b) && |ps| == |keys|
    requires forall i | 0 <= i < |keys| :: keys[i] in b.positions && ps[i] == b.positions[keys[i]]
    ensures MarketValue(ps) == SumOf(ValuesAt(b, keys)) + Unrealized(ps)
  {
    hide Cost;
    if keys != [] {
      ListedWorth(b, ps[1..], keys[1..]);
      PositionWorth(ps[0], keys[0], b.lots[keys[0]]);
      assert ValuesAt(b, keys)[1..] == ValuesAt(b, keys[1..]);
    }
  }

  function ValuesAt(b: Book, keys: seq<Key>): seq<real>
    requires forall i | 0 <= i < |keys| :: keys[i] in b.lots
  {
    seq(|keys|, i requires 0 <= i < |keys| => Value(b.lots[keys[i]]))
  }

  /** At any marks, equity is the initial capital plus realized and unrealized profit. */
  lemma EquityIsCapitalPlusProfit(d: Desk, ps: seq<PaperPosition>, keys: seq<Key>)
    requires Balanced(d) && Lists(d.book.positions, ps, keys)
    ensures d.ledger.cash + MarketValue(ps) == d.ledger.initialCapital + d.ledger.realized + Unrealized(ps)
  {
    hide Value, MarketValue, Unrealized;
    forall i | 0 <= i < |keys| ensures keys[i] in d.book.positions {
      assert keys[i] in keys;
    }
    ListedWorth(d.book, ps, keys);
    TotalOfListing(Values(d.book), keys, ValuesAt(d.book, keys));
  }

  /** What the open lots cost, instrument by instrument. */
  function Costs(b: Book): map<Key, real> { map k | k in b.lots :: Basis(b.lots[k]) }

  /** Used capital is what the open lots of all instruments cost, short ones included. */
  lemma UsedCapitalIsBasis(b: Book, ps: seq<PaperPosition>, keys: seq<Key>)
    requires BookOk(b) && Lists(b.positions, ps, keys)
    ensures UsedCapital(ps) == Total(Costs(b))
  {
    hide UsedCapital, Basis, Total, Fits, QueueOk;
    forall i | 0 <= i < |keys| ensures keys[i] in b.positions {
      assert keys[i] in keys;
    }
    ListedBases(b, ps, keys);
    TotalOfListing(Costs(b), keys, BasesAt(b, keys));
  }

  function BasesAt(b: Book, keys: seq<Key>): seq<real>
    requires forall i | 0 <= i < |keys| :: keys[i] in b.lots
  {
    seq(|keys|, i requires 0 <= i < |keys| => Basis(b.lots[keys[i]]))
  }

  lemma {:induction false} ListedBases(b: Book, ps: seq<PaperPosition>, keys: seq<Key>)
    requires BookOk(b) && |ps| == |keys|
    requires forall i | 0 <= i < |keys| :: keys[i] in b.positions && ps[i] == b.positions[keys[i]]
    ensures UsedCapital(ps) == SumOf(BasesAt(b, keys))
  {
    hide Cost, Basis;
    if keys != [] {
      ListedBases(b, ps[1..], keys[1..]);
      PositionWorth(ps[0], keys[0], b.lots[keys[0]]);
      assert BasesAt(b, keys)[1..] == BasesAt(b, keys[1..]);
    }
  }

  /** What a snapshot that can be taken reports. */
  lemma SnapshotReports(d: Desk, ps: seq<PaperPosition>, keys: seq<Key>, now: int)
    requires Balanced(d) && Lists(d.book.positions, ps, keys) && Snapshot(d.ledger, ps, now).Ok?
    ensures var p := Snapshot(d.ledger, ps, now).value;
            && p.cash == d.ledger.cash && p.availableCash == p.cash - d.ledger.reserved
            && p.realizedPnl == d.ledger.realized && p.initialCapital == d.ledger.initialCapital
            && p.positions == ps && p.updatedAt == now
            && p.usedCapital == Total(Costs(d.book))
            && p.totalPnl == p.equity - p.initialCapital == p.realizedPnl + p.unrealizedPnl
  {
    hide Total, UsedCapital, Unrealized, MarketValue;
    UsedCapitalIsBasis(d.book, ps, keys);
    EquityIsCapitalPlusProfit(d, ps, keys);
  }

  /** What the book shows as realized since opening is what it has kept for the instrument. */
  predicate RealizedShown(b: Book) {
    forall k | k in b.positions :: b.positions[k].realizedPnl == At(b.realizedSinceOpen, k)
  }

  /** A fill marks the position at its price.  The profit realized since opening
      grows by what the fill closed as long as the position stays on its side, and
      starts again from zero when the fill opens or turns it. */
  lemma FillMarks(b: Book, key: Key, side: Side, quantity: int, price: real, id: nat, now: int)
    requires BookOk(b) && RealizedShown(b) && quantity > 0 && price > 0.0
    ensures var f := Filled(b, key, side, quantity, price, id, now);
            && RealizedShown(f.book)
            && (key in f.book.positions ==>
                  var p := f.book.positions[key];
                  && p.lastPrice == price && p.updatedAt == now
                  && (forall l | l in f.book.Lots(key) :: p.openedAt <= l.timestamp)
                  && (exists l :: l in f.book.Lots(key) && l.timestamp == p.openedAt)
                  && p.realizedPnl
                     == if key in b.positions && (b.positions[key].quantity > 0 <==> p.quantity > 0) then
                          b.positions[key].realizedPnl + TotalPnl(f.closed)
                        else 0.0)
  {
    hide CloseFifo, TotalPnl, Basis, Shares, Cost, Oldest, ClosedBy, QueueAfter, Fits;
    var lots, after := b.Lots(key), QueueAfter(b.Lots(key), side, quantity, price, id, now);
    FillIsOk(b, key, side, quantity, price, id, now);
    FillMovesQueue(lots, side, quantity, price, id, now);
    if after != [] { FillTurns(lots, side, quantity, price, id, now); }
    if lots != [] { SideShows(b, key); }
    if after != [] { SideShows(Filled(b, key, side, quantity, price, id, now).book, key); }
  }

  lemma FillKeepsShown(d: Desk, id: nat, price: real, now: int)
    requires Charges(d, id, price, now) && BookOk(d.book) && RealizedShown(d.book)
    ensures RealizedShown(Exchanging(d, id, price, now).desk.book)
  {
    hide BookOk, Filled, TradesOf, Paid, Unrecordable, TotalPnl, SiblingsCancelled, Exchanging, RealizedShown, Decide,
         UntilLate;
    var o := Fired(d, id, price, now);
    UnreservingKeepsMoney(d, id);
    FillMarks(d.book, o.key, o.side, o.quantity, price, id, now);
    if Pays(d, id, price, now) {
      FillingIsTrade(d, id, price, now);
      SiblingsKeepMoney(Filling(d, id, price, now).desk, id, d.orders[id].ocoGroup, 0, now);
    } else {
      SpoilingKeepsOrders(d, id, price, now);
    }
  }

  /** Every move, broken or not, keeps what positions show as realized since opening. */
  lemma MoveKeepsShown(d: Desk, mv: Move)
    requires Enabled(d, mv) && Covered(d) && RealizedShown(d.book)
    ensures RealizedShown(Do(d, mv).book)
  {
    hide Exchanging, BookOk;
    match mv
    case Trade(id, price, now) => FillKeepsShown(d, id, price, now);
    case Strand(id, price, now) => FillKeepsShown(d, id, price, now);
    case Spoil(id, price, now) => FillKeepsShown(d, id, price, now);
    case Mark(_, _, _) =>
    case _ => OtherMovesKeepMoney(d, mv);
  }

  lemma {:induction false} PlayKeepsShown(d: Desk, ms: seq<Move>)
    requires Legal(d, ms) && Covered(d) && RealizedShown(d.book)
    ensures RealizedShown(Play(d, ms).book)
    decreases |ms|
  {
    hide Enabled, Do, Covered, RealizedShown;
    if ms != [] {
      MoveKeepsShown(d, ms[0]);
      MoveBalances(d, ms[0]);
      PlayKeepsShown(Do(d, ms[0]), ms[1..]);
    }
  }

  /** What is left of a queue keeps its side; a new lot is on the other side only when nothing is left. */
  lemma FillTurns(lots: seq<Lot>, side: Side, quantity: int, price: real, id: nat, now: int)
    requires quantity > 0 && price > 0.0 && (lots != [] ==> QueueOk(lots))
    requires QueueAfter(lots, side, quantity, price, id, now) != []
    ensures var (c, after) := (ClosedBy(lots, side, quantity, price, now),
                               QueueAfter(lots, side, quantity, price, id, now));
            lots != [] ==> (after[0].side == lots[0].side <==> c.lots != [])
  {
    hide CloseFifo, TotalPnl, Basis, Shares, Cost;
    if lots != [] && lots[0].side != side { ClosingMovesQueue(lots, quantity, price, now); }
  }

  /** A position is long exactly when its lots are. */
  lemma SideShows(b: Book, key: Key)
    requires BookOk(b) && b.Lots(key) != []
    ensures key in b.positions && (b.positions[key].quantity > 0 <==> b.lots[key][0].side.Buy?)
  {
    hide Basis, Cost;
    SharesAreSome(b.lots[key]);
  }

  lemma {:induction false} SharesAreSome(lots: seq<Lot>)
    requires QueueOk(lots)
    ensures Shares(lots) > 0
  {
    if |lots| > 1 { SharesAreSome(lots[1..]); }
  }
}
