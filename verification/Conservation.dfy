/** Double entry per order: every filled share of an order is a share it closed,
    a share later closed, or a share still open; and the realized profit is
    what the trade history adds up to. */
module Conservation {
  import opened Domain
  import opened Fifo
  import opened Portfolios
  import opened Positions
  import opened OrderDesk
  import opened Moves
  import opened Lifecycle
  import opened Accounts
  import opened Clock

  function ExitShares(ts: seq<ClosedTrade>, id: nat): int {
    if ts == [] then 0 else (if ts[0].exitOrder == id then ts[0].quantity else 0) + ExitShares(ts[1..], id)
  }

  function EntryShares(ts: seq<ClosedTrade>, id: nat): int {
    if ts == [] then 0 else (if ts[0].entryOrder == id then ts[0].quantity else 0) + EntryShares(ts[1..], id)
  }

  function PnlOf(ts: seq<ClosedTrade>): real {
    if ts == [] then 0.0 else ts[0].pnl + PnlOf(ts[1..])
  }

  function SignedFill(o: PaperOrder, key: Key): int {
    if o.key == key then o.side.Sign() * o.filledQuantity else 0
  }

  /** Filled BUY quantity minus filled SELL quantity in one instrument. */
  function NetFilled(orders: seq<Order>, key: Key): int {
    if orders == [] then 0
    else SignedFill(orders[|orders| - 1], key) + NetFilled(orders[..|orders| - 1], key)
  }

  /** A lot is what is left of a completed order's fill. */
  predicate LotKnown(orders: seq<Order>, key: Key, lot: Lot, t: int) {
    && lot.orderId < |orders| && lot.timestamp <= t
    && var o := orders[lot.orderId];
       && o.status.Complete? && o.key == key && o.side == lot.side && o.averageFillPrice == Some(lot.price)
       && o.updatedAt == lot.timestamp
  }

  predicate LotsKnown(orders: seq<Order>, key: Key, lots: seq<Lot>, t: int) {
    forall i | 0 <= i < |lots| :: LotKnown(orders, key, lots[i], t)
  }

  predicate AllLotsKnown(d: Desk, t: int) {
    forall k | k in d.book.lots :: LotsKnown(d.orders, k, d.book.lots[k], t)
  }

  /** A booked round trip joins two completed orders of one instrument at their fill prices. */
  predicate TradeKnown(orders: seq<Order>, tr: ClosedTrade) {
    && tr.Valid()
    && tr.entryOrder < |orders| && tr.exitOrder < |orders| && tr.entryOrder != tr.exitOrder
    && var (entry, exit) := (orders[tr.entryOrder], orders[tr.exitOrder]);
       && entry.status.Complete? && exit.status.Complete? && entry.key == exit.key == tr.key
       && entry.side == tr.side == exit.side.Opposite()
       && entry.averageFillPrice == Some(tr.entryPrice) && exit.averageFillPrice == Some(tr.exitPrice)
       && entry.updatedAt == tr.entryTime && exit.updatedAt == tr.exitTime
       && tr.stopLoss == entry.stopLoss && tr.target == entry.target
  }

  predicate TradesKnown(orders: seq<Order>, ts: seq<ClosedTrade>) {
    forall i | 0 <= i < |ts| :: TradeKnown(orders, ts[i])
  }

  /** Where the filled shares of order `id` are. */
  predicate OrderConserved(d: Desk, ts: seq<ClosedTrade>, id: nat)
    requires id < |d.orders|
  {
    ExitShares(ts, id) + EntryShares(ts, id) + SharesOf(d.book.Lots(d.orders[id].key), id)
    == d.orders[id].filledQuantity
  }

  ghost predicate Conserved(d: Desk, ts: seq<ClosedTrade>, t: int) {
    && BookOk(d.book) && AllLotsKnown(d, t) && TradesKnown(d.orders, ts)
    && (forall id: nat | id < |d.orders| :: OrderConserved(d, ts, id))
    && d.ledger.realized == PnlOf(ts)
    && (forall key :: Net(d.book.Lots(key)) == NetFilled(d.orders, key))
  }

  // ---------- Moves that fill nothing ----------

  lemma {:induction false} NetFilledSame(a: seq<Order>, b: seq<Order>, key: Key)
    requires NoFills(a, b)
    ensures NetFilled(a, key) == NetFilled(b, key)
    decreases |b|
  {
    if b == [] {
    } else {
      var init := b[..|b| - 1];
      if |a| == |b| {
        NetFilledSame(a[..|a| - 1], init, key);
      } else {
        NetFilledSame(a, init, key);
        assert b[|b| - 1].filledQuantity == 0;
      }
    }
  }

  lemma {:induction false} NoTrades(ts: seq<ClosedTrade>, id: nat)
    requires forall i | 0 <= i < |ts| :: ts[i].exitOrder != id && ts[i].entryOrder != id
    ensures ExitShares(ts, id) == 0 && EntryShares(ts, id) == 0
  {
    if ts != [] { NoTrades(ts[1..], id); }
  }

  lemma {:induction false} NoShares(lots: seq<Lot>, id: nat)
    requires forall i | 0 <= i < |lots| :: lots[i].orderId != id
    ensures SharesOf(lots, id) == 0
  {
    if lots != [] { NoShares(lots[1..], id); }
  }

  /** A change that fills nothing and moves no money or lots keeps the books. */
  lemma UnfilledKeepsBooks(d: Desk, e: Desk, ts: seq<ClosedTrade>, t: int)
    requires Conserved(d, ts, t) && SameMoney(d, e) && NoFills(d.orders, e.orders)
    ensures Conserved(e, ts, t)
  {
    hide ExitShares, EntryShares, SharesOf, NetFilled, Net, BookOk, PnlOf;
    forall id: nat | id < |e.orders|
      ensures OrderConserved(e, ts, id)
    {
      if id < |d.orders| {
        assert OrderConserved(d, ts, id);
      } else {
        NoTrades(ts, id);
        NoShares(e.book.Lots(e.orders[id].key), id);
      }
    }
    forall key ensures Net(e.book.Lots(key)) == NetFilled(e.orders, key) {
      NetFilledSame(d.orders, e.orders, key);
    }
  }

  // ---------- Fills ----------

  lemma {:induction false} SharesJoin(a: seq<ClosedTrade>, b: seq<ClosedTrade>, id: nat)
    ensures ExitShares(a + b, id) == ExitShares(a, id) + ExitShares(b, id)
    ensures EntryShares(a + b, id) == EntryShares(a, id) + EntryShares(b, id)
    ensures PnlOf(a + b) == PnlOf(a) + PnlOf(b)
  {
    if a == [] {
      assert a + b == b;
    } else {
      SharesJoin(a[1..], b, id);
      assert (a + b)[1..] == a[1..] + b;
    }
  }

  /** The trades of a fill carry the closed pieces' shares and profit. */
  lemma {:induction false} TradesCarryPieces(orders: seq<Order>, exit: nat, key: Key, closed: seq<ClosedLot>, id: nat)
    ensures var ts := TradesOf(orders, exit, key, closed);
            && ExitShares(ts, id) == (if id == exit then ClosedShares(closed) else 0)
            && EntryShares(ts, id) == ClosedOf(closed, id)
            && PnlOf(ts) == TotalPnl(closed)
            && forall i | 0 <= i < |ts| :: ts[i] == TradeOf(orders, exit, key, closed[i])
  {
    if closed != [] { TradesCarryPieces(orders, exit, key, closed[1..], id); }
  }

  /** The shares of every order, before and after a fill of order `exit` in the same instrument. */
  lemma FillMovesShares(lots: seq<Lot>, side: Side, quantity: int, price: real, exit: nat, now: int, id: nat)
    requires quantity > 0 && price > 0.0
    ensures var c := ClosedBy(lots, side, quantity, price, now);
            && SharesOf(QueueAfter(lots, side, quantity, price, exit, now), id) + ClosedOf(c.closed, id)
               == SharesOf(lots, id) + (if id == exit then quantity - ClosedShares(c.closed) else 0)
  {
    var c := ClosedBy(lots, side, quantity, price, now);
    ClosesOldestFirst(lots, quantity, price, now);
    ClosingConservesShares(lots, quantity, price, now, id);
    if c.remaining > 0 {
      Append(c.lots, Lot(exit, now, price, c.remaining, side), id);
    }
  }

  lemma {:induction false} NetFilledUpdate(orders: seq<Order>, id: nat, o: Order, key: Key)
    requires id < |orders|
    ensures NetFilled(orders[id := o], key)
            == NetFilled(orders, key) - SignedFill(orders[id], key) + SignedFill(o, key)
    decreases |orders|
  {
    var n := |orders| - 1;
    if id == n {
      assert orders[id := o][..n] == orders[..n];
    } else {
      NetFilledUpdate(orders[..n], id, o, key);
      assert orders[id := o][..n] == orders[..n][id := o];
    }
  }

  /** The pieces a fill closes come from known lots of the other side. */
  lemma PiecesAreKnown(orders: seq<Order>, key: Key, lots: seq<Lot>, t: int, side: Side, quantity: int,
                       price: real, now: int)
    requires LotsKnown(orders, key, lots, t) && (lots != [] ==> QueueOk(lots))
    ensures var c := ClosedBy(lots, side, quantity, price, now);
            && LotsKnown(orders, key, c.lots, t)
            && forall i | 0 <= i < |c.closed| ::
                 var p := c.closed[i];
                 && LotKnown(orders, key, p.entry, t) && p.entry.side == side.Opposite()
                 && p.quantity > 0 && p.exitPrice == price && p.exitTime == now
                 && p.pnl == Pnl(p.entry, p.quantity, price)
  {
    var c := ClosedBy(lots, side, quantity, price, now);
    if lots != [] && lots[0].side != side {
      PiecesAreSound(lots, quantity, price, now, lots[0].side);
      forall i | 0 <= i < |c.lots| ensures LotKnown(orders, key, c.lots[i], t) {
        assert StemsFrom(c.lots[i], lots);
        var j :| 0 <= j < |lots| && UnitOf(lots[j]) == UnitOf(c.lots[i]);
        assert LotKnown(orders, key, lots[j], t);
      }
      forall i | 0 <= i < |c.closed|
        ensures PieceOk(c.closed[i], lots, price, now) && LotKnown(orders, key, c.closed[i].entry, t)
      {
        assert PieceOk(c.closed[i], lots, price, now);
        var j :| 0 <= j < |lots| && lots[j] == c.closed[i].entry;
        assert LotKnown(orders, key, lots[j], t);
      }
    }
  }

  lemma TradeIsKnown(orders: seq<Order>, after: seq<Order>, exit: nat, key: Key, piece: ClosedLot, t: int, now: int)
    requires t <= now && exit < |orders| == |after| && !orders[exit].status.Complete?
    requires after == orders[exit := after[exit]]
    requires LotKnown(orders, key, piece.entry, t)
    requires after[exit].status.Complete? && after[exit].key == key && after[exit].updatedAt == now
    requires after[exit].side == piece.entry.side.Opposite() && after[exit].averageFillPrice == Some(piece.exitPrice)
    requires piece.quantity > 0 && piece.exitPrice > 0.0 && piece.exitTime == now
    requires piece.pnl == Pnl(piece.entry, piece.quantity, piece.exitPrice)
    ensures TradeKnown(after, TradeOf(orders, exit, key, piece))
  {
  }

  /** The lots and trades that were known before a fill stay known after it. */
  lemma FilledOrderIsNew(orders: seq<Order>, after: seq<Order>, exit: nat, key: Key, lots: seq<Lot>,
                         ts: seq<ClosedTrade>, t: int, now: int)
    requires t <= now && exit < |orders| == |after| && !orders[exit].status.Complete?
    requires after == orders[exit := after[exit]]
    ensures LotsKnown(orders, key, lots, t) ==> LotsKnown(after, key, lots, now)
    ensures TradesKnown(orders, ts) ==> TradesKnown(after, ts)
  {
  }

  /** No lot and no trade names an order that has not filled. */
  lemma UnfilledIsUnnamed(d: Desk, ts: seq<ClosedTrade>, t: int, id: nat, key: Key)
    requires AllLotsKnown(d, t) && TradesKnown(d.orders, ts)
    requires id < |d.orders| && !d.orders[id].status.Complete?
    ensures SharesOf(d.book.Lots(key), id) == 0
    ensures ExitShares(ts, id) == 0 && EntryShares(ts, id) == 0
  {
    NoTrades(ts, id);
    NoShares(d.book.Lots(key), id);
  }

  /** An order of another instrument has no shares in this queue, so closing it closes none of its. */
  lemma ForeignOrder(d: Desk, t: int, id: nat, key: Key)
    requires AllLotsKnown(d, t) && id < |d.orders| && d.orders[id].key != key
    ensures SharesOf(d.book.Lots(key), id) == 0
  {
    NoShares(d.book.Lots(key), id);
  }

  lemma {:induction false} ClosedOfIsNonNegative(closed: seq<ClosedLot>, id: nat)
    requires forall i | 0 <= i < |closed| :: closed[i].quantity > 0
    ensures ClosedOf(closed, id) >= 0
  {
    if closed != [] { ClosedOfIsNonNegative(closed[1..], id); }
  }

  lemma FillConservesOrder(d: Desk, ts: seq<ClosedTrade>, t: int, id: nat, price: real, now: int, j: nat)
    requires Conserved(d, ts, t) && Pays(d, id, price, now) && j < |d.orders|
    ensures var x := Filling(d, id, price, now);
            OrderConserved(x.desk, ts + x.closed, j)
  {
    hide ExitShares, EntryShares, SharesOf, NetFilled, Net, Fits, PnlOf, ClosedBy, QueueAfter, Filled, TradesOf,
         ClosedOf, ClosedShares, Paid, Unreserved, Cost, TradesKnown;
    var o := Fired(d, id, price, now);
    var x := Filling(d, id, price, now);
    var lots := d.book.Lots(o.key);
    var c := ClosedBy(lots, o.side, o.quantity, price, now);
    UnreservedKeeps(d, id);
    FillIsOk(d.book, o.key, o.side, o.quantity, price, id, now);
    FillMovesShares(lots, o.side, o.quantity, price, id, now, j);
    TradesCarryPieces(d.orders, id, o.key, c.closed, j);
    SharesJoin(ts, x.closed, j);
    assert OrderConserved(d, ts, j);
    if j == id || d.orders[j].key != o.key {
      PiecesAreKnown(d.orders, o.key, lots, t, o.side, o.quantity, price, now);
      ClosedOfIsNonNegative(c.closed, j);
      if j == id {
        UnfilledIsUnnamed(d, ts, t, id, o.key);
        SharesAreNonNegative(QueueAfter(lots, o.side, o.quantity, price, id, now), j);
        assert x.desk.book.Lots(o.key) == QueueAfter(lots, o.side, o.quantity, price, id, now);
        FilledClosesNoneOfItself(d.orders, o.key, c.closed, id, t);
      } else {
        ForeignOrder(d, t, j, o.key);
        SharesAreNonNegative(QueueAfter(lots, o.side, o.quantity, price, id, now), j);
        LotsElsewhere(d.book, x.desk.book, o.key, d.orders[j].key);
      }
    }
  }

  lemma UnreservedKeeps(d: Desk, id: nat)
    ensures var u := Unreserved(d, id).desk;
            u.orders == d.orders && SameMoney(d, u)
  {
  }

  lemma SharesAreNonNegative(lots: seq<Lot>, id: nat)
    ensures SharesOf(lots, id) >= 0
  {
  }

  lemma {:induction false} FilledClosesNoneOfItself(orders: seq<Order>, key: Key, closed: seq<ClosedLot>, id: nat,
                                                    t: int)
    requires id < |orders| && !orders[id].status.Complete?
    requires forall i | 0 <= i < |closed| :: LotKnown(orders, key, closed[i].entry, t)
    ensures ClosedOf(closed, id) == 0
  {
    if closed != [] { FilledClosesNoneOfItself(orders, key, closed[1..], id, t); }
  }

  lemma LotsElsewhere(a: Book, b: Book, key: Key, other: Key)
    requires SameElsewhere(a, b, key) && other != key
    ensures a.Lots(other) == b.Lots(other)
  {
    assert other in a.lots - {key} <==> other in b.lots - {key};
    if other in a.lots { assert (a.lots - {key})[other] == (b.lots - {key})[other]; }
  }

  lemma FillKeepsLotsKnown(d: Desk, ts: seq<ClosedTrade>, t: int, id: nat, price: real, now: int)
    requires Conserved(d, ts, t) && Pays(d, id, price, now) && t <= now
    ensures AllLotsKnown(Filling(d, id, price, now).desk, now)
  {
    hide Net, NetFilled, Fits, OrderConserved, TradesKnown, Filled, PnlOf, Cost, Paid, Unreserved, TradesOf, CloseFifo;
    var o := Fired(d, id, price, now);
    var x := Filling(d, id, price, now);
    UnreservedKeeps(d, id);
    FillIsOk(d.book, o.key, o.side, o.quantity, price, id, now);
    PiecesAreKnown(d.orders, o.key, d.book.Lots(o.key), t, o.side, o.quantity, price, now);
    forall k | k in x.desk.book.lots ensures LotsKnown(x.desk.orders, k, x.desk.book.lots[k], now) {
      if k == o.key {
        var left := ClosedBy(d.book.Lots(k), o.side, o.quantity, price, now).lots;
        FilledOrderIsNew(d.orders, x.desk.orders, id, k, left, ts, t, now);
      } else {
        LotsElsewhere(d.book, x.desk.book, o.key, k);
        FilledOrderIsNew(d.orders, x.desk.orders, id, k, x.desk.book.lots[k], ts, t, now);
      }
    }
  }

  lemma FillKeepsTradesKnown(d: Desk, ts: seq<ClosedTrade>, t: int, id: nat, price: real, now: int)
    requires Conserved(d, ts, t) && Pays(d, id, price, now) && t <= now
    ensures var x := Filling(d, id, price, now); TradesKnown(x.desk.orders, ts + x.closed)
  {
    hide Net, NetFilled, Fits, OrderConserved, Filled, PnlOf, Cost, Paid, Unreserved, TradesOf, CloseFifo, TradeKnown,
         LotKnown, ExitShares, EntryShares;
    var o := Fired(d, id, price, now);
    var x := Filling(d, id, price, now);
    UnreservedKeeps(d, id);
    var c := ClosedBy(d.book.Lots(o.key), o.side, o.quantity, price, now);
    FillIsOk(d.book, o.key, o.side, o.quantity, price, id, now);
    PiecesAreKnown(d.orders, o.key, d.book.Lots(o.key), t, o.side, o.quantity, price, now);
    TradesCarryPieces(d.orders, id, o.key, c.closed, id);
    FilledOrderIsNew(d.orders, x.desk.orders, id, o.key, [], ts, t, now);
    forall i | 0 <= i < |x.closed| ensures TradeKnown(x.desk.orders, x.closed[i]) {
      TradeIsKnown(d.orders, x.desk.orders, id, o.key, c.closed[i], t, now);
    }
  }

  /** A fill keeps the books: lots, trades, every order's shares, profit and net position. */
  lemma FillConserves(d: Desk, ts: seq<ClosedTrade>, t: int, id: nat, price: real, now: int)
    requires Conserved(d, ts, t) && Pays(d, id, price, now) && t <= now
    ensures var x := Filling(d, id, price, now); Conserved(x.desk, ts + x.closed, now)
  {
    hide Fits, LotsKnown, LotKnown, TradeKnown, Filled, Paid, Unreserved, TradesOf, ExitShares, EntryShares, PnlOf,
         TotalPnl, ClosedBy, QueueAfter, NetFilled, Net, SharesOf, Cost, TradesKnown, AllLotsKnown;
    var o := Fired(d, id, price, now);
    var x := Filling(d, id, price, now);
    UnreservedKeeps(d, id);
    PaidKeepsProfit(Unreserved(d, id).desk.ledger, o, price);
    var c := ClosedBy(d.book.Lots(o.key), o.side, o.quantity, price, now);
    FillIsOk(d.book, o.key, o.side, o.quantity, price, id, now);
    FillMovesQueue(d.book.Lots(o.key), o.side, o.quantity, price, id, now);
    FillKeepsLotsKnown(d, ts, t, id, price, now);
    FillKeepsTradesKnown(d, ts, t, id, price, now);
    TradesCarryPieces(d.orders, id, o.key, c.closed, id);
    SharesJoin(ts, x.closed, id);
    forall j: nat | j < |x.desk.orders| ensures OrderConserved(x.desk, ts + x.closed, j) {
      FillConservesOrder(d, ts, t, id, price, now, j);
    }
    forall key ensures Net(x.desk.book.Lots(key)) == NetFilled(x.desk.orders, key) {
      NetFilledUpdate(d.orders, id, Completed(o, price, now), key);
      if key != o.key { LotsElsewhere(d.book, x.desk.book, o.key, key); }
    }
  }

  lemma PaidKeepsProfit(l: Ledger, o: PaperOrder, price: real)
    requires Paid(l, o, price).Ok?
    ensures Paid(l, o, price).value.realized == l.realized
  {
  }

  lemma ConservedLater(d: Desk, ts: seq<ClosedTrade>, t: int, now: int)
    requires Conserved(d, ts, t) && t <= now
    ensures Conserved(d, ts, now)
  {
  }

  lemma TradeConserves(d: Desk, ts: seq<ClosedTrade>, t: int, id: nat, price: real, now: int)
    requires Conserved(d, ts, t) && Pays(d, id, price, now) && t <= now
    ensures Conserved(Exchanging(d, id, price, now).desk, ts + Filling(d, id, price, now).closed, now)
  {
    hide Filling, Exchanging, SiblingsCancelled, Conserved, NoFills;
    var x := Filling(d, id, price, now);
    FillConserves(d, ts, t, id, price, now);
    FillingIsTrade(d, id, price, now);
    var e := SiblingsCancelled(x.desk, id, d.orders[id].ocoGroup, 0, now).desk;
    SiblingsKeepMoney(x.desk, id, d.orders[id].ocoGroup, 0, now);
    SiblingsFillNothing(x.desk, id, d.orders[id].ocoGroup, 0, now);
    UnfilledKeepsBooks(x.desk, e, ts + x.closed, now);
  }

  lemma MarkConserves(d: Desk, ts: seq<ClosedTrade>, t: int, key: Key, price: real, now: int)
    requires Conserved(d, ts, t) && price > 0.0
    ensures Conserved(d.(book := Marked(d.book, key, price, now)), ts, t)
  {
    hide ExitShares, EntryShares, PnlOf, NetFilled, TradeKnown, LotKnown, Fits, Shares, PositionOf;
    var e := d.(book := Marked(d.book, key, price, now));
    if d.book.Lots(key) != [] {
      RebuiltIsOk(d.book, key, d.book.Lots(key), price, now);
      assert e.book.lots == d.book.lots;
    }
    forall id: nat | id < |e.orders| ensures OrderConserved(e, ts, id) {
      assert OrderConserved(d, ts, id);
    }
  }

  /** Lots of known orders were entered no later than the clock reading of the books. */
  lemma LotsAreCurrent(d: Desk, ts: seq<ClosedTrade>, t: int, now: int)
    requires Conserved(d, ts, t) && t <= now
    ensures Current(d.book, now)
  {
    hide ExitShares, EntryShares, PnlOf, NetFilled, TradeKnown, Net, Fits;
    forall k | k in d.book.lots ensures NoneAfter(d.book.lots[k], now) {
      assert LotsKnown(d.orders, k, d.book.lots[k], t);
      forall i | 0 <= i < |d.book.lots[k]| ensures d.book.lots[k][i].timestamp <= now {
        assert LotKnown(d.orders, k, d.book.lots[k][i], t);
      }
    }
  }

  /** Every move, broken or not, keeps the books, counting the trades it books. */
  lemma MoveConserves(d: Desk, mv: Move, ts: seq<ClosedTrade>, t: int)
    requires Enabled(d, mv) && Conserved(d, ts, t) && t <= mv.now
    ensures Conserved(Do(d, mv), ts + Books(d, mv), mv.now)
  {
    hide Conserved, Exchanging, NoFills;
    LotsAreCurrent(d, ts, t, mv.now);
    MoveKeepsCurrent(d, mv);
    match mv
    case Trade(id, price, now) =>
      TradeConserves(d, ts, t, id, price, now);
    case Strand(id, price, now) =>
      TradeConserves(d, ts, t, id, price, now);
    case Mark(key, price, now) =>
      assert ts + [] == ts;
      MarkConserves(d, ts, t, key, price, now);
      ConservedLater(Do(d, mv), ts, t, mv.now);
    case Spoil(_, _, _) =>
      assert false;
    case _ =>
      assert ts + [] == ts;
      OtherMovesKeepMoney(d, mv);
      OtherMovesFillNothing(d, mv);
      UnfilledKeepsBooks(d, Do(d, mv), ts, t);
      ConservedLater(Do(d, mv), ts, t, mv.now);
  }

  predicate TimelyMoves(ms: seq<Move>, start: int) {
    ms != [] ==> start <= ms[0].now && TimelyMoves(ms[1..], ms[0].now)
  }

  lemma {:induction false} PlayConserves(d: Desk, ms: seq<Move>, ts: seq<ClosedTrade>, t: int, until: int)
    requires Legal(d, ms) && Conserved(d, ts, t) && TimelyMoves(ms, t)
    requires t <= until && forall i | 0 <= i < |ms| :: ms[i].now <= until
    ensures Conserved(Play(d, ms), ts + Booked(d, ms), until)
    decreases |ms|
  {
    hide Enabled, Do, Conserved, Books;
    if ms == [] {
      assert ts + [] == ts;
      ConservedLater(d, ts, t, until);
    } else {
      MoveConserves(d, ms[0], ts, t);
      PlayConserves(Do(d, ms[0]), ms[1..], ts + Books(d, ms[0]), ms[0].now, until);
      var rest := Booked(Do(d, ms[0]), ms[1..]);
      assert ts + Books(d, ms[0]) + rest == ts + (Books(d, ms[0]) + rest);
    }
  }
}
