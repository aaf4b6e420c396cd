/** The FIFO lot queue behind one position, and what it means: a queue of
    single shares, closed oldest first. */
module Fifo {
  import opened Domain

  datatype RawLot = Lot(orderId: nat, timestamp: int, price: real, quantity: int, side: Side)

  /** One open entry fill. */
  type Lot = l: RawLot | l.quantity > 0 && l.price > 0.0 witness Lot(0, 0, 1.0, 1, Buy)

  /** One entry lot, fully or partly closed by one fill. */
  datatype ClosedLot = ClosedLot(entry: Lot, quantity: int, exitPrice: real, exitTime: int, pnl: real)

  datatype Closing = Closing(lots: seq<Lot>, remaining: int, closed: seq<ClosedLot>)

  /** Profit of closing `quantity` shares of `lot` at `price`. */
  function Pnl(lot: Lot, quantity: int, price: real): real {
    if lot.side.Buy? then Cost(quantity, price - lot.price) else Cost(quantity, lot.price - price)
  }

  /** The clock was behind the lot's when it was closed. */
  predicate Late(c: ClosedLot) { c.exitTime < c.entry.timestamp }

  predicate AnyLate(closed: seq<ClosedLot>) { closed != [] && (Late(closed[0]) || AnyLate(closed[1..])) }

  /** The pieces up to the first late one, and that one. */
  function UntilLate(closed: seq<ClosedLot>): seq<ClosedLot> {
    if closed == [] || Late(closed[0]) then closed[..if closed == [] then 0 else 1]
    else [closed[0]] + UntilLate(closed[1..])
  }

  /** Close lots from the oldest on until `remaining` shares are used up. */
  function CloseFifo(lots: seq<Lot>, remaining: int, price: real, now: int): Closing {
    if remaining <= 0 || lots == [] then Closing(lots, remaining, [])
    else
      var lot := lots[0];
      var q := if lot.quantity <= remaining then lot.quantity else remaining;
      var piece := ClosedLot(lot, q, price, now, Pnl(lot, q, price));
      if q == lot.quantity then
        var rest := CloseFifo(lots[1..], remaining - q, price, now);
        rest.(closed := [piece] + rest.closed)
      else
        Closing([lot.(quantity := lot.quantity - q)] + lots[1..], 0, [piece])
  }

  /** The in-place loop of the position manager. */
  method CloseLotsFifo(start: seq<Lot>, quantity: int, price: real, now: int)
    returns (lots: seq<Lot>, remaining: int, closed: seq<ClosedLot>)
    ensures Closing(lots, remaining, closed) == CloseFifo(start, quantity, price, now)
  {
    lots, remaining, closed := start, quantity, [];
    while remaining > 0 && lots != []
      invariant CloseFifo(start, quantity, price, now)
             == var rest := CloseFifo(lots, remaining, price, now);
                rest.(closed := closed + rest.closed)
      decreases if remaining > 0 then remaining else 0
    {
      var lot := lots[0];
      var q := if lot.quantity <= remaining then lot.quantity else remaining;
      var piece := ClosedLot(lot, q, price, now, Pnl(lot, q, price));
      ghost var rest := CloseFifo(lots, remaining, price, now).closed;
      assert rest == [piece] + rest[1..];
      assert closed + rest == (closed + [piece]) + rest[1..];
      closed := closed + [piece];
      remaining := remaining - q;
      if q == lot.quantity {
        lots := lots[1..];
      } else {
        lots := [lot.(quantity := lot.quantity - q)] + lots[1..];
      }
    }
    assert closed + [] == closed;
  }

  // ---------- Measures of a queue ----------

  function Shares(lots: seq<Lot>): (n: int)
    ensures n >= |lots|
  {
    if lots == [] then 0 else lots[0].quantity + Shares(lots[1..])
  }

  /** Shares of the queue that order `id` bought or sold. */
  function SharesOf(lots: seq<Lot>, id: nat): (n: int)
    ensures n >= 0
  {
    if lots == [] then 0
    else (if lots[0].orderId == id then lots[0].quantity else 0) + SharesOf(lots[1..], id)
  }

  /** What the open shares cost. */
  function Basis(lots: seq<Lot>): (c: real)
    ensures c >= 0.0
    ensures lots != [] ==> c > 0.0
  {
    if lots == [] then 0.0 else Cost(lots[0].quantity, lots[0].price) + Basis(lots[1..])
  }

  predicate OneSided(lots: seq<Lot>, side: Side) { forall i | 0 <= i < |lots| :: lots[i].side == side }

  function ClosedShares(closed: seq<ClosedLot>): int {
    if closed == [] then 0 else closed[0].quantity + ClosedShares(closed[1..])
  }

  function ClosedOf(closed: seq<ClosedLot>, id: nat): int {
    if closed == [] then 0
    else (if closed[0].entry.orderId == id then closed[0].quantity else 0) + ClosedOf(closed[1..], id)
  }

  function TotalPnl(closed: seq<ClosedLot>): real {
    if closed == [] then 0.0 else closed[0].pnl + TotalPnl(closed[1..])
  }

  // ---------- The queue of single shares ----------

  datatype Unit = Unit(orderId: nat, timestamp: int, price: real, side: Side)

  function Repeat<T>(x: T, n: nat): (s: seq<T>)
    ensures |s| == n
    ensures forall i | 0 <= i < n :: s[i] == x
  {
    seq(n, _ => x)
  }

  function UnitOf(lot: RawLot): Unit { Unit(lot.orderId, lot.timestamp, lot.price, lot.side) }

  function Units(lots: seq<Lot>): (u: seq<Unit>)
    ensures |u| == Shares(lots)
  {
    if lots == [] then [] else Repeat(UnitOf(lots[0]), lots[0].quantity) + Units(lots[1..])
  }

  /** The shares a list of closed lots stands for. */
  function ClosedUnits(closed: seq<ClosedLot>): seq<Unit> {
    if closed == [] then []
    else Repeat(UnitOf(closed[0].entry), if closed[0].quantity < 0 then 0 else closed[0].quantity)
         + ClosedUnits(closed[1..])
  }

  lemma UnitsOfFirst(lot: Lot, rest: seq<Lot>)
    ensures Units([lot] + rest) == Repeat(UnitOf(lot), lot.quantity) + Units(rest)
    ensures Shares([lot] + rest) == lot.quantity + Shares(rest)
  {
    assert ([lot] + rest)[1..] == rest;
  }

  lemma ClosedUnitsOfFirst(c: ClosedLot, rest: seq<ClosedLot>)
    requires c.quantity >= 0
    ensures ClosedUnits([c] + rest) == Repeat(UnitOf(c.entry), c.quantity) + ClosedUnits(rest)
  {
    assert ([c] + rest)[1..] == rest;
  }

  lemma RepeatSplits(x: Unit, a: nat, b: nat)
    ensures Repeat(x, a + b) == Repeat(x, a) + Repeat(x, b)
  {
  }

  lemma SliceJoin(a: seq<Unit>, b: seq<Unit>, m: nat)
    requires m <= |b|
    ensures (a + b)[..|a| + m] == a + b[..m] && (a + b)[|a| + m..] == b[m..]
  {
  }

  /** The shares that close when `q` are asked for. */
  function Closable(lots: seq<Lot>, q: nat): nat { if q <= Shares(lots) then q else Shares(lots) }

  lemma FirstCloses(lot: Lot, rest: seq<Lot>, q: nat, price: real, now: int)
    requires lot.quantity <= q
    requires var d := CloseFifo(rest, q - lot.quantity, price, now);
             var m := Closable(rest, q - lot.quantity);
             ClosedUnits(d.closed) == Units(rest)[..m] && Units(d.lots) == Units(rest)[m..]
    ensures var d := CloseFifo(rest, q - lot.quantity, price, now);
            var piece := ClosedLot(lot, lot.quantity, price, now, Pnl(lot, lot.quantity, price));
            var n := lot.quantity + Closable(rest, q - lot.quantity);
            && n <= |Units([lot] + rest)|
            && ClosedUnits([piece] + d.closed) == Units([lot] + rest)[..n]
            && Units(d.lots) == Units([lot] + rest)[n..]
  {
    hide Repeat, Units, ClosedUnits, CloseFifo;
    var d := CloseFifo(rest, q - lot.quantity, price, now);
    UnitsOfFirst(lot, rest);
    ClosedUnitsOfFirst(ClosedLot(lot, lot.quantity, price, now, Pnl(lot, lot.quantity, price)), d.closed);
    SliceJoin(Repeat(UnitOf(lot), lot.quantity), Units(rest), Closable(rest, q - lot.quantity));
  }

  lemma FirstShrinks(lots: seq<Lot>, q: nat, price: real, now: int)
    requires lots != [] && 0 < q < lots[0].quantity
    ensures var c := CloseFifo(lots, q, price, now);
            ClosedUnits(c.closed) == Units(lots)[..q] && Units(c.lots) == Units(lots)[q..] && c.lots != []
  {
    hide Repeat;
    var lot, rest := lots[0], lots[1..];
    var left: Lot := lot.(quantity := lot.quantity - q);
    var piece := ClosedLot(lot, q, price, now, Pnl(lot, q, price));
    assert lots == [lot] + rest;
    UnitsOfFirst(lot, rest);
    UnitsOfFirst(left, rest);
    ClosedUnitsOfFirst(piece, []);
    RepeatSplits(UnitOf(lot), q, left.quantity);
    assert [piece] + [] == [piece] && ClosedUnits([]) == [];
    hide Units, ClosedUnits;
    var taken, kept := Repeat(UnitOf(lot), q), Repeat(UnitOf(lot), left.quantity);
    assert taken + kept + Units(rest) == taken + (kept + Units(rest));
    SliceJoin(taken, kept + Units(rest), 0);
  }

  /** FIFO refinement: closing `q` shares takes exactly the `q` oldest single
      shares, or all of them, and leaves the rest of the queue as it was. */
  lemma {:induction false} ClosesOldestFirst(lots: seq<Lot>, q: nat, price: real, now: int)
    ensures var c := CloseFifo(lots, q, price, now);
            var n := Closable(lots, q);
            && ClosedUnits(c.closed) == Units(lots)[..n]
            && Units(c.lots) == Units(lots)[n..]
            && c.remaining == q - n
            && (c.remaining > 0 ==> c.lots == [])
            && (c.lots == [] <==> q >= Shares(lots))
  {
    hide Units, ClosedUnits;
    if q == 0 || lots == [] {
      NothingCloses(lots);
    } else if lots[0].quantity <= q {
      ClosesOldestFirst(lots[1..], q - lots[0].quantity, price, now);
      assert lots == [lots[0]] + lots[1..];
      FirstCloses(lots[0], lots[1..], q, price, now);
    } else {
      FirstShrinks(lots, q, price, now);
    }
  }

  lemma NothingCloses(lots: seq<Lot>)
    ensures ClosedUnits([]) == Units(lots)[..0] && Units(lots) == Units(lots)[0..] && Units([]) == []
  {
  }

  predicate PieceOk(p: ClosedLot, lots: seq<Lot>, price: real, now: int) {
    && 0 < p.quantity && p.exitPrice == price && p.exitTime == now && p.entry in lots
    && p.pnl == Pnl(p.entry, p.quantity, price)
  }

  predicate StemsFrom(l: Lot, lots: seq<Lot>) { exists i | 0 <= i < |lots| :: UnitOf(lots[i]) == UnitOf(l) }

  /** Every closed piece is part of a lot of the queue, at the exit price, with the right profit. */
  lemma {:induction false} PiecesAreSound(lots: seq<Lot>, q: int, price: real, now: int, side: Side)
    requires OneSided(lots, side)
    ensures var c := CloseFifo(lots, q, price, now);
            && OneSided(c.lots, side)
            && (forall i | 0 <= i < |c.closed| :: PieceOk(c.closed[i], lots, price, now))
            && (forall i | 0 <= i < |c.lots| :: StemsFrom(c.lots[i], lots))
  {
    hide Pnl;
    if q <= 0 || lots == [] {
      forall i | 0 <= i < |lots| ensures StemsFrom(lots[i], lots) {
      }
    } else {
      var lot, rest := lots[0], lots[1..];
      var c := CloseFifo(lots, q, price, now);
      assert lots == [lot] + rest;
      if lot.quantity <= q {
        PiecesAreSound(rest, q - lot.quantity, price, now, side);
        var d := CloseFifo(rest, q - lot.quantity, price, now);
        forall i | 0 <= i < |c.closed| ensures PieceOk(c.closed[i], lots, price, now) {
          if i > 0 { assert PieceOk(d.closed[i - 1], rest, price, now); }
        }
        forall i | 0 <= i < |c.lots| ensures StemsFrom(c.lots[i], lots) {
          var j :| 0 <= j < |rest| && UnitOf(rest[j]) == UnitOf(d.lots[i]);
          assert lots[j + 1] == rest[j];
        }
      } else {
        forall i | 0 <= i < |c.lots| ensures StemsFrom(c.lots[i], lots) {
          assert UnitOf(lots[i]) == UnitOf(c.lots[i]);
        }
      }
    }
  }

  /** Closing moves shares of each order from the queue to the closed pieces. */
  lemma {:induction false} ClosingConservesShares(lots: seq<Lot>, q: nat, price: real, now: int, id: nat)
    ensures var c := CloseFifo(lots, q, price, now);
            && SharesOf(c.lots, id) + ClosedOf(c.closed, id) == SharesOf(lots, id)
            && Shares(c.lots) + ClosedShares(c.closed) == Shares(lots)
            && c.remaining + ClosedShares(c.closed) == q
  {
    if q > 0 && lots != [] {
      if lots[0].quantity <= q {
        ClosingConservesShares(lots[1..], q - lots[0].quantity, price, now, id);
      } else {
        assert CloseFifo(lots, q, price, now).lots[1..] == lots[1..];
      }
    }
  }

  lemma CostSplits(a: int, b: int, price: real)
    ensures Cost(a + b, price) == Cost(a, price) + Cost(b, price)
  {
    assert (a + b) as real == a as real + b as real;
  }

  lemma CostOfGain(q: int, exit: real, entry: real)
    ensures Cost(q, exit - entry) == Cost(q, exit) - Cost(q, entry)
  {
  }

  /** `gain` with the sign of the side that was closed. */
  function Signed(side: Side, gain: real): real { if side.Buy? then gain else -gain }

  /** Closing one piece realizes its exit value minus its share of the basis. */
  lemma PieceRealizes(lot: Lot, n: int, price: real)
    ensures Pnl(lot, n, price) == Signed(lot.side, Cost(n, price) - Cost(n, lot.price))
  {
    CostOfGain(n, price, lot.price);
    CostOfGain(n, lot.price, price);
  }

  lemma BasisOfFirst(lot: Lot, rest: seq<Lot>)
    ensures Basis([lot] + rest) == Cost(lot.quantity, lot.price) + Basis(rest)
  {
    assert ([lot] + rest)[1..] == rest;
  }

  lemma PnlOfFirst(c: ClosedLot, rest: seq<ClosedLot>)
    ensures TotalPnl([c] + rest) == c.pnl + TotalPnl(rest)
  {
    assert ([c] + rest)[1..] == rest;
  }

  lemma UntilLateOfFirst(closed: seq<ClosedLot>)
    requires closed != []
    ensures TotalPnl(UntilLate(closed))
            == closed[0].pnl + if Late(closed[0]) then 0.0 else TotalPnl(UntilLate(closed[1..]))
  {
    NoPnl();
    if Late(closed[0]) {
      PnlOfFirst(closed[0], []);
      assert UntilLate(closed) == [closed[0]] + [];
    } else {
      PnlOfFirst(closed[0], UntilLate(closed[1..]));
    }
  }

  lemma NoPnl()
    ensures TotalPnl([]) == 0.0
  {
  }

  lemma CostIsPositive(q: int, price: real)
    requires q > 0 && price > 0.0
    ensures Cost(q, price) > 0.0
  {
  }

  lemma NoCost(price: real)
    ensures Cost(0, price) == 0.0
  {
  }

  /** Closing realizes exactly the difference between the exit value and the basis given up. */
  lemma {:induction false} ClosingRealizes(lots: seq<Lot>, q: nat, price: real, now: int, side: Side)
    requires OneSided(lots, side)
    ensures var c := CloseFifo(lots, q, price, now);
            && Basis(c.lots) <= Basis(lots)
            && TotalPnl(c.closed)
               == Signed(side, Cost(q - c.remaining, price) - (Basis(lots) - Basis(c.lots)))
  {
    hide Basis, TotalPnl, Cost, Pnl;
    NoPnl();
    NoCost(price);
    if q > 0 && lots != [] {
      var lot, rest := lots[0], lots[1..];
      var n := if lot.quantity <= q then lot.quantity else q;
      assert lots == [lot] + rest;
      var piece := ClosedLot(lot, n, price, now, Pnl(lot, n, price));
      PieceRealizes(lot, n, price);
      BasisOfFirst(lot, rest);
      if lot.quantity <= q {
        ClosingRealizes(rest, q - n, price, now, side);
        var d := CloseFifo(rest, q - n, price, now);
        PnlOfFirst(piece, d.closed);
        CostSplits(n, q - n - d.remaining, price);
        CostIsPositive(lot.quantity, lot.price);
      } else {
        var left: Lot := lot.(quantity := lot.quantity - n);
        BasisOfFirst(left, rest);
        PnlOfFirst(piece, []);
        assert [piece] + [] == [piece];
        CostSplits(n, left.quantity, lot.price);
        CostIsPositive(n, lot.price);
      }
    }
  }

  lemma {:induction false} Append(lots: seq<Lot>, lot: Lot, id: nat)
    ensures var l := lots + [lot];
            && Shares(l) == Shares(lots) + lot.quantity
            && SharesOf(l, id) == SharesOf(lots, id) + (if lot.orderId == id then lot.quantity else 0)
            && Basis(l) == Basis(lots) + Cost(lot.quantity, lot.price)
            && Units(l) == Units(lots) + Repeat(UnitOf(lot), lot.quantity)
  {
    if lots == [] {
      assert [lot][1..] == [];
      assert [] + [lot] == [lot];
    } else {
      Append(lots[1..], lot, id);
      assert (lots + [lot])[1..] == lots[1..] + [lot];
    }
  }
}
