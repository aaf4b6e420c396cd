/** Positions by instrument: FIFO lots, the visible net position, and the
    profit realized since the position was opened. */
module Positions {
  import opened Domain
  import opened Fifo
  import opened Sums

  datatype Book = Book(lots: map<Key, seq<Lot>>, positions: map<Key, PaperPosition>,
                       realizedSinceOpen: map<Key, real>)
  {
    function Lots(key: Key): seq<Lot> { if key in lots then lots[key] else [] }
  }

  const EMPTY: Book := Book(map[], map[], map[])

  datatype FillOutcome = FillOutcome(book: Book, closed: seq<ClosedLot>)

  function Oldest(lots: seq<Lot>): (t: int)
    requires lots != []
    ensures forall l | l in lots :: t <= l.timestamp
    ensures exists l :: l in lots && t == l.timestamp
  {
    if |lots| == 1 then assert lots[0] in lots; lots[0].timestamp
    else
      var rest := Oldest(lots[1..]);
      assert lots == [lots[0]] + lots[1..];
      if lots[0].timestamp < rest then lots[0].timestamp else rest
  }

  function PositionOf(key: Key, lots: seq<Lot>, mark: real, realized: real, now: int): PaperPosition
    requires lots != []
  {
    var net := Shares(lots);
    var signed := if lots[0].side.Buy? then net else -net;
    var average := Basis(lots) / net as real;
    PaperPosition(key, signed, average, mark, realized, Cost(signed, mark - average), Oldest(lots), now)
  }

  function Rebuilt(b: Book, key: Key, lots: seq<Lot>, mark: real, now: int): Book {
    if lots == [] then
      Book(b.lots - {key}, b.positions - {key}, b.realizedSinceOpen - {key})
    else
      b.(lots := b.lots[key := lots],
         positions := b.positions[key := PositionOf(key, lots, mark, At(b.realizedSinceOpen, key), now)])
  }

  /** What a fill closes: nothing unless it trades against the open side. */
  function ClosedBy(lots: seq<Lot>, side: Side, quantity: int, price: real, now: int): Closing {
    if lots != [] && lots[0].side != side then CloseFifo(lots, quantity, price, now)
    else Closing(lots, quantity, [])
  }

  /** The queue after a fill: what the closing left, and a new lot for the rest. */
  function QueueAfter(lots: seq<Lot>, side: Side, quantity: int, price: real, orderId: nat, now: int): seq<Lot>
    requires price > 0.0
  {
    var c := ClosedBy(lots, side, quantity, price, now);
    if c.remaining > 0 then c.lots + [Lot(orderId, now, price, c.remaining, side)] else c.lots
  }

  /** The shares a fill closes: none unless it trades against the open side. */
  function Closed(lots: seq<Lot>, side: Side, quantity: nat): nat {
    if lots != [] && lots[0].side != side then Closable(lots, quantity) else 0
  }

  /** A whole fill on the queue of single shares: the oldest ones leave, as the
      closed pieces, and what the fill has left over joins on its own side. */
  lemma FillMovesUnits(lots: seq<Lot>, side: Side, quantity: nat, price: real, orderId: nat, now: int)
    requires price > 0.0
    ensures var n := Closed(lots, side, quantity);
            && n <= quantity && n <= |Units(lots)|
            && ClosedUnits(ClosedBy(lots, side, quantity, price, now).closed) == Units(lots)[..n]
            && Units(QueueAfter(lots, side, quantity, price, orderId, now))
               == Units(lots)[n..] + Repeat(Unit(orderId, now, price, side), quantity - n)
            && (lots != [] && lots[0].side != side && n < quantity ==> n == |Units(lots)|)
  {
    hide Units, ClosedUnits, CloseFifo, Repeat;
    var c := ClosedBy(lots, side, quantity, price, now);
    NothingCloses(lots);
    if lots != [] && lots[0].side != side { ClosesOldestFirst(lots, quantity, price, now); }
    if c.remaining > 0 { Append(c.lots, Lot(orderId, now, price, c.remaining, side), 0); }
    else { assert Repeat(Unit(orderId, now, price, side), 0) == []; }
  }

  function Filled(b: Book, key: Key, side: Side, quantity: int, price: real, orderId: nat, now: int): FillOutcome
    requires price > 0.0
  {
    var lots := b.Lots(key);
    var c := ClosedBy(lots, side, quantity, price, now);
    var startsFresh := lots == [] || c.lots == [];
    var realized := if startsFresh then 0.0 else At(b.realizedSinceOpen, key) + TotalPnl(c.closed);
    var b1 := b.(realizedSinceOpen := b.realizedSinceOpen[key := realized]);
    FillOutcome(Rebuilt(b1, key, QueueAfter(lots, side, quantity, price, orderId, now), price, now), c.closed)
  }

  lemma FilledCloses(b: Book, key: Key, side: Side, quantity: int, price: real, orderId: nat, now: int)
    requires price > 0.0
    ensures Filled(b, key, side, quantity, price, orderId, now).closed
         == ClosedBy(b.Lots(key), side, quantity, price, now).closed
  {
  }

  function Marked(b: Book, key: Key, price: real, now: int): Book {
    if b.Lots(key) == [] then b else Rebuilt(b, key, b.Lots(key), price, now)
  }

  lemma MarkingKeepsLots(b: Book, key: Key, price: real, now: int)
    ensures Marked(b, key, price, now).lots == b.lots
  {
    if b.Lots(key) != [] { assert b.lots[key := b.lots[key]] == b.lots; }
  }

  class PositionManager {
    var lots: map<Key, seq<Lot>>
    var positions: map<Key, PaperPosition>
    var realizedSinceOpen: map<Key, real>

    ghost function View(): Book
      reads this
    {
      Book(lots, positions, realizedSinceOpen)
    }

    constructor ()
      ensures View() == EMPTY
    {
      lots, positions, realizedSinceOpen := map[], map[], map[];
    }

    method ApplyFill(key: Key, side: Side, quantity: int, price: real, orderId: nat, now: int)
      returns (r: Result<seq<ClosedLot>>)
      modifies this
      ensures if quantity <= 0 || price <= 0.0 then r == Err(InvalidArgument) && View() == old(View())
              else var f := Filled(old(View()), key, side, quantity, price, orderId, now);
                   r == Ok(f.closed) && View() == f.book
    {
      hide CloseFifo, Rebuilt, TotalPnl;
      if quantity <= 0 || price <= 0.0 { return Err(InvalidArgument); }
      var queue := if key in lots then lots[key] else [];
      var wasOpen := queue != [];
      var remaining, closed := quantity, [];
      if wasOpen && queue[0].side != side {
        queue, remaining, closed := CloseLotsFifo(queue, remaining, price, now);
      }
      var startsFresh := !wasOpen || queue == [];
      if remaining > 0 {
        queue := queue + [Lot(orderId, now, price, remaining, side)];
      }
      var realized := if startsFresh then 0.0 else At(realizedSinceOpen, key) + TotalPnl(closed);
      realizedSinceOpen := realizedSinceOpen[key := realized];
      RebuildPosition(key, queue, price, now);
      return Ok(closed);
    }

    method RebuildPosition(key: Key, queue: seq<Lot>, mark: real, now: int)
      modifies this
      ensures View() == Rebuilt(old(View()), key, queue, mark, now)
    {
      if queue == [] {
        lots, positions, realizedSinceOpen := lots - {key}, positions - {key}, realizedSinceOpen - {key};
      } else {
        lots := lots[key := queue];
        positions := positions[key := PositionOf(key, queue, mark, At(realizedSinceOpen, key), now)];
      }
    }

    method UpdateLastPrice(key: Key, price: real, now: int) returns (r: Outcome)
      modifies this
      ensures if price <= 0.0 then r == Fail(InvalidArgument) && View() == old(View())
              else r == Pass && View() == Marked(old(View()), key, price, now)
    {
      if price <= 0.0 { return Fail(InvalidArgument); }
      if key in lots && lots[key] != [] {
        RebuildPosition(key, lots[key], price, now);
      }
      return Pass;
    }

    /** All positions, each once; the order of the dictionary is not modelled. */
    method GetAllPositions() returns (ps: seq<PaperPosition>, ghost keys: seq<Key>)
      ensures Lists(positions, ps, keys)
    {
      ps, keys := [], [];
      var rest := positions.Keys;
      ghost var seen: map<Key, PaperPosition> := map[];
      while rest != {}
        invariant rest !! seen.Keys && rest + seen.Keys == positions.Keys
        invariant forall k | k in seen :: seen[k] == positions[k]
        invariant Lists(seen, ps, keys)
      {
        var k :| k in rest;
        ListsAppend(seen, ps, keys, k, positions[k]);
        seen := seen[k := positions[k]];
        ps, keys, rest := ps + [positions[k]], keys + [k], rest - {k};
      }
      assert seen == positions;
    }

    method Reset()
      modifies this
      ensures View() == EMPTY
    {
      lots, positions, realizedSinceOpen := map[], map[], map[];
    }
  }

  lemma ListsAppend(m: map<Key, PaperPosition>, ps: seq<PaperPosition>, keys: seq<Key>,
                    k: Key, p: PaperPosition)
    requires Lists(m, ps, keys) && k !in m
    ensures Lists(m[k := p], ps + [p], keys + [k])
  {
    forall i | 0 <= i < |keys| ensures keys[i] != k && keys[i] in m {
      assert keys[i] in keys;
    }
  }

  /** `ps` lists the positions of `m` in the order of `keys`, each once. */
  ghost predicate Lists(m: map<Key, PaperPosition>, ps: seq<PaperPosition>, keys: seq<Key>) {
    && |ps| == |keys|
    && (forall i, j | 0 <= i < j < |keys| :: keys[i] != keys[j])
    && (forall k :: k in keys <==> k in m)
    && (forall i | 0 <= i < |keys| :: ps[i] == m[keys[i]])
  }
}
