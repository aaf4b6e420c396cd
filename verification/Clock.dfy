/** Clock readings: while they never go back, no round trip ends before it
    began, and every fill can be recorded. */
module Clock {
  import opened Domain
  import opened Fifo
  import opened Positions
  import opened Matching
  import opened OrderDesk
  import opened Engine
  import opened Moves
  import opened Lifecycle
  import opened Accounts

  predicate NoneAfter(lots: seq<Lot>, t: int) { forall i | 0 <= i < |lots| :: lots[i].timestamp <= t }

  /** No open lot was entered after `t`. */
  predicate Current(b: Book, t: int) { forall k | k in b.lots :: NoneAfter(b.lots[k], t) }

  lemma {:induction false} ClosingIsRecordable(lots: seq<Lot>, q: int, price: real, now: int)
    requires NoneAfter(lots, now)
    ensures var c := CloseFifo(lots, q, price, now); !AnyLate(c.closed) && NoneAfter(c.lots, now)
  {
    if q > 0 && lots != [] {
      var c := CloseFifo(lots, q, price, now);
      assert !Late(c.closed[0]);
      if lots[0].quantity <= q {
        ClosingIsRecordable(lots[1..], q - lots[0].quantity, price, now);
        assert c.closed[1..] == CloseFifo(lots[1..], q - lots[0].quantity, price, now).closed;
      }
    }
  }

  /** A fill at a clock reading that is not behind any open lot's can be recorded. */
  lemma CurrentIsRecordable(b: Book, o: PaperOrder, price: real, now: int)
    requires Current(b, now)
    ensures !Unrecordable(b, o, price, now)
  {
    ClosingIsRecordable(b.Lots(o.key), o.quantity, price, now);
  }

  lemma FillKeepsCurrent(b: Book, key: Key, side: Side, quantity: int, price: real, id: nat, now: int)
    requires Current(b, now) && price > 0.0
    ensures Current(Filled(b, key, side, quantity, price, id, now).book, now)
  {
    hide CloseFifo, PositionOf, TotalPnl;
    ClosingIsRecordable(b.Lots(key), quantity, price, now);
    assert NoneAfter(QueueAfter(b.Lots(key), side, quantity, price, id, now), now);
  }

  lemma CurrentLater(b: Book, t: int, now: int)
    requires Current(b, t) && t <= now
    ensures Current(b, now)
  {
  }

  /** At a clock reading behind no open lot's every move can be recorded, and keeps it so. */
  lemma MoveKeepsCurrent(d: Desk, mv: Move)
    requires Enabled(d, mv) && Current(d.book, mv.now)
    ensures !mv.Spoil? && Current(Do(d, mv).book, mv.now)
  {
    hide Current, Unrecordable, Exchanging, Filling, SiblingsCancelled, Entered, Modified, BracketSpawned, Decide;
    if mv.Trade? || mv.Strand? {
      FillingKeepsCurrent(d, mv.id, mv.price, mv.now);
      FillingIsTrade(d, mv.id, mv.price, mv.now);
      SiblingsKeepMoney(Filling(d, mv.id, mv.price, mv.now).desk, mv.id, d.orders[mv.id].ocoGroup, 0, mv.now);
    } else if mv.Spoil? {
      var u := Unreserved(d, mv.id).desk;
      UnreservingKeepsMoney(d, mv.id);
      CurrentIsRecordable(u.book, Fired(d, mv.id, mv.price, mv.now), mv.price, mv.now);
    } else if mv.Mark? {
      MarkKeepsCurrent(d.book, mv.key, mv.price, mv.now, mv.now);
    } else {
      OtherMovesKeepMoney(d, mv);
    }
  }

  lemma FillingKeepsCurrent(d: Desk, id: nat, price: real, now: int)
    requires Pays(d, id, price, now) && Current(d.book, now)
    ensures Current(Filling(d, id, price, now).desk.book, now)
  {
    hide Current, Unrecordable, Filled, TradesOf;
    var o := Fired(d, id, price, now);
    UnreservingKeepsMoney(d, id);
    FillKeepsCurrent(d.book, o.key, o.side, o.quantity, price, id, now);
  }

  lemma MarkKeepsCurrent(b: Book, key: Key, price: real, now: int, t: int)
    requires Current(b, t)
    ensures Current(Marked(b, key, price, now), t)
  {
    MarkingKeepsLots(b, key, price, now);
  }

  /** Every call at such a clock reading leaves it so. */
  lemma CallKeepsCurrent(e: Engine, op: Op)
    requires op.Valid() && Current(e.desk.book, op.now)
    ensures Current(Apply(e, op).desk.book, op.now)
  {
    hide Apply, Current, Enabled, Do;
    var ms := OperationIsMoves(e, op);
    PlayKeepsCurrent(e.desk, ms, op.now);
  }

  lemma {:induction false} PlayKeepsCurrent(d: Desk, ms: seq<Move>, now: int)
    requires Legal(d, ms) && AllAt(ms, now) && Current(d.book, now)
    ensures NoSpoil(ms) && Current(Play(d, ms).book, now)
    decreases |ms|
  {
    hide Enabled, Do, Current;
    if ms != [] {
      MoveKeepsCurrent(d, ms[0]);
      PlayKeepsCurrent(Do(d, ms[0]), ms[1..], now);
    }
  }
}
