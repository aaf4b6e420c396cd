/** Every operation of the exchange is a finite run of a few primitive moves.
    A property that each move keeps is then kept by every run of operations. */
module Moves {
  import opened Domain
  import opened Fifo
  import opened Sums
  import opened Positions
  import opened Matching
  import opened OrderDesk
  import opened Engine

  /** `Enter`: a new order joins, reserved or rejected.  `Look`: a price wakes or
      ratchets a resting order.  `Trade`: an order fills and its group is
      cancelled.  `Refuse`: a fill that cannot be paid.  `Spawn`: bracket legs
      join.  `Mark`: a position is marked to a price.  The last four are what is
      left behind when a call raises: `Lose` forgets a reservation, `Strand`
      leaves a filled order's siblings, `Forgo` gives back a reservation that
      could not be taken again, and `Spoil` moves cash and lots for an order
      whose round trip cannot be recorded. */
  datatype Move =
    | Enter(order: Order, now: int)
    | Look(id: nat, price: real, now: int)
    | Trade(id: nat, price: real, now: int)
    | Refuse(id: nat, price: real, now: int)
    | Spawn(id: nat, now: int)
    | Withdraw(id: nat, now: int)
    | Amend(m: OrderModification, now: int)
    | Mark(key: Key, price: real, now: int)
    | Lose(id: nat, now: int)
    | Strand(id: nat, price: real, now: int)
    | Forgo(id: nat, amount: real, now: int)
    | Spoil(id: nat, price: real, now: int)
  {
    /** A trace the exchange leaves only when something has raised. */
    predicate Broken() { Lose? || Strand? || Forgo? || Spoil? }
  }

  predicate Rests(d: Desk, id: nat) { id < |d.orders| && d.orders[id].Resting() }

  /** Order `id` fires at `price`. */
  predicate Fires(d: Desk, id: nat, price: real, now: int) {
    Rests(d, id) && price > 0.0 && Decide(d.orders[id], price, now).Fill?
  }

  function Fired(d: Desk, id: nat, price: real, now: int): Order
    requires Fires(d, id, price, now)
  {
    Decide(d.orders[id], price, now).order
  }

  function Exchanging(d: Desk, id: nat, price: real, now: int): Step
    requires Fires(d, id, price, now)
  {
    Exchanged(d, id, Fired(d, id, price, now), price, now)
  }

  /** Order `id` fires, its reservation is handed back and the fill is paid. */
  predicate Charges(d: Desk, id: nat, price: real, now: int) {
    && Fires(d, id, price, now)
    && var u := Unreserved(d, id);
       u.error.None? && Paid(u.desk.ledger, Fired(d, id, price, now), price).Ok?
  }

  /** ... and its round trips can be recorded. */
  predicate Pays(d: Desk, id: nat, price: real, now: int) {
    Charges(d, id, price, now) && !Unrecordable(Unreserved(d, id).desk.book, Fired(d, id, price, now), price, now)
  }

  /** ... or they cannot. */
  predicate Spoils(d: Desk, id: nat, price: real, now: int) {
    Charges(d, id, price, now) && !Pays(d, id, price, now)
  }

  predicate Enabled(d: Desk, mv: Move) {
    match mv
    case Enter(o, _) => o.Resting() && o.parent.None?
    case Look(id, price, _) => Rests(d, id) && price > 0.0
    case Trade(id, price, now) => Pays(d, id, price, now) && Exchanging(d, id, price, now).error.None?
    case Refuse(id, price, now) =>
      && Fires(d, id, price, now)
      && var u := Unreserved(d, id);
         u.error.None? && Paid(u.desk.ledger, Fired(d, id, price, now), price).Err?
    case Spawn(id, _) => id < |d.orders| && d.orders[id].status.Complete?
    case Withdraw(id, _) => Rests(d, id) && Unreserved(d, id).error.None?
    case Amend(m, now) => m.Valid() && Modified(d, m, now).error.None?
    case Mark(_, price, _) => price > 0.0
    case Lose(id, _) => Unreserved(d, id).error.Some?
    case Strand(id, price, now) => Pays(d, id, price, now) && Exchanging(d, id, price, now).error.Some?
    case Forgo(id, amount, _) => Rereserved(d, id, amount).error.Some?
    case Spoil(id, price, now) => Spoils(d, id, price, now)
  }

  function Do(d: Desk, mv: Move): Desk
    requires Enabled(d, mv)
  {
    match mv
    case Enter(o, now) => Entered(d, o, now)
    case Look(id, price, now) => Stored(d, id, Decide(d.orders[id], price, now).order)
    case Trade(id, price, now) => Exchanging(d, id, price, now).desk
    case Refuse(id, price, now) => Stored(Unreserved(d, id).desk, id, Dropped(Fired(d, id, price, now), Rejected, now))
    case Spawn(id, now) => BracketSpawned(d, d.orders[id], id, now)
    case Withdraw(id, now) => Withdrawn(d, id, Cancelled, now).desk
    case Amend(m, now) => Modified(d, m, now).desk
    case Mark(key, price, now) => d.(book := Marked(d.book, key, price, now))
    case Lose(id, _) => Unreserved(d, id).desk
    case Strand(id, price, now) => Exchanging(d, id, price, now).desk
    case Forgo(id, amount, _) => Rereserved(d, id, amount).desk
    case Spoil(id, price, now) => Exchanging(d, id, price, now).desk
  }

  /** The round trips a move books. */
  function Books(d: Desk, mv: Move): seq<ClosedTrade>
    requires Enabled(d, mv)
  {
    if mv.Trade? || mv.Strand? then
      var u := Unreserved(d, mv.id).desk;
      var o := Fired(d, mv.id, mv.price, mv.now);
      Executed(u, mv.id, o, Paid(u.ledger, o, mv.price).value, mv.price, mv.now).closed
    else []
  }

  predicate Legal(d: Desk, ms: seq<Move>)
    decreases |ms|
  {
    ms != [] ==> Enabled(d, ms[0]) && Legal(Do(d, ms[0]), ms[1..])
  }

  function Play(d: Desk, ms: seq<Move>): Desk
    requires Legal(d, ms)
    decreases |ms|
  {
    if ms == [] then d else Play(Do(d, ms[0]), ms[1..])
  }

  function Booked(d: Desk, ms: seq<Move>): seq<ClosedTrade>
    requires Legal(d, ms)
    decreases |ms|
  {
    if ms == [] then [] else Books(d, ms[0]) + Booked(Do(d, ms[0]), ms[1..])
  }

  predicate AllAt(ms: seq<Move>, now: int) { forall i | 0 <= i < |ms| :: ms[i].now == now }

  predicate Sound(ms: seq<Move>) { forall i | 0 <= i < |ms| :: !ms[i].Broken() }

  predicate NoSpoil(ms: seq<Move>) { forall i | 0 <= i < |ms| :: !ms[i].Spoil? }

  predicate NoForgo(ms: seq<Move>) { forall i | 0 <= i < |ms| :: !ms[i].Forgo? }

  lemma KindsJoin(a: seq<Move>, b: seq<Move>)
    ensures Sound(a + b) <==> Sound(a) && Sound(b)
    ensures NoForgo(a + b) <==> NoForgo(a) && NoForgo(b)
  {
    assert forall i | 0 <= i < |a| :: (a + b)[i] == a[i];
    assert forall i | 0 <= i < |b| :: (a + b)[|a| + i] == b[i];
  }

  lemma {:induction false} PlayJoin(d: Desk, a: seq<Move>, b: seq<Move>)
    requires Legal(d, a) && Legal(Play(d, a), b)
    ensures Legal(d, a + b) && Play(d, a + b) == Play(Play(d, a), b)
    ensures Booked(d, a + b) == Booked(d, a) + Booked(Play(d, a), b)
    ensures Sound(a + b) <==> Sound(a) && Sound(b)
    ensures NoForgo(a + b) <==> NoForgo(a) && NoForgo(b)
    decreases |a|
  {
    hide Enabled, Do, Books, Sound, NoForgo;
    KindsJoin(a, b);
    if a == [] {
      assert a + b == b;
    } else {
      assert (a + b)[1..] == a[1..] + b;
      PlayJoin(Do(d, a[0]), a[1..], b);
    }
  }

  // ---------- Operations as runs of moves ----------

  /** A modification that the account cannot fund. */
  predicate Unfundable(d: Desk, m: OrderModification)
    requires m.Valid()
  {
    && Rests(d, m.orderId)
    && var o := Amended(d.orders[m.orderId], m, 0);
       && o.Reserves()
       && Cost(o.quantity, o.WorstCase().GetOr(0.0)) > d.ledger.Available() + At(d.reservations, m.orderId) + EPSILON
  }

  /** The account is not over-committed when a modification cannot be funded:
      the one thing a client must see to. */
  predicate Prudent(d: Desk, op: Op)
    requires op.Valid()
  {
    op.Modify? && Unfundable(d, op.m) ==> d.ledger.reserved <= d.ledger.cash + EPSILON
  }

  /** `ms` plays from `d` to `after`, at clock reading `now`. */
  ghost predicate Plays(d: Desk, ms: seq<Move>, after: Desk, now: int) {
    Legal(d, ms) && Play(d, ms) == after && AllAt(ms, now)
  }

  lemma Single(d: Desk, mv: Move)
    requires Enabled(d, mv)
    ensures Plays(d, [mv], Do(d, mv), mv.now) && Booked(d, [mv]) == Books(d, mv)
  {
    hide Enabled, Do, Books;
    var after := Do(d, mv);
    assert [mv][1..] == [];
    assert Legal(after, []) && Play(after, []) == after && Booked(after, []) == [];
    assert Legal(d, [mv]) && Play(d, [mv]) == after;
    assert Books(d, mv) + [] == Books(d, mv);
  }

  lemma ExchangeIsAMove(d: Desk, id: nat, price: real, now: int) returns (ms: seq<Move>)
    requires Fires(d, id, price, now)
    ensures var s := Exchanging(d, id, price, now);
            && Plays(d, ms, s.desk, now) && NoForgo(ms)
            && (Sound(ms) <==> s.error.None?)
            && (s.error.None? ==> Booked(d, ms) == s.closed)
            && (s.error.None? && s.desk.orders[id].status.Complete? ==>
                  s.desk.orders[id] == Completed(Fired(d, id, price, now), price, now))
  {
    hide SiblingsCancelled, Filled, TradesOf;
    var o := Fired(d, id, price, now);
    var u := Unreserved(d, id);
    CostIsPositive(o.quantity, price);
    if u.error.Some? {
      ms := [Lose(id, now)];
    } else if Paid(u.desk.ledger, o, price).Err? {
      ms := [Refuse(id, price, now)];
    } else if !Pays(d, id, price, now) {
      ms := [Spoil(id, price, now)];
    } else {
      ms := if Exchanging(d, id, price, now).error.None? then [Trade(id, price, now)] else [Strand(id, price, now)];
    }
    Single(d, ms[0]);
  }

  lemma EvaluationIsMoves(d: Desk, id: nat, price: real, now: int) returns (ms: seq<Move>)
    requires Rests(d, id) && price > 0.0
    ensures var s := Evaluated(d, id, price, now);
            && Plays(d, ms, s.desk, now) && NoForgo(ms)
            && (Sound(ms) <==> s.error.None?)
            && (s.error.None? ==> Booked(d, ms) == s.closed)
  {
    hide Exchanged, BracketSpawned;
    if Decide(d.orders[id], price, now).Rest? {
      ms := [Look(id, price, now)];
      Single(d, ms[0]);
    } else {
      ms := ExchangeIsAMove(d, id, price, now);
      var s := Exchanging(d, id, price, now);
      if s.error.None? && s.desk.orders[id].status.Complete? {
        var spawn := Spawn(id, now);
        Single(s.desk, spawn);
        PlayJoin(d, ms, [spawn]);
        assert s.closed + [] == s.closed;
        ms := ms + [spawn];
      }
    }
  }

  lemma {:induction false} PassIsMoves(d: Desk, ids: seq<nat>, price: real, now: int) returns (ms: seq<Move>)
    requires price > 0.0
    requires forall i | 0 <= i < |ids| :: ids[i] < |d.orders|
    ensures var s := Passed(d, ids, price, now);
            && Plays(d, ms, s.desk, now) && NoForgo(ms)
            && (Sound(ms) <==> s.error.None?)
            && (s.error.None? ==> Booked(d, ms) == s.closed)
    decreases |ids|
  {
    hide Evaluated, Enabled, Do, Books;
    if ids == [] {
      ms := [];
    } else if !d.orders[ids[0]].Resting() {
      ms := PassIsMoves(d, ids[1..], price, now);
    } else {
      ms := EvaluationIsMoves(d, ids[0], price, now);
      var s := Evaluated(d, ids[0], price, now);
      if s.error.None? {
        var more := PassIsMoves(s.desk, ids[1..], price, now);
        PlayJoin(d, ms, more);
        ms := ms + more;
      }
    }
  }

  lemma PlacementIsMoves(d: Desk, req: PaperOrderRequest, price: real, now: int) returns (ms: seq<Move>)
    requires req.Valid()
    ensures var s := Placed(d, req, price, now);
            && Plays(d, ms, s.desk, now) && NoForgo(ms)
            && (s.error.None? ==> Sound(ms))
            && (Sound(ms) ==> Booked(d, ms) == if s.error.Some? then [] else s.closed)
  {
    hide Evaluated;
    if price <= 0.0 || !PositiveIfSet(TriggerFor(req, price)) {
      ms := [];
    } else {
      var enter := Enter(OrderFor(req, price, now), now);
      Single(d, enter);
      ms := [enter];
      var e := Do(d, enter);
      if e.orders[|d.orders|].Resting() {
        var more := EvaluationIsMoves(e, |d.orders|, price, now);
        PlayJoin(d, [enter], more);
        ms := ms + more;
      }
    }
  }

  lemma ModificationIsMoves(d: Desk, m: OrderModification, now: int) returns (ms: seq<Move>)
    requires m.Valid()
    ensures Plays(d, ms, Modified(d, m, now).desk, now) && Booked(d, ms) == []
    ensures NoForgo(ms) <==> (Modified(d, m, now).error.Some? ==> Modified(d, m, now).desk == d)
    ensures Sound(ms) <==> NoForgo(ms)
  {
    var r := Modified(d, m, now);
    if r.error.None? {
      ms := [Amend(m, now)];
      Single(d, ms[0]);
    } else if r.desk == d {
      ms := [];
    } else {
      var o := Amended(d.orders[m.orderId], m, now);
      ms := [Forgo(m.orderId, Cost(o.quantity, o.WorstCase().GetOr(0.0)), now)];
      Single(d, ms[0]);
    }
  }

  predicate CallRaises(d: Desk, op: Op)
    requires op.Valid()
  {
    match op
    case Place(req, price, now) => Placed(d, req, price, now).error.Some?
    case Cancel(id, now) => CancelledOrder(d, id, now).error.Some?
    case Modify(m, now) => Modified(d, m, now).error.Some?
    case Price(key, price, now) => PriceProcessed(d, key, price, now).error.Some?
  }

  /** Every call, whether it returns or raises, is a run of moves at its own
      clock reading.  What it booked reaches the history unless it raises; and
      when no move is broken nothing is kept from it. */
  lemma OperationIsMoves(e: Engine, op: Op) returns (ms: seq<Move>)
    requires op.Valid()
    ensures Plays(e.desk, ms, Apply(e, op).desk, op.now)
    ensures Apply(e, op).trades == e.trades + (if CallRaises(e.desk, op) then [] else Booked(e.desk, ms))
    ensures Sound(ms) ==> Apply(e, op).trades == e.trades + Booked(e.desk, ms)
    ensures !NoForgo(ms) ==> op.Modify? && Modified(e.desk, op.m, op.now).error.Some?
                             && Modified(e.desk, op.m, op.now).desk != e.desk
  {
    hide Placed, Passed, Modified, Enabled, Do, Books;
    var d := e.desk;
    assert e.trades + [] == e.trades;
    match op
    case Place(req, price, now) =>
      ms := PlacementIsMoves(d, req, price, now);
    case Cancel(id, now) =>
      ms := CancellationIsMoves(d, id, now);
    case Modify(m, now) =>
      ms := ModificationIsMoves(d, m, now);
    case Price(key, price, now) =>
      if price <= 0.0 {
        ms := [];
      } else {
        var s := Passed(d, Candidates(d.orders, key, 0), price, now);
        ms := PassIsMoves(d, Candidates(d.orders, key, 0), price, now);
        if s.error.None? {
          var mark := Mark(key, price, now);
          MarkIsAMove(s.desk, key, price, now);
          PlayJoin(d, ms, [mark]);
          assert s.closed + [] == s.closed;
          ms := ms + [mark];
        }
      }
  }

  lemma MarkIsAMove(d: Desk, key: Key, price: real, now: int)
    requires price > 0.0
    ensures Plays(d, [Mark(key, price, now)], d.(book := Marked(d.book, key, price, now)), now)
    ensures Booked(d, [Mark(key, price, now)]) == []
  {
    Single(d, Mark(key, price, now));
  }

  lemma CancellationIsMoves(d: Desk, id: nat, now: int) returns (ms: seq<Move>)
    ensures Plays(d, ms, CancelledOrder(d, id, now).desk, now) && NoForgo(ms) && Booked(d, ms) == []
  {
    if RestingOrder(d.orders, id).Err? {
      ms := [];
    } else if Unreserved(d, id).error.Some? {
      ms := [Lose(id, now)];
      Single(d, ms[0]);
    } else {
      ms := [Withdraw(id, now)];
      Single(d, ms[0]);
    }
  }
}
