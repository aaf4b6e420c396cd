/** The main results: what holds after any sequence of calls since the engine
    was created or reset. */
module Runs {
  import opened Domain
  import opened Fifo
  import opened Sums
  import opened Portfolios
  import opened Positions
  import opened OrderDesk
  import opened Engine
  import opened Moves
  import opened Lifecycle
  import opened Accounts
  import opened Clock
  import opened Conservation
  import opened Reservations
  import opened Oco
  import opened Solvency

  // ---------- Every run ----------

  lemma NothingYet(capital: real)
    requires capital > 0.0
    ensures Balanced(NewDesk(capital)) && Accounted(NewDesk(capital)) && OcoOk(NewDesk(capital))
    ensures Solvent(NewDesk(capital))
    ensures forall t :: Conserved(NewDesk(capital), [], t) && Current(NewDesk(capital).book, t)
  {
    assert Values(EMPTY) == map[];
  }

  lemma {:induction false} RunBalances(e: Engine, ops: seq<Op>) returns (ms: seq<Move>)
    requires ValidOps(ops) && Covered(e.desk)
    ensures var d := Run(e, ops).desk;
            && Legal(e.desk, ms) && Play(e.desk, ms) == d
            && Covered(d) && d.ledger.initialCapital == e.desk.ledger.initialCapital
            && Gap(d) == Gap(e.desk) + MissedIn(e.desk, ms)
            && (forall t | Timely(ops, t) && Current(e.desk.book, t) :: NoSpoil(ms))
    decreases |ops|
  {
    hide Apply, Covered, Gap, Enabled, Do, Missed, Current;
    if ops == [] {
      ms := [];
    } else {
      var f := Apply(e, ops[0]);
      ms := OperationIsMoves(e, ops[0]);
      PlayBalances(e.desk, ms);
      var more := RunBalances(f, ops[1..]);
      PlayBalances(f.desk, more);
      PlayJoin(e.desk, ms, more);
      PlayBalances(e.desk, ms + more);
      forall t | Timely(ops, t) && Current(e.desk.book, t) ensures NoSpoil(ms + more) {
        CurrentLater(e.desk.book, t, ops[0].now);
        PlayKeepsCurrent(e.desk, ms, ops[0].now);
      }
      ms := ms + more;
    }
  }

  /** The ledger, after any calls whatever, also ones that raised or whose clock
      went back: cash plus open lots at cost is capital plus realized profit
      plus the profit of the pieces that fills closed but could not record; and
      cash is never overdrawn. */
  lemma LedgerOfAnyRun(capital: real, ops: seq<Op>) returns (ms: seq<Move>)
    requires capital > 0.0 && ValidOps(ops)
    ensures var d0 := NewDesk(capital); var d := Run(NewEngine(capital), ops).desk;
            && Legal(d0, ms) && Play(d0, ms) == d
            && d.ledger.cash + Total(Values(d.book)) == capital + d.ledger.realized + MissedIn(d0, ms)
            && d.ledger.cash >= -EPSILON && BookOk(d.book)
  {
    hide Run, Total, Enabled, Do, Missed;
    NothingYet(capital);
    ms := RunBalances(NewEngine(capital), ops);
  }

  /** Positions, after any calls whatever: each fits its lots, and shows as
      realized since opening what the fills since have kept for it (see `FillMarks`). */
  lemma PositionsOfAnyRun(capital: real, ops: seq<Op>)
    requires capital > 0.0 && ValidOps(ops)
    ensures var b := Run(NewEngine(capital), ops).desk.book; BookOk(b) && RealizedShown(b)
  {
    hide Run, Total, Enabled, Do, Missed, RealizedShown;
    NothingYet(capital);
    var ms := LedgerOfAnyRun(capital, ops);
    assert RealizedShown(NewDesk(capital).book) by { NothingShown(capital); }
    PlayKeepsShown(NewDesk(capital), ms);
  }

  lemma NothingShown(capital: real)
    ensures RealizedShown(NewDesk(capital).book)
  {
  }

  /** The ledger identity.  After any calls with a clock that never goes back,
      also ones that raised, cash plus open lots at cost is capital plus
      realized profit, and every snapshot that can be taken reports equity as
      capital plus realized plus unrealized profit. */
  lemma LedgerIdentity(capital: real, ops: seq<Op>, start: int)
    requires capital > 0.0 && ValidOps(ops) && Timely(ops, start)
    ensures var d := Run(NewEngine(capital), ops).desk;
            && d.ledger.cash + Total(Values(d.book)) == capital + d.ledger.realized
            && d.ledger.cash >= -EPSILON
            && forall ps, keys, now | Lists(d.book.positions, ps, keys) && Snapshot(d.ledger, ps, now).Ok? ::
                 var p := Snapshot(d.ledger, ps, now).value;
                 p.equity == capital + p.realizedPnl + p.unrealizedPnl
  {
    hide Run, Total, MarketValue, Unrealized, UsedCapital, Enabled, Do, Missed;
    NothingYet(capital);
    var ms := RunBalances(NewEngine(capital), ops);
    PlayBalances(NewDesk(capital), ms);
    var d := Run(NewEngine(capital), ops).desk;
    forall ps, keys, now | Lists(d.book.positions, ps, keys) && Snapshot(d.ledger, ps, now).Ok?
      ensures var p := Snapshot(d.ledger, ps, now).value;
              p.equity == capital + p.realizedPnl + p.unrealizedPnl
    {
      EquityIsCapitalPlusProfit(d, ps, keys);
    }
  }

  /** No order is ever lost, and a completed, cancelled or rejected one never changes. */
  lemma {:induction false} RunEvolves(e: Engine, ops: seq<Op>)
    requires ValidOps(ops)
    ensures Evolves(e.desk.orders, Run(e, ops).desk.orders)
    decreases |ops|
  {
    hide Apply, Evolved, Legal, Play;
    if ops == [] {
      NothingHappens(e.desk.orders);
    } else {
      var f := Apply(e, ops[0]);
      var ms := OperationIsMoves(e, ops[0]);
      PlayEvolves(e.desk, ms);
      RunEvolves(f, ops[1..]);
      EvolvesFurther(e.desk.orders, f.desk.orders, Run(f, ops[1..]).desk.orders);
    }
  }

  // ---------- Timely runs: the books and the history ----------

  /** What one call plays and books; the history gets it unless the call raises. */
  ghost predicate CallTraced(e: Engine, op: Op, ms: seq<Move>)
    requires op.Valid()
  {
    && Plays(e.desk, ms, Apply(e, op).desk, op.now)
    && Apply(e, op).trades == e.trades + (if CallRaises(e.desk, op) then [] else Booked(e.desk, ms))
  }

  /** The moves of a run, call by call. */
  ghost predicate Traced(e: Engine, ops: seq<Op>, calls: seq<seq<Move>>)
    requires ValidOps(ops)
    decreases |ops|
  {
    && |calls| == |ops|
    && (ops != [] ==> CallTraced(e, ops[0], calls[0]) && Traced(Apply(e, ops[0]), ops[1..], calls[1..]))
  }

  /** The round trips booked in a run, in the order of booking. */
  ghost function AllBooked(e: Engine, ops: seq<Op>, calls: seq<seq<Move>>): seq<ClosedTrade>
    requires ValidOps(ops) && Traced(e, ops, calls)
    decreases |ops|
  {
    if ops == [] then [] else Booked(e.desk, calls[0]) + AllBooked(Apply(e, ops[0]), ops[1..], calls[1..])
  }

  /** Those booked by calls that raised. */
  ghost function Lost(e: Engine, ops: seq<Op>, calls: seq<seq<Move>>): seq<ClosedTrade>
    requires ValidOps(ops) && Traced(e, ops, calls)
    decreases |ops|
  {
    if ops == [] then []
    else
      (if CallRaises(e.desk, ops[0]) then Booked(e.desk, calls[0]) else [])
      + Lost(Apply(e, ops[0]), ops[1..], calls[1..])
  }

  lemma {:induction false} RunIsTraced(e: Engine, ops: seq<Op>) returns (calls: seq<seq<Move>>)
    requires ValidOps(ops)
    ensures Traced(e, ops, calls)
    decreases |ops|
  {
    hide Apply, CallRaises, Plays;
    if ops == [] {
      calls := [];
    } else {
      var ms := OperationIsMoves(e, ops[0]);
      var more := RunIsTraced(Apply(e, ops[0]), ops[1..]);
      calls := [ms] + more;
      assert calls[1..] == more;
    }
  }

  function LastTime(ops: seq<Op>, start: int): int {
    if ops == [] then start else ops[|ops| - 1].now
  }

  lemma {:induction false} SameTimeIsTimely(ms: seq<Move>, now: int, start: int)
    requires AllAt(ms, now) && start <= now
    ensures TimelyMoves(ms, start)
  {
    if ms != [] { SameTimeIsTimely(ms[1..], now, now); }
  }

  lemma {:induction false} RunConserves(e: Engine, ops: seq<Op>, calls: seq<seq<Move>>, ts: seq<ClosedTrade>, t: int)
    requires ValidOps(ops) && Timely(ops, t) && Traced(e, ops, calls) && Conserved(e.desk, ts, t)
    ensures Conserved(Run(e, ops).desk, ts + AllBooked(e, ops, calls), LastTime(ops, t))
    decreases |ops|
  {
    hide Apply, Conserved, Legal, Play, Booked, CallRaises;
    if ops == [] {
      assert ts + [] == ts;
    } else {
      SameTimeIsTimely(calls[0], ops[0].now, t);
      PlayConserves(e.desk, calls[0], ts, t, ops[0].now);
      var more := ts + Booked(e.desk, calls[0]);
      RunConserves(Apply(e, ops[0]), ops[1..], calls[1..], more, ops[0].now);
      var rest := AllBooked(Apply(e, ops[0]), ops[1..], calls[1..]);
      assert more + rest == ts + (Booked(e.desk, calls[0]) + rest);
    }
  }

  /** History and lost trades together carry the shares and profit of what was booked. */
  lemma {:induction false} HistoryAndLost(e: Engine, ops: seq<Op>, calls: seq<seq<Move>>, id: nat)
    requires ValidOps(ops) && Traced(e, ops, calls)
    ensures var (h, b, l) := (Run(e, ops).trades, AllBooked(e, ops, calls), Lost(e, ops, calls));
            && ExitShares(h, id) + ExitShares(l, id) == ExitShares(e.trades, id) + ExitShares(b, id)
            && EntryShares(h, id) + EntryShares(l, id) == EntryShares(e.trades, id) + EntryShares(b, id)
            && PnlOf(h) + PnlOf(l) == PnlOf(e.trades) + PnlOf(b)
    decreases |ops|
  {
    hide Apply, ExitShares, EntryShares, PnlOf, CallRaises, Booked, Legal, Play;
    NothingTraded(id);
    if ops != [] {
      var f := Apply(e, ops[0]);
      var booked := Booked(e.desk, calls[0]);
      var (b, l) := (AllBooked(f, ops[1..], calls[1..]), Lost(f, ops[1..], calls[1..]));
      HistoryAndLost(f, ops[1..], calls[1..], id);
      SharesJoin(e.trades, booked, id);
      SharesJoin(booked, b, id);
      SharesJoin(booked, l, id);
      assert e.trades + [] == e.trades && [] + l == l;
    }
  }

  lemma {:induction false} LostWereBooked(e: Engine, ops: seq<Op>, calls: seq<seq<Move>>)
    requires ValidOps(ops) && Traced(e, ops, calls)
    ensures var (b, l) := (AllBooked(e, ops, calls), Lost(e, ops, calls));
            (l == [] ==> Run(e, ops).trades == e.trades + b) && forall x | x in l :: x in b
    decreases |ops|
  {
    hide Apply, CallRaises, Booked, Legal, Play;
    if ops == [] {
      assert e.trades + [] == e.trades;
    } else {
      var f := Apply(e, ops[0]);
      var b := AllBooked(f, ops[1..], calls[1..]);
      LostWereBooked(f, ops[1..], calls[1..]);
      assert e.trades + Booked(e.desk, calls[0]) + b == e.trades + (Booked(e.desk, calls[0]) + b);
      assert e.trades + [] == e.trades;
    }
  }

  lemma NothingTraded(id: nat)
    ensures ExitShares([], id) == 0 && EntryShares([], id) == 0 && PnlOf([]) == 0.0
  {
  }

  lemma {:induction false} SharesOfTrades(ts: seq<ClosedTrade>, id: nat)
    requires forall x | x in ts :: x.quantity > 0
    ensures ExitShares(ts, id) >= 0 && EntryShares(ts, id) >= 0
    ensures ts != [] && ts[0].exitOrder == id ==> ExitShares(ts, id) > 0
  {
    if ts != [] { SharesOfTrades(ts[1..], id); }
  }

  /** Every completed order's shares are what it closed, what was closed of it and its open lots. */
  predicate Tallies(d: Desk, ts: seq<ClosedTrade>) {
    forall id: nat | id < |d.orders| && d.orders[id].status.Complete? ::
      ExitShares(ts, id) + EntryShares(ts, id) + SharesOf(d.book.Lots(d.orders[id].key), id) == d.orders[id].quantity
  }

  lemma ConservedTallies(d: Desk, ts: seq<ClosedTrade>, t: int)
    requires Conserved(d, ts, t)
    ensures Tallies(d, ts)
  {
    hide ExitShares, EntryShares, SharesOf, PnlOf, Net, NetFilled, AllLotsKnown, BookOk, TradesKnown;
    forall id: nat | id < |d.orders| && d.orders[id].status.Complete?
      ensures ExitShares(ts, id) + EntryShares(ts, id) + SharesOf(d.book.Lots(d.orders[id].key), id)
              == d.orders[id].quantity
    {
      assert OrderConserved(d, ts, id);
    }
  }

  /** Double entry, with a clock that never goes back, whatever was called: the
      booked round trips account for every filled share and for the realized
      profit, and the net position is completed BUY minus completed SELL
      quantity.  The history falls short by what raising calls booked, so it
      accounts for every share if and only if none of them booked anything. */
  lemma BooksOfTimelyRun(capital: real, ops: seq<Op>, start: int) returns (calls: seq<seq<Move>>)
    requires capital > 0.0 && ValidOps(ops) && Timely(ops, start)
    ensures Traced(NewEngine(capital), ops, calls)
    ensures var e := Run(NewEngine(capital), ops); var d := e.desk;
            var (booked, lost) := (AllBooked(NewEngine(capital), ops, calls), Lost(NewEngine(capital), ops, calls));
            && Tallies(d, booked) && TradesKnown(d.orders, booked)
            && d.ledger.realized == PnlOf(booked) == PnlOf(e.trades) + PnlOf(lost)
            && (forall key :: Net(d.book.Lots(key)) == NetFilled(d.orders, key))
            && (Tallies(d, e.trades) <==> lost == []) && (lost == [] <==> e.trades == booked)
  {
    hide Run, ExitShares, EntryShares, PnlOf, Net, NetFilled, AllLotsKnown, BookOk, OrderConserved, Tallies, Traced,
         AllBooked, Lost, Accounted, OcoOk, Solvent, TradeKnown;
    var e0 := NewEngine(capital);
    calls := RunIsTraced(e0, ops);
    NothingYet(capital);
    RunConserves(e0, ops, calls, [], start);
    var (booked, lost) := (AllBooked(e0, ops, calls), Lost(e0, ops, calls));
    assert [] + booked == booked;
    var e := Run(e0, ops);
    ConservedTallies(e.desk, booked, LastTime(ops, start));
    HistoryAndLost(e0, ops, calls, 0);
    LostWereBooked(e0, ops, calls);
    NothingTraded(0);
    if lost != [] { LostIsMissed(e0, ops, calls, LastTime(ops, start)); }
  }

  /** A lost trade leaves its exit order's shares unaccounted for in the history. */
  lemma LostIsMissed(e: Engine, ops: seq<Op>, calls: seq<seq<Move>>, t: int)
    requires ValidOps(ops) && Traced(e, ops, calls) && e.trades == [] && Lost(e, ops, calls) != []
    requires Conserved(Run(e, ops).desk, AllBooked(e, ops, calls), t)
    ensures !Tallies(Run(e, ops).desk, Run(e, ops).trades) && Run(e, ops).trades != AllBooked(e, ops, calls)
  {
    hide Run, ExitShares, EntryShares, PnlOf, Net, NetFilled, AllLotsKnown, BookOk, OrderConserved, Traced,
         AllBooked, Lost, SharesOf;
    var (f, booked, lost) := (Run(e, ops), AllBooked(e, ops, calls), Lost(e, ops, calls));
    var id := lost[0].exitOrder;
    HistoryAndLost(e, ops, calls, id);
    LostWereBooked(e, ops, calls);
    NothingTraded(id);
    assert lost[0] in booked;
    forall x | x in booked ensures x.quantity > 0 && x.exitOrder < |f.desk.orders|
                                   && f.desk.orders[x.exitOrder].status.Complete? {
      var i :| 0 <= i < |booked| && booked[i] == x;
      assert TradeKnown(f.desk.orders, booked[i]);
    }
    SharesOfTrades(lost, id);
    ConservedTallies(f.desk, booked, t);
  }

  // ---------- Prudent runs ----------

  /** In the whole run no modification fails for lack of funds while reserved
      cash exceeds cash. */
  predicate PrudentRun(e: Engine, ops: seq<Op>)
    requires ValidOps(ops)
    decreases |ops|
  {
    ops != [] ==> Prudent(e.desk, ops[0]) && PrudentRun(Apply(e, ops[0]), ops[1..])
  }

  /** The invariant of prudent runs. */
  ghost predicate Healthy(e: Engine, t: int) {
    Accounted(e.desk) && OcoOk(e.desk) && Conserved(e.desk, e.trades, t)
  }

  /** A prudent call on an accounted desk never makes the ledger refuse a release. */
  lemma PrudentCallIsSound(e: Engine, op: Op) returns (ms: seq<Move>)
    requires op.Valid() && Accounted(e.desk) && Prudent(e.desk, op) && Current(e.desk.book, op.now)
    ensures Plays(e.desk, ms, Apply(e, op).desk, op.now) && Sound(ms) && NoForgo(ms)
    ensures Accounted(Apply(e, op).desk) && Current(Apply(e, op).desk.book, op.now)
    ensures Apply(e, op).trades == e.trades + Booked(e.desk, ms)
  {
    hide Apply, Accounted, Legal, Play, Modified, Booked, Current;
    ms := OperationIsMoves(e, op);
    if op.Modify? { ModificationIsAllOrNothing(e.desk, op.m, op.now); }
    PlayKeepsCurrent(e.desk, ms, op.now);
    PlayKeepsAccounts(e.desk, ms);
  }

  lemma PrudentCallKeepsHealth(e: Engine, op: Op, t: int)
    requires op.Valid() && Healthy(e, t) && Prudent(e.desk, op) && t <= op.now
    ensures Healthy(Apply(e, op), op.now)
  {
    hide Apply, Accounted, OcoOk, Conserved, Legal, Play, Booked, Prudent, Current;
    LotsAreCurrent(e.desk, e.trades, t, op.now);
    var ms := PrudentCallIsSound(e, op);
    PlayKeepsOco(e.desk, ms);
    SameTimeIsTimely(ms, op.now, t);
    PlayConserves(e.desk, ms, e.trades, t, op.now);
  }

  lemma {:induction false} RunKeepsHealth(e: Engine, ops: seq<Op>, t: int)
    requires ValidOps(ops) && Timely(ops, t) && Healthy(e, t) && PrudentRun(e, ops)
    ensures Healthy(Run(e, ops), LastTime(ops, t))
    decreases |ops|
  {
    hide Apply, Healthy, Prudent;
    if ops != [] {
      PrudentCallKeepsHealth(e, ops[0], t);
      RunKeepsHealth(Apply(e, ops[0]), ops[1..], ops[0].now);
    }
  }

  /** In a prudent run with a clock that never goes back no trade is lost: the
      history accounts for every filled share, adds up to the realized profit
      and joins completed orders at their fill prices. */
  lemma DoubleEntry(capital: real, ops: seq<Op>, start: int)
    requires capital > 0.0 && ValidOps(ops) && Timely(ops, start) && PrudentRun(NewEngine(capital), ops)
    ensures var e := Run(NewEngine(capital), ops);
            && Tallies(e.desk, e.trades) && TradesKnown(e.desk.orders, e.trades)
            && e.desk.ledger.realized == PnlOf(e.trades)
  {
    hide Run, PrudentRun, Tallies, PnlOf, Net, NetFilled, AllLotsKnown, BookOk, TradesKnown, Accounted, OcoOk,
         OrderConserved, Solvent;
    NothingYet(capital);
    RunKeepsHealth(NewEngine(capital), ops, start);
    ConservedTallies(Run(NewEngine(capital), ops).desk, Run(NewEngine(capital), ops).trades, LastTime(ops, start));
  }

  lemma {:induction false} RunKeepsGroups(e: Engine, ops: seq<Op>)
    requires ValidOps(ops) && GroupsOk(e.desk)
    ensures GroupsOk(Run(e, ops).desk)
    decreases |ops|
  {
    hide Apply, GroupsOk, Enabled, Do;
    if ops != [] {
      var ms := OperationIsMoves(e, ops[0]);
      PlayKeepsGroups(e.desk, ms);
      RunKeepsGroups(Apply(e, ops[0]), ops[1..]);
    }
  }

  /** Brackets, after any calls whatever: every leg is of a known group and exits
      a completed entry of its instrument, on the other side, that is no leg
      itself; a group is a stop and a target of one entry and has no third member. */
  lemma BracketGroups(capital: real, ops: seq<Op>)
    requires capital > 0.0 && ValidOps(ops)
    ensures var d := Run(NewEngine(capital), ops).desk;
            && (forall i: nat | i < |d.orders| :: LegOk(d.orders, d.groups, i))
            && (forall i: nat, j: nat | i < |d.orders| && j < |d.orders| :: PairOk(d.orders, i, j))
            && (forall i: nat, j: nat, k: nat | i < |d.orders| && j < |d.orders| && k < |d.orders| && i != k ::
                  !(Siblings(d.orders, i, j) && Siblings(d.orders, j, k)))
  {
    hide Run, LegOk, PairOk, Siblings;
    RunKeepsGroups(NewEngine(capital), ops);
    var d := Run(NewEngine(capital), ops).desk;
    forall i: nat, j: nat, k: nat | i < |d.orders| && j < |d.orders| && k < |d.orders| && i != k
      ensures !(Siblings(d.orders, i, j) && Siblings(d.orders, j, k))
    {
      AtMostTwoLegs(d, i, j, k);
    }
  }

  /** One cancels other, over every prudent run: at most one member of a group
      ever fills, and then no other rests. */
  lemma OcoExclusivity(capital: real, ops: seq<Op>, start: int)
    requires capital > 0.0 && ValidOps(ops) && Timely(ops, start) && PrudentRun(NewEngine(capital), ops)
    ensures var d := Run(NewEngine(capital), ops).desk;
            forall i: nat, j: nat | i < |d.orders| && j < |d.orders| :: Exclusive(d.orders, i, j)
  {
    hide Run, PrudentRun, Conserved, Accounted, LegOk, PairOk, Exclusive, Siblings;
    NothingYet(capital);
    RunKeepsHealth(NewEngine(capital), ops, start);
  }

  /** Reservation accounting, over every prudent run: reservations sit exactly
      on the resting BUY orders and add up to the reserved cash, and no call
      makes the ledger refuse a release. */
  lemma ReservationAccounting(capital: real, ops: seq<Op>, start: int)
    requires capital > 0.0 && ValidOps(ops) && Timely(ops, start) && PrudentRun(NewEngine(capital), ops)
    ensures var d := Run(NewEngine(capital), ops).desk;
            && d.ledger.reserved == Total(d.reservations)
            && (forall id: nat :: id in d.reservations <==> id < |d.orders| && d.orders[id].Reserves())
            && (forall id: nat :: Unreserved(d, id).error.None?)
            && (forall ps, now :: Snapshot(d.ledger, ps, now).Ok? <==> d.ledger.reserved <= d.ledger.cash)
  {
    hide Run, PrudentRun, Conserved, OcoOk, Total, Unreserved, Legal, Play;
    NothingYet(capital);
    var ms := RunBalances(NewEngine(capital), ops);
    RunKeepsHealth(NewEngine(capital), ops, start);
    var d := Run(NewEngine(capital), ops).desk;
    forall id: nat ensures Unreserved(d, id).error.None? {
      UnreserveSucceeds(d, id);
    }
    TotalOfPositive(d.reservations);
    forall ps, now
      ensures Snapshot(d.ledger, ps, now).Ok? <==> d.ledger.reserved <= d.ledger.cash
    {
      SnapshotExactlyWhenUncommitted(d.ledger, ps, now);
    }
  }

  /** The hypothesis is exact, call by call: from an accounted desk, at a clock
      reading behind no open lot's, the accounts survive a call if and only if
      the call was prudent. */
  lemma AccountedExactlyWhenPrudent(e: Engine, op: Op)
    requires op.Valid() && Accounted(e.desk) && Current(e.desk.book, op.now)
    ensures Accounted(Apply(e, op).desk) <==> Prudent(e.desk, op)
  {
    hide Current, Accounted, Legal, Play, Modified, Placed, CancelledOrder, PriceUpdated, Booked;
    if Prudent(e.desk, op) {
      var ms := PrudentCallIsSound(e, op);
    } else {
      ModificationIsAllOrNothing(e.desk, op.m, op.now);
    }
  }

  // ---------- Runs whose BUY orders all have limits ----------

  /** Prudence comes for free where reservations cover every fill. */
  lemma SolventCallIsSound(e: Engine, op: Op)
    requires op.Valid() && Accounted(e.desk) && Solvent(e.desk) && Current(e.desk.book, op.now)
    requires BuysAreLimits(Apply(e, op).desk.orders)
    ensures Prudent(e.desk, op)
    ensures Accounted(Apply(e, op).desk) && Solvent(Apply(e, op).desk) && Current(Apply(e, op).desk.book, op.now)
    ensures Spares(e.desk.orders, Apply(e, op).desk.orders)
  {
    hide Apply, Accounted, Legal, Play, Booked, BuysAreLimits, Spares, Current;
    assert Prudent(e.desk, op);
    var ms := PrudentCallIsSound(e, op);
    hide Solvent;
    PlayKeepsSolvent(e.desk, ms);
    PlayEvolves(e.desk, ms);
  }

  lemma {:induction false} RunKeepsSolvent(e: Engine, ops: seq<Op>, t: int)
    requires ValidOps(ops) && Timely(ops, t) && Current(e.desk.book, t)
    requires Accounted(e.desk) && Solvent(e.desk)
    requires BuysAreLimits(Run(e, ops).desk.orders)
    ensures var f := Run(e, ops); Accounted(f.desk) && Solvent(f.desk) && Current(f.desk.book, LastTime(ops, t))
    ensures PrudentRun(e, ops)
    ensures Spares(e.desk.orders, Run(e, ops).desk.orders)
    decreases |ops|
  {
    hide Apply, Accounted, BuysAreLimits, Solvent, Prudent, Evolves, Current;
    if ops != [] {
      var f := Apply(e, ops[0]);
      CurrentLater(e.desk.book, t, ops[0].now);
      RunEvolves(f, ops[1..]);
      BuysWereLimits(f.desk.orders, Run(e, ops).desk.orders);
      SolventCallIsSound(e, ops[0]);
      RunKeepsSolvent(f, ops[1..], ops[0].now);
      EvolvesAtLeast(f.desk.orders, Run(e, ops).desk.orders);
    }
  }

  lemma EvolvesAtLeast(a: seq<Order>, b: seq<Order>)
    requires Evolves(a, b)
    ensures |a| <= |b|
  {
  }

  /** Solvency.  In every run that ends with all BUY orders, bracket legs
      included, limit or stop-limit orders, reserved cash was always covered
      (take any prefix of the run), every modification was prudent, and no
      order that was once accepted was rejected later. */
  lemma SolvencyOfLimitRuns(capital: real, before: seq<Op>, after: seq<Op>, start: int)
    requires capital > 0.0 && ValidOps(before) && ValidOps(after)
    requires Timely(before, start) && Timely(after, LastTime(before, start))
    requires BuysAreLimits(Run(Run(NewEngine(capital), before), after).desk.orders)
    ensures var e := Run(NewEngine(capital), before); var f := Run(e, after);
            && e.desk.ledger.cash - e.desk.ledger.reserved >= -EPSILON
            && f.desk.ledger.cash - f.desk.ledger.reserved >= -EPSILON
            && PrudentRun(NewEngine(capital), before)
            && forall i: nat | i < |e.desk.orders| :: i < |f.desk.orders| &&
                 (f.desk.orders[i].status.Rejected? ==> e.desk.orders[i].status.Rejected?)
  {
    hide Run, PrudentRun, Accounted, BuysAreLimits, Evolves;
    var e0 := NewEngine(capital);
    var e := Run(e0, before);
    NothingYet(capital);
    RunEvolves(e, after);
    BuysWereLimits(e.desk.orders, Run(e, after).desk.orders);
    RunKeepsSolvent(e0, before, start);
    RunKeepsSolvent(e, after, LastTime(before, start));
  }

  /** What a placement leaves behind when its reservation is granted, before the new order meets the price. */
  predicate Accepted(d: Desk, req: PaperOrderRequest, price: real, now: int)
    requires req.Valid()
  {
    && price > 0.0 && PositiveIfSet(TriggerFor(req, price))
    && Entered(d, OrderFor(req, price, now), now).orders[|d.orders|].Resting()
  }

  lemma AcceptedIsNotRefused(d: Desk, req: PaperOrderRequest, price: real, now: int)
    requires req.Valid() && Accepted(d, req, price, now)
    requires Accounted(d) && Solvent(d) && Current(d.book, now)
    requires BuysAreLimits(Placed(d, req, price, now).desk.orders)
    ensures var o := Placed(d, req, price, now).desk.orders;
            |d.orders| < |o| && !o[|d.orders|].status.Rejected?
  {
    hide Accounted, Evaluated, BuysAreLimits, Entered, Enabled, Do, Current, Solvent, Evolves, Spares;
    var o := OrderFor(req, price, now);
    var e := Entered(d, o, now);
    var f := Placed(d, req, price, now).desk;
    EnteringKeepsAccounts(d, o, now);
    EnteringKeepsSolvent(d, o, now);
    assert Current(e.book, now) by { EnteringKeepsMoney(d, o, now); }
    var ms := EvaluationIsMoves(e, |d.orders|, price, now);
    PlayKeepsCurrent(e, ms, now);
    PlayKeepsAccounts(e, ms);
    PlayKeepsSolvent(e, ms);
    PlayEvolves(e, ms);
    SparedIsNotRejected(e.orders, f.orders, |d.orders|);
  }

  lemma SparedIsNotRejected(a: seq<Order>, b: seq<Order>, i: nat)
    requires Spares(a, b) && i < |a| && a[i].Resting()
    ensures i < |b| && !b[i].status.Rejected?
  {
  }

  /** ... nor inside the very call that placed it: an order whose reservation is
      granted is not rejected when it fills at once. */
  lemma AcceptedOrdersAreNeverRefused(capital: real, before: seq<Op>, op: Op, start: int)
    requires capital > 0.0 && ValidOps(before) && op.Valid() && op.Place?
    requires Timely(before, start) && LastTime(before, start) <= op.now
    requires var d := Run(NewEngine(capital), before).desk;
             Accepted(d, op.req, op.price, op.now)
             && BuysAreLimits(Placed(d, op.req, op.price, op.now).desk.orders)
    ensures var e := Run(NewEngine(capital), before); var o := Apply(e, op).desk.orders;
            |e.desk.orders| < |o| && !o[|e.desk.orders|].status.Rejected?
  {
    hide Accounted, BuysAreLimits, Placed, Current, Solvent, Evolves, PrudentRun, Accepted;
    var e := Run(NewEngine(capital), before);
    NothingYet(capital);
    RunOfMore(NewEngine(capital), before, op);
    RunEvolves(e, [op]);
    assert Run(e, [op]).desk.orders == Placed(e.desk, op.req, op.price, op.now).desk.orders by {
      RunOfMore(e, [], op);
      assert [] + [op] == [op];
    }
    BuysWereLimits(e.desk.orders, Run(e, [op]).desk.orders);
    RunKeepsSolvent(NewEngine(capital), before, start);
    CurrentLater(e.desk.book, LastTime(before, start), op.now);
    AcceptedIsNotRefused(e.desk, op.req, op.price, op.now);
  }
}
