/** What an imprudent modification does to a bracket: six calls after which the
    stop and the target of one entry have both filled. */
module BothLegs {
  import opened Domain
  import opened Fifo
  import opened Sums
  import opened Portfolios
  import opened Positions
  import opened Matching
  import opened OrderDesk
  import opened Engine
  import opened Moves
  import opened Lifecycle
  import opened Clock
  import opened Oco
  import opened Conservation
  import opened MarketOrders

  const S: Key := Key(NSE, "S")
  const T: Key := Key(NSE, "T")

  const BRACKET: PaperOrderRequest :=
    PaperOrderRequest(S, Sell, Market, 1, None, None, None, None, Some(110.0), Some(90.0))
  const ENTRY: Order := PaperOrder(S, Sell, Market, 1, 0, None, None, None, None, None, Open, Some(110.0), Some(90.0),
                                   None, None, 0, 0)
  const STOP: Order := LegOf(ENTRY, 0, true, 110.0, 0, 0)
  const TARGET: Order := LegOf(ENTRY, 0, false, 90.0, 0, 0)

  /** A short sold at 100 from a capital of 100, with both legs reserved. */
  function Bracketed(): Desk {
    Desk(Ledger(100.0, 200.0, 200.0, 0.0), Filled(EMPTY, S, Sell, 1, 100.0, 0, 0).book,
         [Completed(ENTRY, 100.0, 0), STOP, TARGET], map[1 := 110.0, 2 := 90.0], 1)
  }

  lemma BracketIsPlaced()
    ensures Placed(NewDesk(100.0), BRACKET, 100.0, 0) == Step(Bracketed(), [], None)
  {
    hide Rebuilt;
    var d := NewDesk(100.0);
    var e := Entered(d, OrderFor(BRACKET, 100.0, 0), 0);
    assert e == d.(orders := [ENTRY]);
    assert e.reservations - {0} == e.reservations;
    assert Cost(1, 100.0) == 100.0;
    var filled := Completed(ENTRY, 100.0, 0);
    var x := Exchanged(e, 0, ENTRY, 100.0, 0);
    assert x == Step(Desk(Ledger(100.0, 200.0, 0.0, 0.0), Filled(EMPTY, S, Sell, 1, 100.0, 0, 0).book, [filled],
                          map[], 0), [], None);
    LegsArePlaced(x.desk, filled);
  }

  lemma LegsArePlaced(d: Desk, filled: Order)
    requires filled == Completed(ENTRY, 100.0, 0) && d.orders == [filled] && d.groups == 0
    requires d.ledger == Ledger(100.0, 200.0, 0.0, 0.0) && d.reservations == map[]
    ensures BracketSpawned(d, filled, 0, 0)
         == Desk(Ledger(100.0, 200.0, 200.0, 0.0), d.book, [filled, STOP, TARGET], map[1 := 110.0, 2 := 90.0], 1)
  {
    assert Cost(1, 110.0) == 110.0 && Cost(1, 90.0) == 90.0;
    var d0 := d.(groups := 1);
    var d1 := WithLeg(d0, filled, 0, true, Some(110.0), 0, 0);
    assert d1 == Desk(Ledger(100.0, 200.0, 110.0, 0.0), d.book, [filled, STOP], map[1 := 110.0], 1);
  }

  /** The state after two of the calls: a MARKET BUY elsewhere has eaten into what the legs reserve. */
  ghost predicate Overcommitted(d: Desk) {
    && d.ledger.cash == 90.0 && d.ledger.reserved == 200.0 && d.reservations == map[1 := 110.0, 2 := 90.0]
    && |d.orders| == 4 && d.orders[..3] == Bracketed().orders && d.orders[3].key == T && !d.orders[3].Resting()
    && d.orders[3].ocoGroup.None? && Current(d.book, 1) && GroupsOk(d)
  }

  lemma CallKeepsGroups(e: Engine, op: Op)
    requires op.Valid() && GroupsOk(e.desk)
    ensures GroupsOk(Apply(e, op).desk)
  {
    hide Apply, GroupsOk, Enabled, Do;
    var ms := OperationIsMoves(e, op);
    PlayKeepsGroups(e.desk, ms);
  }

  const ENTER: Op := Place(BRACKET, 100.0, 0)
  const BUY_T: Op := Place(MarketRequest(T, Buy, 1), 110.0, 1)

  lemma EatingIntoReserves()
    ensures Apply(NewEngine(100.0), ENTER) == Engine(Bracketed(), [])
    ensures Overcommitted(Apply(Engine(Bracketed(), []), BUY_T).desk)
  {
    hide Placed, Filled, GroupsOk;
    var e0 := NewEngine(100.0);
    var e1 := Engine(Bracketed(), []);
    BracketIsPlaced();
    assert Apply(e0, ENTER) == e1;
    assert Current(EMPTY, 0);
    CallKeepsCurrent(e0, ENTER);
    CurrentLater(e1.desk.book, 0, 1);
    assert GroupsOk(e0.desk) by { NoGroupsYet(); }
    CallKeepsGroups(e0, ENTER);
    CallKeepsGroups(e1, BUY_T);
    assert Cost(1, 110.0) == 110.0;
    MarketOrderOutcome(e1.desk, T, Buy, 1, 110.0, 1);
    var d := Apply(e1, BUY_T).desk;
    assert d.orders[..3] == e1.desk.orders;
  }

  lemma NoGroupsYet()
    ensures GroupsOk(NewDesk(100.0))
  {
  }

  const DOUBLE: OrderModification := OrderModification(2, Some(2), None, None)

  /** Doubling the target fails, and what it held is lost. */
  lemma DoublingLosesTheHold(d: Desk)
    requires Overcommitted(d)
    ensures Modified(d, DOUBLE, 2).desk == d.(ledger := d.ledger.(reserved := 110.0))
  {
    hide GroupsOk, Current;
    assert d.orders[2] == d.orders[..3][2];
    assert Cost(2, 90.0) == 180.0;
  }

  /** The target fills at 90; the stop cannot be released, and goes on resting without a reservation. */
  lemma TargetFills(d: Desk)
    requires Overcommitted(d)
    ensures var e := d.(ledger := d.ledger.(reserved := 110.0));
            var s := PriceProcessed(e, S, 90.0, 3);
            s.error.Some? && OnlyStopRests(s.desk) && s.desk.ledger.cash == 0.0
  {
    hide GroupsOk, Current, Exchanging, Evaluated, Pays, OnlyStopRests;
    var e := d.(ledger := d.ledger.(reserved := 110.0));
    assert forall i | 0 <= i < 3 :: d.orders[i] == d.orders[..3][i];
    assert Candidates(e.orders, S, 0) == [1, 2] by {
      assert Candidates(e.orders, S, 4) == [] && Candidates(e.orders, S, 3) == [];
      assert Candidates(e.orders, S, 2) == [2] && Candidates(e.orders, S, 1) == [1, 2];
    }
    StopWaits(e);
    TargetStrands(d, e);
    assert [1, 2][1..] == [2];
    assert Passed(e, [1, 2], 90.0, 3) == Passed(e, [2], 90.0, 3);
  }

  /** What is left of the bracket: the stop, at rest without a reservation. */
  predicate OnlyStopRests(d: Desk) {
    && |d.orders| == 4 && d.orders[1] == STOP && d.orders[2].status.Complete? && d.orders[2].ocoGroup == Some(0)
    && d.orders[0].key == d.orders[2].key == S && d.orders[3].key == T
    && !d.orders[0].Resting() && !d.orders[3].Resting() && d.reservations == map[]
  }

  lemma StopWaits(e: Desk)
    requires |e.orders| > 1 && e.orders[1] == STOP
    ensures Evaluated(e, 1, 90.0, 3) == Step(e, [], None)
  {
    assert Decide(STOP, 90.0, 3) == Rest(STOP);
    assert e.orders[1 := STOP] == e.orders;
  }

  lemma TargetStrands(d: Desk, e: Desk)
    requires Overcommitted(d) && e == d.(ledger := d.ledger.(reserved := 110.0))
    ensures e.orders[2] == TARGET
    ensures var s := Evaluated(e, 2, 90.0, 3);
            s.error.Some? && OnlyStopRests(s.desk) && s.desk.ledger.cash == 0.0
  {
    hide GroupsOk, Current, Exchanged, SiblingsReleasable;
    assert forall i | 0 <= i < 3 :: d.orders[i] == d.orders[..3][i];
    SameGroups(d, e);
    TargetPays(d, e);
    FillRaisesExactly(e, 2, 90.0, 3);
    CannotRelease(e);
    StopIsLeft(e);
  }

  lemma CannotRelease(e: Desk)
    requires |e.orders| == 4 && e.orders[1] == STOP && e.orders[2] == TARGET
    requires e.ledger.reserved == 110.0 && e.reservations == map[1 := 110.0, 2 := 90.0]
    ensures !SiblingsReleasable(e, 2)
  {
    assert Siblings(e.orders, 2, 1);
    assert At(e.reservations, 1) == 110.0 && At(e.reservations, 2) == 90.0;
  }

  lemma TargetPays(d: Desk, e: Desk)
    requires Overcommitted(d) && e == d.(ledger := d.ledger.(reserved := 110.0)) && e.orders[2] == TARGET
    ensures Pays(e, 2, 90.0, 3)
  {
    hide GroupsOk, Current, Unrecordable;
    assert Cost(1, 90.0) == 90.0;
    CurrentLater(d.book, 1, 3);
    CurrentIsRecordable(d.book, TARGET, 90.0, 3);
  }

  lemma SameGroups(d: Desk, e: Desk)
    requires GroupsOk(d) && e.orders == d.orders && e.groups == d.groups
    ensures GroupsOk(e)
  {
  }

  lemma StopIsLeft(e: Desk)
    requires Pays(e, 2, 90.0, 3) && Exchanging(e, 2, 90.0, 3).error.Some?
    requires |e.orders| == 4 && e.orders[1] == STOP && e.orders[2] == TARGET
    requires e.orders[3].key == T && e.ledger.cash == 90.0 && e.ledger.reserved == 110.0
    requires e.orders[0].ocoGroup.None? && e.orders[3].ocoGroup.None? && e.reservations == map[1 := 110.0, 2 := 90.0]
    requires !e.orders[0].Resting() && !e.orders[3].Resting()
    ensures var s := Exchanging(e, 2, 90.0, 3);
            && s.closed == [] && |s.desk.orders| == 4 && s.desk.orders[1] == STOP
            && s.desk.orders[2].status.Complete? && s.desk.orders[2].ocoGroup == Some(0) && s.desk.orders[2].key == S
            && s.desk.orders[0] == e.orders[0] && s.desk.orders[3] == e.orders[3]
            && s.desk.reservations == map[] && s.desk.ledger.cash == 0.0
  {
    hide Filled, TradesOf, TotalPnl, Unrecordable;
    var x := Filling(e, 2, 90.0, 3).desk;
    FillingCompletes(e, 2, 90.0, 3);
    FillingHolds(e, 2, 90.0, 3);
    FillingIsTrade(e, 2, 90.0, 3);
    assert Cost(1, 90.0) == 90.0;
    assert x.ledger.cash == 0.0;
    assert At(e.reservations, 2) == 90.0 && x.ledger.reserved == 20.0 && x.reservations == map[1 := 110.0];
    hide Filling, Exchanging;
    StopCannotBeReleased(x);
  }

  lemma StopCannotBeReleased(x: Desk)
    requires |x.orders| == 4 && x.orders[0].ocoGroup.None? && x.orders[1] == STOP
    requires x.ledger.reserved == 20.0 && x.reservations == map[1 := 110.0]
    ensures var c := SiblingsCancelled(x, 2, Some(0), 0, 3);
            && c.error.Some? && c.desk == x.(reservations := map[])
  {
    assert x.reservations - {1} == map[];
    assert Unreserved(x, 1).error.Some?;
    assert SiblingsCancelled(x, 2, Some(0), 0, 3) == SiblingsCancelled(x, 2, Some(0), 1, 3);
  }

  const MODIFY: Op := Modify(DOUBLE, 2)
  const PRICE_90: Op := Price(S, 90.0, 3)
  const SELL_T: Op := Place(MarketRequest(T, Sell, 1), 200.0, 4)
  const PRICE_110: Op := Price(S, 110.0, 5)

  /** With new cash on the account the stop fills as well. */
  lemma StopFillsToo(e: Engine)
    requires OnlyStopRests(e.desk) && Current(e.desk.book, 4) && e.desk.ledger.cash == 0.0
    ensures var f := Apply(Apply(e, SELL_T), PRICE_110).desk.orders;
            && |f| > 2 && Siblings(f, 1, 2) && f[1].status.Complete? && f[2].status.Complete?
  {
    hide Placed, Current, Evaluated, OnlyStopRests;
    var d := Apply(e, SELL_T).desk;
    CashComesIn(e);
    StopFills(d);
    var s := Evaluated(d, 1, 110.0, 5);
    assert [1][1..] == [] && s.closed + [] == s.closed;
    assert Passed(s.desk, [], 110.0, 5) == Step(s.desk, [], None);
    assert Passed(d, [1], 110.0, 5).desk == s.desk;
  }

  lemma CashComesIn(e: Engine)
    requires OnlyStopRests(e.desk) && Current(e.desk.book, 4) && e.desk.ledger.cash == 0.0
    ensures var d := Apply(e, SELL_T).desk;
            && |d.orders| == 5 && d.orders[1] == STOP && d.orders[2].status.Complete? && d.orders[2].ocoGroup == Some(0)
            && d.reservations == map[] && d.ledger.cash == 200.0 && Current(d.book, 5)
            && Candidates(d.orders, S, 0) == [1]
  {
    hide Placed, Current, Filled, PnlOf, TotalPnl, Candidates;
    assert Cost(1, 200.0) == 200.0;
    MarketOrderOutcome(e.desk, T, Sell, 1, 200.0, 4);
    var d := Apply(e, SELL_T).desk;
    assert forall i | 0 <= i < 4 :: d.orders[i] == d.orders[..4][i];
    OnlyTheStop(d.orders);
    CurrentLater(d.book, 4, 5);
  }

  lemma OnlyTheStop(orders: seq<Order>)
    requires |orders| == 5 && orders[1] == STOP && forall i | 0 <= i < 5 && i != 1 :: !orders[i].Resting()
    ensures Candidates(orders, S, 0) == [1]
  {
    assert Candidates(orders, S, 5) == [] && Candidates(orders, S, 4) == [] && Candidates(orders, S, 3) == [];
    assert Candidates(orders, S, 2) == [] && Candidates(orders, S, 1) == [1];
  }

  lemma StopFills(d: Desk)
    requires |d.orders| == 5 && d.orders[1] == STOP && d.orders[2].status.Complete? && d.orders[2].ocoGroup == Some(0)
    requires d.reservations == map[] && d.ledger.cash == 200.0 && Current(d.book, 5)
    ensures var s := Evaluated(d, 1, 110.0, 5);
            && |s.desk.orders| == 5 && s.desk.orders[1].status.Complete? && s.desk.orders[1].ocoGroup == Some(0)
            && s.desk.orders[2].status.Complete? && s.desk.orders[2].ocoGroup == Some(0)
  {
    hide Current, Unrecordable, Filling, SiblingsCancelled;
    assert Cost(1, 110.0) == 110.0 && d.reservations - {1} == d.reservations;
    CurrentIsRecordable(d.book, STOP, 110.0, 5);
    assert Pays(d, 1, 110.0, 5);
    var x := Filling(d, 1, 110.0, 5).desk;
    FillingCompletes(d, 1, 110.0, 5);
    FillingIsTrade(d, 1, 110.0, 5);
    SiblingsFillNothing(x, 1, Some(0), 0, 5);
    var c := SiblingsCancelled(x, 1, Some(0), 0, 5).desk;
    assert Evolved(x.orders[1], c.orders[1]) && Evolved(x.orders[2], c.orders[2]);
    hide Exchanged;
    assert Exchanging(d, 1, 110.0, 5).desk == c;
  }

  /** Exclusivity fails without prudence: a short with its bracket, a MARKET BUY
      elsewhere, a modification that cannot be funded, and both legs fill. */
  lemma ImprudenceFillsBothLegs()
    ensures var ops := [ENTER, BUY_T, MODIFY, PRICE_90, SELL_T, PRICE_110];
            var o := Run(NewEngine(100.0), ops).desk.orders;
            |o| > 2 && Siblings(o, 1, 2) && o[1].status.Complete? && o[2].status.Complete?
  {
    hide Apply, Overcommitted, OnlyStopRests, Current, Siblings;
    var e0 := NewEngine(100.0);
    EatingIntoReserves();
    var e3 := Apply(Apply(Apply(e0, ENTER), BUY_T), MODIFY);
    MiddleCalls(Apply(Apply(e0, ENTER), BUY_T));
    StopFillsToo(Apply(e3, PRICE_90));
    RunOfThree(e0, ENTER, BUY_T, MODIFY);
    RunOfThree(e3, PRICE_90, SELL_T, PRICE_110);
    RunInParts(e0, [ENTER, BUY_T, MODIFY], [PRICE_90, SELL_T, PRICE_110]);
    assert [ENTER, BUY_T, MODIFY] + [PRICE_90, SELL_T, PRICE_110]
        == [ENTER, BUY_T, MODIFY, PRICE_90, SELL_T, PRICE_110];
  }

  lemma MiddleCalls(e: Engine)
    requires Overcommitted(e.desk)
    ensures var f := Apply(Apply(e, MODIFY), PRICE_90);
            OnlyStopRests(f.desk) && Current(f.desk.book, 4) && f.desk.ledger.cash == 0.0
  {
    hide Modified, PriceProcessed, OnlyStopRests, Current, GroupsOk;
    DoublingLosesTheHold(e.desk);
    TargetFills(e.desk);
    CurrentLater(e.desk.book, 1, 2);
    CallKeepsCurrent(e, MODIFY);
    CurrentLater(Apply(e, MODIFY).desk.book, 2, 3);
    CallKeepsCurrent(Apply(e, MODIFY), PRICE_90);
    CurrentLater(Apply(Apply(e, MODIFY), PRICE_90).desk.book, 3, 4);
  }
}
