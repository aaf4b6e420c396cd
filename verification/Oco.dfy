/** One cancels other: a bracket's exit legs and what every move keeps of them. */
module Oco {
  import opened Domain
  import opened Sums
  import opened Positions
  import opened Matching
  import opened OrderDesk
  import opened Moves
  import opened Lifecycle

  /** A leg belongs to a known group and exits a completed entry that is no leg itself. */
  predicate LegOk(orders: seq<Order>, groups: nat, i: nat)
    requires i < |orders|
  {
    var o := orders[i];
    o.ocoGroup.Some? ==>
      && o.ocoGroup.value < groups && o.parent.value < i
      && (o.orderType.Stop? || o.orderType.Limit?)
      && var p := orders[o.parent.value];
         && p.status.Complete? && p.parent.None? && p.key == o.key && p.side == o.side.Opposite()
  }

  predicate Siblings(orders: seq<Order>, i: nat, j: nat)
    requires i < |orders| && j < |orders|
  {
    i != j && orders[i].ocoGroup.Some? && orders[i].ocoGroup == orders[j].ocoGroup
  }

  /** Siblings are a stop and a target of one entry, the stop first. */
  predicate PairOk(orders: seq<Order>, i: nat, j: nat)
    requires i < |orders| && j < |orders|
  {
    Siblings(orders, i, j) ==>
      && orders[i].parent == orders[j].parent
      && (i < j ==> orders[i].orderType.Stop? && orders[j].orderType.Limit?)
  }

  /** Once one sibling has filled, the other neither fills nor rests. */
  predicate Exclusive(orders: seq<Order>, i: nat, j: nat)
    requires i < |orders| && j < |orders|
  {
    Siblings(orders, i, j) && orders[i].status.Complete? ==>
      !orders[j].status.Complete? && !orders[j].Resting()
  }

  /** Legs and groups are as their entries made them. */
  ghost predicate GroupsOk(d: Desk) {
    && (forall i: nat | i < |d.orders| :: LegOk(d.orders, d.groups, i))
    && (forall i: nat, j: nat | i < |d.orders| && j < |d.orders| :: PairOk(d.orders, i, j))
  }

  ghost predicate OcoOk(d: Desk) {
    GroupsOk(d) && forall i: nat, j: nat | i < |d.orders| && j < |d.orders| :: Exclusive(d.orders, i, j)
  }

  /** A group never has three members. */
  lemma AtMostTwoLegs(d: Desk, i: nat, j: nat, k: nat)
    requires GroupsOk(d) && i < |d.orders| && j < |d.orders| && k < |d.orders|
    requires i != k
    ensures !(Siblings(d.orders, i, j) && Siblings(d.orders, j, k))
  {
    assert PairOk(d.orders, i, k) && PairOk(d.orders, k, i);
    assert PairOk(d.orders, i, j) && PairOk(d.orders, j, i);
    assert PairOk(d.orders, j, k) && PairOk(d.orders, k, j);
  }

  // ---------- Groups, kept by every move, broken or not ----------

  /** Without new legs groups stay as they are, whatever becomes of their members. */
  lemma EvolvingKeepsGroups(d: Desk, e: Desk)
    requires GroupsOk(d) && Evolves(d.orders, e.orders) && NoNewLegs(d.orders, e.orders) && d.groups <= e.groups
    ensures GroupsOk(e)
  {
    forall i: nat | i < |e.orders| ensures LegOk(e.orders, e.groups, i) {
      if i < |d.orders| {
        assert LegOk(d.orders, d.groups, i) && Evolved(d.orders[i], e.orders[i]);
        if d.orders[i].ocoGroup.Some? {
          assert Evolved(d.orders[d.orders[i].parent.value], e.orders[d.orders[i].parent.value]);
        }
      }
    }
    forall i: nat, j: nat | i < |e.orders| && j < |e.orders| ensures PairOk(e.orders, i, j) {
      if i < |d.orders| && j < |d.orders| {
        assert PairOk(d.orders, i, j);
        assert Evolved(d.orders[i], e.orders[i]) && Evolved(d.orders[j], e.orders[j]);
      }
    }
  }

  lemma MoveKeepsGroups(d: Desk, mv: Move)
    requires Enabled(d, mv) && GroupsOk(d)
    ensures GroupsOk(Do(d, mv))
  {
    hide GroupsOk, NoFills, Exchanged, BracketSpawned, Evolves;
    if mv.Trade? || mv.Strand? {
      TradeEvolves(d, mv.id, mv.price, mv.now);
      EvolvingKeepsGroups(d, Do(d, mv));
    } else if mv.Spawn? {
      SpawnKeepsGroups(d, mv.id, mv.now);
    } else {
      MoveEvolves(d, mv);
      OtherMovesFillNothing(d, mv);
      EvolvingKeepsGroups(d, Do(d, mv));
    }
  }

  lemma {:induction false} PlayKeepsGroups(d: Desk, ms: seq<Move>)
    requires Legal(d, ms) && GroupsOk(d)
    ensures GroupsOk(Play(d, ms))
    decreases |ms|
  {
    hide Enabled, Do, GroupsOk;
    if ms != [] {
      MoveKeepsGroups(d, ms[0]);
      PlayKeepsGroups(Do(d, ms[0]), ms[1..]);
    }
  }

  /** `o` is a fresh leg of `entry` in group `g`. */
  predicate FreshLeg(o: Order, entry: Order, id: nat, g: nat) {
    && o.ocoGroup == Some(g) && o.parent == Some(id) && o.key == entry.key && o.side == entry.side.Opposite()
    && !o.status.Complete? && (o.orderType.Stop? || o.orderType.Limit?)
  }

  lemma LegIsFresh(d: Desk, entry: Order, id: nat, isStop: bool, level: Option<real>, g: nat, now: int)
    requires PositiveIfSet(level) && entry.averageFillPrice.Some?
    ensures var e := WithLeg(d, entry, id, isStop, level, g, now);
            && d.orders <= e.orders && |e.orders| <= |d.orders| + 1 && e.groups == d.groups
            && (|e.orders| > |d.orders| ==> FreshLeg(e.orders[|d.orders|], entry, id, g)
                                            && e.orders[|d.orders|].orderType.Stop? == isStop)
  {
    hide Cost;
  }

  /** New legs form a group of their own. */
  lemma SpawnKeepsGroups(d: Desk, id: nat, now: int)
    requires GroupsOk(d) && id < |d.orders| && d.orders[id].status.Complete?
    ensures GroupsOk(BracketSpawned(d, d.orders[id], id, now))
    ensures var e := BracketSpawned(d, d.orders[id], id, now);
            && d.orders <= e.orders && d.groups <= e.groups
            && forall k | |d.orders| <= k < |e.orders| :: FreshLeg(e.orders[k], d.orders[id], id, d.groups)
  {
    hide WithLeg;
    var entry := d.orders[id];
    var e := BracketSpawned(d, entry, id, now);
    if entry.parent.None? && (entry.stopLoss.Some? || entry.target.Some?) {
      var d0 := d.(groups := d.groups + 1);
      var d1 := WithLeg(d0, entry, id, true, entry.stopLoss, d.groups, now);
      LegIsFresh(d0, entry, id, true, entry.stopLoss, d.groups, now);
      LegIsFresh(d1, entry, id, false, entry.target, d.groups, now);
      NewLegsKeepGroups(d, e, id);
    }
  }

  lemma NewLegsKeepGroups(d: Desk, e: Desk, id: nat)
    requires GroupsOk(d) && id < |d.orders| && d.orders[id].status.Complete? && d.orders[id].parent.None?
    requires d.orders <= e.orders && |e.orders| <= |d.orders| + 2 && e.groups == d.groups + 1
    requires forall k | |d.orders| <= k < |e.orders| :: FreshLeg(e.orders[k], d.orders[id], id, d.groups)
    requires |e.orders| == |d.orders| + 2 ==>
               e.orders[|d.orders|].orderType.Stop? && e.orders[|d.orders| + 1].orderType.Limit?
    ensures GroupsOk(e)
  {
    var n := |d.orders|;
    assert forall i | 0 <= i < n :: e.orders[i] == d.orders[i];
    forall i: nat | i < |e.orders| ensures LegOk(e.orders, e.groups, i) {
      if i < n { assert LegOk(d.orders, d.groups, i); }
    }
    forall i: nat, j: nat | i < |e.orders| && j < |e.orders| ensures PairOk(e.orders, i, j) {
      if i < n && j < n {
        assert PairOk(d.orders, i, j);
      } else if i < n || j < n {
        var older := if i < n then i else j;
        assert LegOk(d.orders, d.groups, older);
        assert !Siblings(e.orders, i, j);
      }
    }
  }

  // ---------- Exclusivity ----------

  lemma NoFillsKeepOco(d: Desk, e: Desk)
    requires OcoOk(d) && NoFills(d.orders, e.orders) && NoNewLegs(d.orders, e.orders) && d.groups <= e.groups
    ensures OcoOk(e)
  {
    hide LegOk, PairOk;
    EvolvingKeepsGroups(d, e);
    forall i: nat, j: nat | i < |e.orders| && j < |e.orders| ensures Exclusive(e.orders, i, j) {
      if i < |d.orders| && j < |d.orders| {
        assert Exclusive(d.orders, i, j);
        assert Evolved(d.orders[i], e.orders[i]) && Evolved(d.orders[j], e.orders[j]);
      }
    }
  }

  /** Cancelling a group leaves no other member at rest. */
  lemma {:induction false} SiblingsAreCleared(d: Desk, filled: nat, group: Option<nat>, i: nat, now: int)
    requires group.Some? && SiblingsCancelled(d, filled, group, i, now).error.None?
    ensures var e := SiblingsCancelled(d, filled, group, i, now).desk;
            forall j: nat | i <= j < |d.orders| && j != filled && d.orders[j].ocoGroup == group ::
              !e.orders[j].Resting()
    decreases |d.orders| - i
  {
    hide Withdrawn;
    SiblingsFillNothing(d, filled, group, i, now);
    if i >= |d.orders| {
    } else if i == filled || d.orders[i].ocoGroup != group || !d.orders[i].Resting() {
      SiblingsAreCleared(d, filled, group, i + 1, now);
    } else {
      WithdrawingFillsNothing(d, i, now);
      var w := Withdrawn(d, i, Cancelled, now).desk;
      SiblingsFillNothing(w, filled, group, i + 1, now);
      SiblingsAreCleared(w, filled, group, i + 1, now);
    }
  }

  lemma TradeKeepsOco(d: Desk, id: nat, price: real, now: int)
    requires OcoOk(d) && Enabled(d, Trade(id, price, now))
    ensures OcoOk(Do(d, Trade(id, price, now)))
  {
    hide Executed, SiblingsCancelled, LegOk, PairOk, GroupsOk;
    var x := Filling(d, id, price, now).desk;
    var e := Exchanging(d, id, price, now).desk;
    FillingIsTrade(d, id, price, now);
    FillingCompletes(d, id, price, now);
    SiblingsFillNothing(x, id, d.orders[id].ocoGroup, 0, now);
    if d.orders[id].ocoGroup.Some? {
      SiblingsAreCleared(x, id, d.orders[id].ocoGroup, 0, now);
    }
    assert forall i: nat | i < |d.orders| :: SameShape(d.orders[i], e.orders[i]);
    MoveKeepsGroups(d, Trade(id, price, now));
    forall i: nat, j: nat | i < |e.orders| && j < |e.orders| ensures Exclusive(e.orders, i, j) {
      assert Exclusive(d.orders, i, j) && Exclusive(d.orders, j, i);
    }
  }

  /** New legs keep what is exclusive: nothing in their group has filled. */
  lemma SpawnKeepsOco(d: Desk, id: nat, now: int)
    requires OcoOk(d) && id < |d.orders| && d.orders[id].status.Complete?
    ensures OcoOk(BracketSpawned(d, d.orders[id], id, now))
  {
    hide BracketSpawned, PairOk;
    var e := BracketSpawned(d, d.orders[id], id, now);
    var n := |d.orders|;
    SpawnKeepsGroups(d, id, now);
    forall i: nat, j: nat | i < |e.orders| && j < |e.orders| ensures Exclusive(e.orders, i, j) {
      if i < n && j < n {
        assert Exclusive(d.orders, i, j);
        assert e.orders[i] == d.orders[i] && e.orders[j] == d.orders[j];
      } else if i < n {
        assert LegOk(d.orders, d.groups, i) && e.orders[i] == d.orders[i];
      }
    }
  }

  /** Every unbroken move keeps the groups exclusive. */
  lemma MoveKeepsOco(d: Desk, mv: Move)
    requires Enabled(d, mv) && OcoOk(d) && !mv.Broken()
    ensures OcoOk(Do(d, mv))
  {
    hide OcoOk, NoFills, Exchanged, BracketSpawned;
    if mv.Trade? {
      TradeKeepsOco(d, mv.id, mv.price, mv.now);
    } else if mv.Spawn? {
      SpawnKeepsOco(d, mv.id, mv.now);
    } else {
      OtherMovesFillNothing(d, mv);
      NoFillsKeepOco(d, Do(d, mv));
    }
  }

  lemma {:induction false} PlayKeepsOco(d: Desk, ms: seq<Move>)
    requires Legal(d, ms) && OcoOk(d) && Sound(ms)
    ensures OcoOk(Play(d, ms))
    decreases |ms|
  {
    hide Enabled, Do, OcoOk;
    if ms != [] {
      MoveKeepsOco(d, ms[0]);
      PlayKeepsOco(Do(d, ms[0]), ms[1..]);
    }
  }

  // ---------- The one way to break a group ----------

  /** When the ledger refuses a sibling's release, that sibling goes on resting. */
  lemma {:induction false} RefusedSiblingRests(d: Desk, filled: nat, group: Option<nat>, i: nat, now: int)
    returns (j: nat)
    requires SiblingsCancelled(d, filled, group, i, now).error.Some?
    ensures var e := SiblingsCancelled(d, filled, group, i, now).desk;
            j < |d.orders| && j != filled && group.Some? && d.orders[j].ocoGroup == group && e.orders[j].Resting()
    decreases |d.orders| - i
  {
    if i == filled || d.orders[i].ocoGroup != group || !d.orders[i].Resting() {
      j := RefusedSiblingRests(d, filled, group, i + 1, now);
    } else {
      var w := Withdrawn(d, i, Cancelled, now);
      WithdrawingFillsNothing(d, i, now);
      if w.error.Some? {
        j := i;
      } else {
        j := RefusedSiblingRests(w.desk, filled, group, i + 1, now);
        assert Evolved(d.orders[j], w.desk.orders[j]);
      }
    }
  }

  /** The ledger takes a reservation back, if there is one. */
  predicate Releasable(reserved: real, held: real) { held == 0.0 || 0.0 <= held <= reserved + EPSILON }

  /** Cash still reserved can take back what every other resting member of order `id`'s group holds. */
  predicate SiblingsReleasable(d: Desk, id: nat)
    requires id < |d.orders|
  {
    forall j: nat | j < |d.orders| && Siblings(d.orders, id, j) && d.orders[j].Resting() ::
      Releasable(d.ledger.reserved - At(d.reservations, id), At(d.reservations, j))
  }

  /** With at most one other member, the cancellation raises exactly when that one cannot be released. */
  lemma {:induction false} CancellationRaisesExactly(d: Desk, filled: nat, i: nat, now: int)
    requires filled < |d.orders| && i <= |d.orders| && d.orders[filled].ocoGroup.Some?
    requires forall j: nat, k: nat | i <= j < |d.orders| && k < |d.orders| ::
               !(Siblings(d.orders, filled, j) && Siblings(d.orders, j, k) && k != filled)
    ensures SiblingsCancelled(d, filled, d.orders[filled].ocoGroup, i, now).error.None?
            <==> forall j: nat | i <= j < |d.orders| && Siblings(d.orders, filled, j) && d.orders[j].Resting() ::
                   Releasable(d.ledger.reserved, At(d.reservations, j))
    decreases |d.orders| - i
  {
    var group := d.orders[filled].ocoGroup;
    if i == |d.orders| {
    } else if i == filled || d.orders[i].ocoGroup != group || !d.orders[i].Resting() {
      CancellationRaisesExactly(d, filled, i + 1, now);
    } else {
      assert Siblings(d.orders, filled, i);
      UnreservingExactly(d, i);
      var w := Withdrawn(d, i, Cancelled, now);
      forall j: nat | i < j < |d.orders| ensures !Siblings(d.orders, filled, j) {
        assert Siblings(d.orders, filled, j) ==> Siblings(d.orders, j, i);
      }
      if w.error.None? {
        forall j: nat | i < j < |d.orders| && j != filled ensures w.desk.orders[j].ocoGroup != group {
          assert w.desk.orders[j] == d.orders[j] && !Siblings(d.orders, filled, j);
        }
        NoMoreSiblings(w.desk, filled, group, i + 1, now);
      }
    }
  }

  lemma UnreservingExactly(d: Desk, id: nat)
    ensures Unreserved(d, id).error.None? <==> Releasable(d.ledger.reserved, At(d.reservations, id))
  {
  }

  lemma {:induction false} NoMoreSiblings(d: Desk, filled: nat, group: Option<nat>, i: nat, now: int)
    requires forall j: nat | i <= j < |d.orders| && j != filled :: d.orders[j].ocoGroup != group
    ensures SiblingsCancelled(d, filled, group, i, now).error.None?
    decreases |d.orders| - i
  {
    if i < |d.orders| { NoMoreSiblings(d, filled, group, i + 1, now); }
  }

  /** Exclusivity is exact, fill by fill: it survives if and only if, before the
      fill, the cash reserved for other orders can take back what the sibling holds. */
  lemma FillKeepsOcoExactlyWhenReleased(d: Desk, id: nat, price: real, now: int)
    requires OcoOk(d) && Pays(d, id, price, now)
    ensures OcoOk(Exchanging(d, id, price, now).desk) <==> SiblingsReleasable(d, id)
  {
    hide Executed, SiblingsCancelled, LegOk, PairOk, Releasable;
    var s := Exchanging(d, id, price, now);
    FillRaisesExactly(d, id, price, now);
    if s.error.None? {
      TradeKeepsOco(d, id, price, now);
    } else {
      var x := Filling(d, id, price, now).desk;
      FillingIsTrade(d, id, price, now);
      FillingCompletes(d, id, price, now);
      SiblingsFillNothing(x, id, d.orders[id].ocoGroup, 0, now);
      var j := RefusedSiblingRests(x, id, d.orders[id].ocoGroup, 0, now);
      assert Evolved(x.orders[j], s.desk.orders[j]);
      assert Siblings(s.desk.orders, id, j);
      assert !Exclusive(s.desk.orders, id, j);
    }
  }

  /** ... and so is the way to the history, fill by fill: what a fill closes is
      returned to be recorded if and only if the sibling can be released, or
      nothing was closed. */
  lemma FillIsReturnedExactly(d: Desk, id: nat, price: real, now: int)
    requires GroupsOk(d) && Pays(d, id, price, now)
    ensures Exchanging(d, id, price, now).closed == Filling(d, id, price, now).closed
            <==> SiblingsReleasable(d, id) || Filling(d, id, price, now).closed == []
  {
    hide SiblingsCancelled, GroupsOk, SiblingsReleasable, Unrecordable, Executed, Decide;
    FillRaisesExactly(d, id, price, now);
  }

  lemma FillRaisesExactly(d: Desk, id: nat, price: real, now: int)
    requires GroupsOk(d) && Pays(d, id, price, now)
    ensures Exchanging(d, id, price, now).error.None? <==> SiblingsReleasable(d, id)
  {
    hide SiblingsCancelled, GroupsOk, Releasable, Unrecordable, Filling, Exchanging, Siblings, Decide;
    var x := Filling(d, id, price, now).desk;
    FillingIsTrade(d, id, price, now);
    FillingCompletes(d, id, price, now);
    FillingHolds(d, id, price, now);
    assert x.orders == d.orders[id := x.orders[id]];
    SiblingsOfFilled(d, x, id);
    if d.orders[id].ocoGroup.Some? {
      forall j: nat, k: nat | j < |x.orders| && k < |x.orders|
        ensures !(Siblings(x.orders, id, j) && Siblings(x.orders, j, k) && k != id)
      {
        if k != id { AtMostTwoLegs(d, id, j, k); }
      }
      CancellationRaisesExactly(x, id, 0, now);
    } else {
      NoGroupNothingCancelled(x, id, now);
    }
  }

  /** Filling an order changes no group and no other order or reservation. */
  lemma SiblingsOfFilled(d: Desk, x: Desk, id: nat)
    requires id < |d.orders| == |x.orders| && x.orders == d.orders[id := x.orders[id]]
    requires x.orders[id].ocoGroup == d.orders[id].ocoGroup && x.reservations == d.reservations - {id}
    ensures forall i: nat, j: nat | i < |d.orders| && j < |d.orders| ::
              Siblings(x.orders, i, j) <==> Siblings(d.orders, i, j)
    ensures forall j: nat | j < |d.orders| && Siblings(d.orders, id, j) ::
              x.orders[j] == d.orders[j] && At(x.reservations, j) == At(d.reservations, j)
    ensures d.orders[id].ocoGroup.None? ==> forall j: nat | j < |d.orders| :: !Siblings(d.orders, id, j)
  {
  }

  lemma NoGroupNothingCancelled(d: Desk, id: nat, now: int)
    ensures SiblingsCancelled(d, id, None, 0, now) == Attempt(d, None)
  {
  }

  lemma FillingHolds(d: Desk, id: nat, price: real, now: int)
    requires Pays(d, id, price, now)
    ensures var x := Filling(d, id, price, now).desk;
            && x.reservations == d.reservations - {id}
            && x.ledger.reserved == d.ledger.reserved - At(d.reservations, id)
  {
    hide Filled, TradesOf, Unrecordable;
  }
}
