/** What the resting legs of bracketed option entries may still sell. */
module Commitments {
  import opened Domain
  import opened Sums
  import opened OrderDesk
  import opened Lifecycle
  import opened Oco

  predicate HasRestingLeg(orders: seq<Order>, p: nat) {
    exists i :: 0 <= i < |orders| && orders[i].Resting() && orders[i].parent == Some(p)
  }

  /** Every entry of an instrument that still has a resting leg, with its quantity:
      its legs are alternatives, so together they sell it at most once. */
  function Held(orders: seq<Order>, key: Key): map<nat, real> {
    map p: nat | p < |orders| && orders[p].key == key && HasRestingLeg(orders, p) :: orders[p].quantity as real
  }

  ghost function Committed(orders: seq<Order>, key: Key): real { Total(Held(orders, key)) }

  /** A resting option order is a SELL leg of no more than its entry's quantity. */
  predicate OptionLegOk(orders: seq<Order>, i: nat)
    requires i < |orders|
  {
    orders[i].Resting() && orders[i].key.exchange.NFO? ==>
      && orders[i].side.Sell? && orders[i].parent.Some? && orders[i].parent.value < |orders|
      && orders[i].quantity <= orders[orders[i].parent.value].quantity
  }

  /** Option legs of one entry are of one group. */
  predicate OneGroup(orders: seq<Order>, i: nat, j: nat)
    requires i < |orders| && j < |orders|
  {
    orders[i].key.exchange.NFO? && orders[i].parent.Some? && orders[i].parent == orders[j].parent ==>
      orders[i].ocoGroup == orders[j].ocoGroup
  }

  ghost predicate OptionLegsOk(orders: seq<Order>) {
    && (forall i: nat | i < |orders| :: OptionLegOk(orders, i))
    && (forall i: nat, j: nat | i < |orders| && j < |orders| :: OneGroup(orders, i, j))
  }

  /** Resting option orders stay no larger than they were, and newcomers trade elsewhere. */
  predicate Dwindles(a: seq<Order>, b: seq<Order>) {
    && Evolves(a, b)
    && (forall i: nat | i < |a| && b[i].Resting() && b[i].key.exchange.NFO? :: b[i].quantity <= a[i].quantity)
    && (forall i: nat | |a| <= i < |b| :: b[i].key.exchange.NFO? ==> !b[i].Resting() && b[i].parent.None?)
  }

  lemma {:induction false} TotalOfFewer(m: map<nat, real>, n: map<nat, real>)
    requires n.Keys <= m.Keys && (forall k | k in n :: n[k] == m[k]) && forall k | k in m :: m[k] >= 0.0
    ensures Total(n) <= Total(m)
    decreases |m|
  {
    if k :| k in m && k !in n {
      TotalWithout(m, k);
      Smaller(m, k);
      TotalOfFewer(m - {k}, n);
    } else {
      assert n == m;
    }
  }

  /** While groups are as their entries made them an entry with a leg has completed, and never changes again. */
  lemma EntryIsFixed(d: Desk, e: Desk, key: Key, p: nat)
    requires GroupsOk(d) && GroupsOk(e) && Dwindles(d.orders, e.orders) && key.exchange.NFO? && p in Held(e.orders, key)
    ensures p in Held(d.orders, key) && Held(d.orders, key)[p] == Held(e.orders, key)[p]
  {
    var i :| 0 <= i < |e.orders| && e.orders[i].Resting() && e.orders[i].parent == Some(p);
    assert LegOk(e.orders, e.groups, i);
    assert i < |d.orders|;
    assert Evolved(d.orders[i], e.orders[i]);
    assert LegOk(d.orders, d.groups, i);
    assert Evolved(d.orders[p], e.orders[p]);
  }

  /** Then what is committed can only dwindle. */
  lemma CommittedDwindles(d: Desk, e: Desk, key: Key)
    requires GroupsOk(d) && GroupsOk(e) && Dwindles(d.orders, e.orders) && key.exchange.NFO?
    ensures Committed(e.orders, key) <= Committed(d.orders, key)
  {
    var m, n := Held(d.orders, key), Held(e.orders, key);
    forall p | p in n ensures p in m && n[p] == m[p] {
      EntryIsFixed(d, e, key, p);
    }
    TotalOfFewer(m, n);
  }

  lemma DwindlingKeepsLegs(d: Desk, e: Desk)
    requires OptionLegsOk(d.orders) && GroupsOk(d) && GroupsOk(e) && Dwindles(d.orders, e.orders)
    ensures OptionLegsOk(e.orders)
  {
    forall i: nat | i < |e.orders| ensures OptionLegOk(e.orders, i) {
      if i < |d.orders| {
        assert OptionLegOk(d.orders, i) && Evolved(d.orders[i], e.orders[i]);
        if e.orders[i].Resting() && e.orders[i].key.exchange.NFO? {
          assert LegOk(d.orders, d.groups, i);
          assert Evolved(d.orders[e.orders[i].parent.value], e.orders[e.orders[i].parent.value]);
        }
      }
    }
    forall i: nat, j: nat | i < |e.orders| && j < |e.orders| ensures OneGroup(e.orders, i, j) {
      LegsStayGrouped(d, e, i, j);
    }
  }

  lemma LegsStayGrouped(d: Desk, e: Desk, i: nat, j: nat)
    requires OptionLegsOk(d.orders) && GroupsOk(e) && Dwindles(d.orders, e.orders)
    requires i < |e.orders| && j < |e.orders|
    ensures OneGroup(e.orders, i, j)
  {
    assert LegOk(e.orders, e.groups, i) && LegOk(e.orders, e.groups, j);
    if i < |d.orders| && j < |d.orders| {
      assert OneGroup(d.orders, i, j) && Evolved(d.orders[i], e.orders[i]) && Evolved(d.orders[j], e.orders[j]);
    }
  }
}
