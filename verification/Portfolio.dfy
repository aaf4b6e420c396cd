/** The cash, reservation and realized-profit ledger, and the account snapshot. */
module Portfolios {
  import opened Domain

  datatype Ledger = Ledger(initialCapital: real, cash: real, reserved: real, realized: real) {
    function Available(): real { cash - reserved }
  }

  function Fresh(capital: real): Ledger { Ledger(capital, capital, 0.0, 0.0) }

  function Debited(l: Ledger, amount: real): Result<Ledger> {
    if amount < 0.0 then Err(InvalidArgument)
    else if amount > l.cash + EPSILON then Err(InsufficientCash(amount, l.cash))
    else Ok(l.(cash := l.cash - amount))
  }

  function Credited(l: Ledger, amount: real): Result<Ledger> {
    if amount < 0.0 then Err(InvalidArgument) else Ok(l.(cash := l.cash + amount))
  }

  function Reserved(l: Ledger, amount: real): Result<Ledger> {
    if amount < 0.0 then Err(InvalidArgument)
    else if amount > l.Available() + EPSILON then Err(InsufficientCash(amount, l.Available()))
    else Ok(l.(reserved := l.reserved + amount))
  }

  function Released(l: Ledger, amount: real): Result<Ledger> {
    if amount < 0.0 then Err(InvalidArgument)
    else if amount > l.reserved + EPSILON then Err(OverRelease(amount, l.reserved))
    else Ok(l.(reserved := l.reserved - amount))
  }

  /** The state after a call that changes nothing when it raises. */
  function After<T>(r: Result<T>, before: T): T { if r.Ok? then r.value else before }

  function Raised<T>(r: Result<T>): Outcome { if r.Ok? then Pass else Fail(r.error) }

  /** What each ledger call accepts: an amount that is not negative and, as far as
      it takes something, is there up to the slack. */
  lemma LedgerAccepts(l: Ledger, amount: real)
    ensures Debited(l, amount).Ok? <==> 0.0 <= amount <= l.cash + EPSILON
    ensures Credited(l, amount).Ok? <==> 0.0 <= amount
    ensures Reserved(l, amount).Ok? <==> 0.0 <= amount <= l.cash - l.reserved + EPSILON
    ensures Released(l, amount).Ok? <==> 0.0 <= amount <= l.reserved + EPSILON
  {
  }

  /** Crediting undoes a debit, and releasing undoes a reservation. */
  lemma LedgerUndoes(l: Ledger, amount: real)
    ensures Debited(l, amount).Ok? ==> Credited(Debited(l, amount).value, amount) == Ok(l)
    ensures Reserved(l, amount).Ok? && l.reserved >= -EPSILON ==>
              Released(Reserved(l, amount).value, amount) == Ok(l)
  {
  }

  // ---------- Snapshots ----------

  datatype Portfolio = Portfolio(
    cash: real, availableCash: real, usedCapital: real, initialCapital: real,
    realizedPnl: real, unrealizedPnl: real, totalPnl: real, equity: real,
    positions: seq<PaperPosition>, updatedAt: int)
  {
    predicate Valid() {
      && initialCapital > 0.0
      && 0.0 <= availableCash <= cash + EPSILON
      && Abs(usedCapital - UsedCapital(positions)) <= EPSILON
      && Abs(unrealizedPnl - Unrealized(positions)) <= EPSILON
      && Abs(totalPnl - (realizedPnl + unrealizedPnl)) <= EPSILON
      && Abs(equity - (cash + MarketValue(positions))) <= EPSILON
    }
  }

  function UsedCapital(ps: seq<PaperPosition>): real {
    if ps == [] then 0.0
    else Cost(if ps[0].quantity < 0 then -ps[0].quantity else ps[0].quantity, ps[0].averagePrice)
         + UsedCapital(ps[1..])
  }

  function Unrealized(ps: seq<PaperPosition>): real {
    if ps == [] then 0.0 else ps[0].unrealizedPnl + Unrealized(ps[1..])
  }

  function MarketValue(ps: seq<PaperPosition>): real {
    if ps == [] then 0.0 else Cost(ps[0].quantity, ps[0].lastPrice) + MarketValue(ps[1..])
  }

  /** The snapshot, or the validator's refusal. */
  function Snapshot(l: Ledger, ps: seq<PaperPosition>, now: int): Result<Portfolio> {
    var p := Portfolio(l.cash, l.Available(), UsedCapital(ps), l.initialCapital, l.realized,
                       Unrealized(ps), l.realized + Unrealized(ps), l.cash + MarketValue(ps), ps, now);
    if p.Valid() then Ok(p) else Err(ValidationFailed)
  }

  /** The ledger allows a snapshot. */
  predicate CanSnapshot(l: Ledger) { l.initialCapital > 0.0 && 0.0 <= l.Available() <= l.cash + EPSILON }

  lemma SnapshotNeedsOnlyTheLedger(l: Ledger, ps: seq<PaperPosition>, now: int)
    ensures Snapshot(l, ps, now).Ok? <==> CanSnapshot(l)
    ensures Snapshot(l, ps, now).Ok? ==> Snapshot(l, ps, now).value.realizedPnl == l.realized
    ensures Snapshot(l, ps, now).Err? ==> Snapshot(l, ps, now).error == ValidationFailed
  {
  }

  /** Of all the validators only the one on available cash can fire, and it
      has no slack below zero although every reservation has. */
  lemma SnapshotExactlyWhenUncommitted(l: Ledger, ps: seq<PaperPosition>, now: int)
    requires l.initialCapital > 0.0
    ensures Snapshot(l, ps, now).Ok? <==> 0.0 <= l.Available() && -EPSILON <= l.reserved
  {
  }

  /** A reservation the ledger accepts can make the next snapshot raise, so
      the tolerance does not carry over as the ledger's comment promises. */
  lemma AcceptedReservationCanBreakSnapshot()
    ensures var l := Fresh(100.0);
            var r := Reserved(l, 100.0000005);
            r.Ok? && Snapshot(l, [], 0).Ok? && Snapshot(r.value, [], 0).Err?
  {
    hide Snapshot;
    var l := Fresh(100.0);
    SnapshotNeedsOnlyTheLedger(l, [], 0);
    var r := Reserved(l, 100.0000005);
    assert r == Ok(Ledger(100.0, 100.0, 100.0000005, 0.0));
    SnapshotNeedsOnlyTheLedger(r.value, [], 0);
  }

  /** Exactly when an accepted reservation leaves the account fit for a snapshot. */
  lemma ReservationKeepsSnapshot(l: Ledger, amount: real, ps: seq<PaperPosition>, now: int)
    requires l.initialCapital > 0.0 && l.reserved >= 0.0
    requires Reserved(l, amount).Ok?
    ensures Snapshot(Reserved(l, amount).value, ps, now).Ok? <==> amount <= l.Available()
  {
  }

  class PortfolioManager {
    var initialCapital: real
    var cash: real
    var reservedCash: real
    var realizedPnl: real

    ghost function View(): Ledger
      reads this
    {
      Ledger(initialCapital, cash, reservedCash, realizedPnl)
    }

    constructor (capital: real)
      requires capital > 0.0
      ensures View() == Fresh(capital)
    {
      initialCapital, cash, reservedCash, realizedPnl := capital, capital, 0.0, 0.0;
    }

    method Debit(amount: real) returns (r: Outcome)
      modifies this
      ensures View() == After(Debited(old(View()), amount), old(View()))
      ensures r == Raised(Debited(old(View()), amount))
    {
      if amount < 0.0 { return Fail(InvalidArgument); }
      if amount > cash + EPSILON { return Fail(InsufficientCash(amount, cash)); }
      cash := cash - amount;
      return Pass;
    }

    method Credit(amount: real) returns (r: Outcome)
      modifies this
      ensures View() == After(Credited(old(View()), amount), old(View()))
      ensures r == Raised(Credited(old(View()), amount))
    {
      if amount < 0.0 { return Fail(InvalidArgument); }
      cash := cash + amount;
      return Pass;
    }

    method ReserveCash(amount: real) returns (r: Outcome)
      modifies this
      ensures View() == After(Reserved(old(View()), amount), old(View()))
      ensures r == Raised(Reserved(old(View()), amount))
    {
      if amount < 0.0 { return Fail(InvalidArgument); }
      var available := cash - reservedCash;
      if amount > available + EPSILON { return Fail(InsufficientCash(amount, available)); }
      reservedCash := reservedCash + amount;
      return Pass;
    }

    method ReleaseCash(amount: real) returns (r: Outcome)
      modifies this
      ensures View() == After(Released(old(View()), amount), old(View()))
      ensures r == Raised(Released(old(View()), amount))
    {
      if amount < 0.0 { return Fail(InvalidArgument); }
      if amount > reservedCash + EPSILON { return Fail(OverRelease(amount, reservedCash)); }
      reservedCash := reservedCash - amount;
      return Pass;
    }

    method RecordRealizedPnl(amount: real)
      modifies this
      ensures View() == old(View()).(realized := old(View()).realized + amount)
    {
      realizedPnl := realizedPnl + amount;
    }

    method TakeSnapshot(positions: seq<PaperPosition>, now: int) returns (r: Result<Portfolio>)
      ensures r == Snapshot(View(), positions, now)
    {
      var used, open, market := UsedCapital(positions), Unrealized(positions), MarketValue(positions);
      var p := Portfolio(cash, cash - reservedCash, used, initialCapital, realizedPnl, open,
                         realizedPnl + open, cash + market, positions, now);
      return if p.Valid() then Ok(p) else Err(ValidationFailed);
    }

    method Reset(capital: Option<real>) returns (r: Outcome)
      modifies this
      ensures var c := capital.GetOr(old(initialCapital));
              if c <= 0.0 then r == Fail(InvalidArgument) && View() == old(View())
              else r == Pass && View() == Fresh(c)
    {
      var c := capital.GetOr(initialCapital);
      if c <= 0.0 { return Fail(InvalidArgument); }
      initialCapital, cash, reservedCash, realizedPnl := c, c, 0.0, 0.0;
      return Pass;
    }
  }
}
