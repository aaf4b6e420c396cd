/** The paper trading engine: the facade over ledger, positions and orders,
    with the append-only trade history, and runs of its operations. */
module Engine {
  import opened Domain
  import opened Portfolios
  import opened Positions
  import opened OrderDesk
  import opened OrderManagers

  datatype Engine = Engine(desk: Desk, trades: seq<ClosedTrade>)

  function NewEngine(capital: real): Engine { Engine(NewDesk(capital), []) }

  /** The calls a client can make, with the clock reading each is given. */
  datatype Op =
    | Place(req: PaperOrderRequest, price: real, now: int)
    | Cancel(id: nat, now: int)
    | Modify(m: OrderModification, now: int)
    | Price(key: Key, price: real, now: int)
  {
    predicate Valid() {
      match this
      case Place(req, _, _) => req.Valid()
      case Modify(m, _) => m.Valid()
      case _ => true
    }
  }

  /** The history grows only by what a call returns: a call that raises adds nothing. */
  function Recorded(e: Engine, s: Step): Engine {
    Engine(s.desk, if s.error.Some? then e.trades else e.trades + s.closed)
  }

  function PriceUpdated(e: Engine, key: Key, price: real, now: int): Engine {
    var s := PriceProcessed(e.desk, key, price, now);
    var r := Recorded(e, s);
    if s.error.Some? then r else r.(desk := r.desk.(book := Marked(r.desk.book, key, price, now)))
  }

  /** One call, whether it returns or raises. */
  function Apply(e: Engine, op: Op): Engine
    requires op.Valid()
  {
    match op
    case Place(req, price, now) => Recorded(e, Placed(e.desk, req, price, now))
    case Cancel(id, now) => e.(desk := CancelledOrder(e.desk, id, now).desk)
    case Modify(m, now) => e.(desk := Modified(e.desk, m, now).desk)
    case Price(key, price, now) => PriceUpdated(e, key, price, now)
  }

  predicate ValidOps(ops: seq<Op>) { forall i | 0 <= i < |ops| :: ops[i].Valid() }

  /** The clock readings never go back, and start no earlier than `start`. */
  predicate Timely(ops: seq<Op>, start: int) {
    ops != [] ==> start <= ops[0].now && Timely(ops[1..], ops[0].now)
  }

  function Run(e: Engine, ops: seq<Op>): Engine
    requires ValidOps(ops)
    decreases |ops|
  {
    if ops == [] then e else Run(Apply(e, ops[0]), ops[1..])
  }

  /** The last call of a run. */
  lemma {:induction false} RunOfMore(e: Engine, ops: seq<Op>, op: Op)
    requires ValidOps(ops) && op.Valid()
    ensures Run(e, ops + [op]) == Apply(Run(e, ops), op)
    decreases |ops|
  {
    hide Apply;
    if ops == [] {
      assert [] + [op] == [op] && [op][1..] == [];
      assert Run(Apply(e, op), []) == Apply(e, op);
    } else {
      assert (ops + [op])[1..] == ops[1..] + [op];
      RunOfMore(Apply(e, ops[0]), ops[1..], op);
    }
  }

  lemma RunOfThree(e: Engine, a: Op, b: Op, c: Op)
    requires a.Valid() && b.Valid() && c.Valid()
    ensures Run(e, [a]) == Apply(e, a) && Run(e, [a, b]) == Apply(Apply(e, a), b)
    ensures Run(e, [a, b, c]) == Apply(Apply(Apply(e, a), b), c)
  {
    hide Apply;
    RunOfMore(e, [], a);
    RunOfMore(e, [a], b);
    RunOfMore(e, [a, b], c);
    assert [] + [a] == [a] && [a] + [b] == [a, b] && [a, b] + [c] == [a, b, c];
  }

  /** A run in two parts. */
  lemma {:induction false} RunInParts(e: Engine, a: seq<Op>, b: seq<Op>)
    requires ValidOps(a) && ValidOps(b)
    ensures Run(e, a + b) == Run(Run(e, a), b)
    decreases |a|
  {
    hide Apply;
    if a == [] {
      assert a + b == b;
    } else {
      assert (a + b)[1..] == a[1..] + b;
      RunInParts(Apply(e, a[0]), a[1..], b);
    }
  }

  class PaperTradingEngine {
    const portfolio: PortfolioManager
    const positions: PositionManager
    const orders: OrderManager
    var tradeHistory: seq<ClosedTrade>

    ghost predicate Valid()
      reads this
    {
      orders.portfolio == portfolio && orders.positions == positions
    }

    ghost function View(): Engine
      reads this, portfolio, positions, orders
      requires Valid()
    {
      Engine(orders.View(), tradeHistory)
    }

    ghost function Repr(): set<object> { {this, portfolio, positions, orders} }

    constructor (capital: real)
      requires capital > 0.0
      ensures Valid() && fresh(Repr())
      ensures View() == NewEngine(capital)
    {
      var p := new PortfolioManager(capital);
      var q := new PositionManager();
      var o := new OrderManager(p, q);
      portfolio, positions, orders, tradeHistory := p, q, o, [];
    }

    method PlaceOrder(req: PaperOrderRequest, price: real, now: int) returns (r: Result<(nat, Order)>)
      requires Valid() && req.Valid()
      modifies Repr()
      ensures var s := Placed(old(View()).desk, req, price, now);
              var id := |old(View()).desk.orders|;
              && View() == Apply(old(View()), Place(req, price, now))
              && (s.error.Some? ==> r == Err(s.error.value))
              && (s.error.None? ==> id < |s.desk.orders| && r == Ok((id, s.desk.orders[id])))
    {
      var placed :- orders.PlaceOrder(req, price, now);
      tradeHistory := tradeHistory + placed.1;
      return Ok((placed.0, orders.orders[placed.0]));
    }

    method CancelOrder(id: nat, now: int) returns (r: Outcome)
      requires Valid()
      modifies Repr()
      ensures View() == Apply(old(View()), Cancel(id, now))
      ensures r == Raises(CancelledOrder(old(View()).desk, id, now).error)
    {
      r := orders.CancelOrder(id, now);
    }

    method ModifyOrder(m: OrderModification, now: int) returns (r: Outcome)
      requires Valid() && m.Valid()
      modifies Repr()
      ensures View() == Apply(old(View()), Modify(m, now))
      ensures r == Raises(Modified(old(View()).desk, m, now).error)
    {
      r := orders.ModifyOrder(m, now);
    }

    method UpdatePrice(key: Key, price: real, now: int) returns (r: Result<seq<ClosedTrade>>)
      requires Valid()
      modifies Repr()
      ensures View() == Apply(old(View()), Price(key, price, now))
      ensures r == Returns(PriceProcessed(old(View()).desk, key, price, now))
    {
      hide Passed;
      var trades :- orders.ProcessPriceUpdate(key, price, now);
      tradeHistory := tradeHistory + trades;
      var marked := positions.UpdateLastPrice(key, price, now);
      return Ok(trades);
    }

    function GetPosition(key: Key): Option<PaperPosition>
      reads this, positions
    {
      if key in positions.positions then Some(positions.positions[key]) else None
    }

    method GetPortfolio(now: int) returns (r: Result<Portfolio>, ghost keys: seq<Key>, ghost ps: seq<PaperPosition>)
      requires Valid()
      ensures Lists(View().desk.book.positions, ps, keys)
      ensures r == Snapshot(View().desk.ledger, ps, now)
    {
      ps, keys := [], [];
      var all, listed := positions.GetAllPositions();
      ps, keys := all, listed;
      r := portfolio.TakeSnapshot(all, now);
    }

    method Reset(capital: Option<real>) returns (r: Outcome)
      requires Valid()
      modifies Repr()
      ensures var c := capital.GetOr(old(View()).desk.ledger.initialCapital);
              if c <= 0.0 then r == Fail(InvalidArgument) && View() == old(View())
              else r == Pass && View() == NewEngine(c)
    {
      r := portfolio.Reset(capital);
      if r.Fail? { return; }
      positions.Reset();
      orders.Reset();
      tradeHistory := [];
    }
  }
}
