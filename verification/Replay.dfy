/** The candle replay: a loop that drives a fresh paper engine through one
    instrument's history. */
module Replay {
  import opened Domain
  import opened Fifo
  import opened Sums
  import opened Portfolios
  import opened Positions
  import opened OrderDesk
  import opened Engine
  import opened Accounts
  import opened Clock
  import opened Conservation
  import opened PricePass
  import opened MarketOrders
  import opened Confluence
  import opened Metrics
  import AutoRisk
  import AutoTrading

  datatype Candle = Candle(open: real, close: real, at: int) {
    predicate Valid() { open > 0.0 && close > 0.0 }
  }

  /** Slippage in percent, and the charges of one fill as a given function. */
  datatype CostModel = CostModel(slippagePercent: real, charges: (real, int, Side) -> real)

  datatype ReplayPosition = ReplayPosition(
    side: Side, quantity: int, entrySignal: real, entryFill: real, entryCharges: real, stopLoss: real,
    targets: seq<real>, trailingAmount: Option<real>, bestPrice: real, entryOrder: nat, entryTime: int)

  datatype Pending = Pending(side: Side, signalPrice: real, stopLoss: real, targets: seq<real>)

  datatype Reason = SessionEnd | StopLoss | TargetHit | TrailingStopHit | SignalReversal

  function Slipped(price: real, side: Side, cost: CostModel): real {
    var adjustment := price * (cost.slippagePercent / 100.0);
    if side.Buy? then price + adjustment else price - adjustment
  }

  function ExitReason(p: ReplayPosition, price: real, action: Action, confidence: real, threshold: real,
                      isFinal: bool): Option<Reason>
  {
    if isFinal then Some(SessionEnd)
    else if p.side.Buy? && price <= p.stopLoss then Some(StopLoss)
    else if p.side.Sell? && price >= p.stopLoss then Some(StopLoss)
    else if p.targets != [] && (if p.side.Buy? then price >= p.targets[0] else price <= p.targets[0]) then
      Some(TargetHit)
    else if p.trailingAmount.Some? && p.side.Buy? && p.bestPrice > p.entryFill
            && price <= p.bestPrice - p.trailingAmount.value then Some(TrailingStopHit)
    else if p.trailingAmount.Some? && p.side.Sell? && p.bestPrice < p.entryFill
            && price >= p.bestPrice + p.trailingAmount.value then Some(TrailingStopHit)
    else if !action.Hold? && (if action.BuyAction? then Buy else Sell) != p.side && confidence >= threshold then
      Some(SignalReversal)
    else None
  }

  function LiveReason(r: Reason): AutoTrading.Reason {
    match r
    case SessionEnd => AutoTrading.MarketClose
    case StopLoss => AutoTrading.StopLoss
    case TargetHit => AutoTrading.TargetHit
    case TrailingStopHit => AutoTrading.TrailingStopHit
    case SignalReversal => AutoTrading.SignalReversal
  }

  /** The replay leaves a position for exactly the reason live trading would,
      the last candle standing for the square-off time. */
  lemma ReplayExitsLikeLiveTrading(p: ReplayPosition, price: real, s: Recommendation, confirmations: nat,
                                   cfg: AutoRisk.AutoConfig, isFinal: bool)
    ensures var live := AutoTrading.ExitReason(
                          cfg, AutoTrading.AutoPosition(p.side, p.quantity, p.entryFill, p.stopLoss, p.targets,
                                                        p.trailingAmount, p.bestPrice, p.entryOrder, p.entryTime),
                          price, Domain.Some(AutoTrading.AutoSignal(s, confirmations)), isFinal);
            var replayed := ExitReason(p, price, s.action, s.confidence, cfg.confidenceThreshold, isFinal);
            live == if replayed.Some? then Domain.Some(LiveReason(replayed.value)) else Domain.None
  {
  }

  function Ratcheted(p: ReplayPosition, price: real): ReplayPosition {
    p.(bestPrice := if p.side.Buy? then Max(p.bestPrice, price) else Min(p.bestPrice, price))
  }

  /** A replay raises only when slippage eats a whole price, or when an order was
      paid out of the comparison slack and left cash below zero, where no
      snapshot can be taken. */
  predicate Stuck(l: Ledger, cost: CostModel) { l.cash < 0.0 || Abs(cost.slippagePercent) >= 100.0 }

  lemma SlippedIsPositive(price: real, side: Side, cost: CostModel)
    requires price > 0.0 && Abs(cost.slippagePercent) < 100.0
    ensures Slipped(price, side, cost) > 0.0
  {
    var part := cost.slippagePercent / 100.0;
    ProductIsPositive(price, 1.0 + part);
    ProductIsPositive(price, 1.0 - part);
    assert price * (1.0 + part) == price + price * part;
    assert price * (1.0 - part) == price - price * part;
  }

  lemma ProductIsPositive(x: real, y: real)
    requires x > 0.0 && y > 0.0
    ensures x * y > 0.0
  {
  }

  /** Nothing is ever reserved in a replay, so a snapshot needs no more than cash. */
  lemma SnapshotNeedsCash(d: Desk, key: Key, capital: real, ps: seq<PaperPosition>, now: int)
    requires OneInstrument(d, key, capital) && capital > 0.0
    ensures Snapshot(d.ledger, ps, now).Ok? <==> d.ledger.cash >= 0.0
  {
    hide Snapshot;
    SnapshotNeedsOnlyTheLedger(d.ledger, ps, now);
  }

  /** What a position earns when it is left at a price. */
  function Gain(p: ReplayPosition, exit: real): real {
    if p.side.Buy? then Cost(p.quantity, exit - p.entryFill) else Cost(p.quantity, p.entryFill - exit)
  }

  /** The shares an entry asks for are at least one and can be paid. */
  predicate Enough(l: Ledger, side: Side, price: real, fraction: real)
    requires price != 0.0
  {
    var quantity := SharesFor(l.Available(), fraction, price);
    quantity >= 1 && Affordable(l, side, Cost(quantity, price))
  }

  /** A position just entered at a candle's open. */
  predicate EntryOf(q: ReplayPosition, p: Pending, open: real, cost: CostModel, now: int) {
    && q.side == p.side && q.stopLoss == p.stopLoss && q.targets == p.targets
    && q.trailingAmount == Some(Abs(p.signalPrice - p.stopLoss)) && q.entrySignal == p.signalPrice
    && q.entryFill == q.bestPrice == Slipped(open, p.side, cost) && q.entryFill != 0.0
    && q.entryCharges == cost.charges(q.entryFill, q.quantity, q.side) && q.entryTime == now
  }

  /** The record of a position that was left. */
  predicate RecordOf(t: TradeRecord, p: ReplayPosition, exitSignal: real, fillPrice: real, cost: CostModel) {
    && t.side == p.side && t.quantity == p.quantity && t.entryFill == p.entryFill
    && t.exitFill == Slipped(fillPrice, p.side.Opposite(), cost)
    && t.charges == p.entryCharges + cost.charges(t.exitFill, p.quantity, p.side.Opposite())
    && t.netPnl + t.charges == t.grossPnl
    && t.slippageCost == Cost(p.quantity, Abs(p.entryFill - p.entrySignal) + Abs(t.exitFill - exitSignal))
  }

  function SumGross(ts: seq<TradeRecord>): real {
    if ts == [] then 0.0 else SumGross(ts[..|ts| - 1]) + ts[|ts| - 1].grossPnl
  }

  function SumNet(ts: seq<TradeRecord>): real {
    if ts == [] then 0.0 else SumNet(ts[..|ts| - 1]) + ts[|ts| - 1].netPnl
  }

  function SumCharges(ts: seq<TradeRecord>): real {
    if ts == [] then 0.0 else SumCharges(ts[..|ts| - 1]) + ts[|ts| - 1].charges
  }

  lemma SumsGrow(ts: seq<TradeRecord>, t: TradeRecord)
    ensures SumGross(ts + [t]) == SumGross(ts) + t.grossPnl
    ensures SumNet(ts + [t]) == SumNet(ts) + t.netPnl
    ensures SumCharges(ts + [t]) == SumCharges(ts) + t.charges
  {
    assert (ts + [t])[..|ts|] == ts;
  }

  // ---------- What the replay's engine looks like ----------

  /** Only plain MARKET orders of one instrument have been placed. */
  ghost predicate OneInstrument(d: Desk, key: Key, capital: real) {
    && Balanced(d) && d.ledger.initialCapital == capital && d.ledger.reserved == 0.0 && d.reservations == map[]
    && (forall i | 0 <= i < |d.orders| :: !d.orders[i].Resting())
    && (forall k | k in d.book.lots :: k == key)
  }

  lemma MarketKeepsOneInstrument(d: Desk, key: Key, capital: real, side: Side, quantity: int, price: real, now: int)
    requires OneInstrument(d, key, capital) && quantity > 0 && price > 0.0 && Current(d.book, now)
    ensures var s := Placed(d, MarketRequest(key, side, quantity), price, now);
            && OneInstrument(s.desk, key, capital) && Current(s.desk.book, now)
            && s.desk.ledger.realized == d.ledger.realized + PnlOf(s.closed)
  {
    hide Current, Placed, Filled, Total, PnlOf, TotalPnl, Value, QueueAfter, ClosedBy, Fits, Cost;
    var s := Placed(d, MarketRequest(key, side, quantity), price, now);
    MarketOrderOutcome(d, key, side, quantity, price, now);
    forall i | 0 <= i < |s.desk.orders| ensures !s.desk.orders[i].Resting() {
      if i < |d.orders| { assert s.desk.orders[i] == s.desk.orders[..|d.orders|][i]; }
    }
    NoPnlOfNone();
    if Affordable(d.ledger, side, Cost(quantity, price)) {
      FillIsOk(d.book, key, side, quantity, price, |d.orders|, now);
      FillMovesQueue(d.book.Lots(key), side, quantity, price, |d.orders|, now);
      ValuesMove(d.book, s.desk.book, key);
      forall k | k in s.desk.book.lots ensures k == key {
        if k != key { LotsElsewhere(d.book, s.desk.book, key, k); }
      }
    }
  }

  lemma NoPnlOfNone()
    ensures PnlOf([]) == 0.0
  {
  }

  /** With nothing at rest a price update only marks. */
  lemma PriceOnlyMarks(e: Engine, key: Key, capital: real, price: real, now: int)
    requires OneInstrument(e.desk, key, capital) && price > 0.0
    ensures Apply(e, Price(key, price, now)) == e.(desk := e.desk.(book := Marked(e.desk.book, key, price, now)))
    ensures PriceProcessed(e.desk, key, price, now).error.None?
    ensures OneInstrument(Apply(e, Price(key, price, now)).desk, key, capital)
    ensures Apply(e, Price(key, price, now)).desk.book.Lots(key) == e.desk.book.Lots(key)
  {
    hide Total;
    NoCandidates(e.desk.orders, key, 0);
    assert e.trades + [] == e.trades;
    MarkBalances(e.desk, key, price, now);
    if e.desk.book.Lots(key) != [] {
      RebuiltIsOk(e.desk.book, key, e.desk.book.Lots(key), price, now);
    }
  }

  /** The tracked position is the engine's: one lot of the same side, size and price, or none. */
  ghost predicate Agrees(b: Book, key: Key, p: Option<ReplayPosition>) {
    match p
    case None => b.Lots(key) == []
    case Some(q) =>
      q.quantity > 0 && q.entryFill > 0.0
      && b.Lots(key) == [Lot(q.entryOrder, q.entryTime, q.entryFill, q.quantity, q.side)]
  }

  lemma AverageOfOne(quantity: int, price: real)
    requires quantity > 0
    ensures Cost(quantity, price) / quantity as real == price
  {
  }

  lemma OneLot(l: Lot)
    ensures Shares([l]) == l.quantity && Basis([l]) == Cost(l.quantity, l.price)
    ensures Net([l]) == l.side.Sign() * l.quantity
  {
    assert [l][1..] == [];
  }

  /** Agreement is agreement in sign and quantity with the visible position. */
  lemma AgreementShows(b: Book, key: Key, p: Option<ReplayPosition>)
    requires BookOk(b) && Agrees(b, key, p)
    ensures p.None? ==> key !in b.positions
    ensures p.Some? ==> key in b.positions && b.positions[key].quantity == p.value.side.Sign() * p.value.quantity
                        && b.positions[key].averagePrice == p.value.entryFill
  {
    if p.Some? {
      hide Cost, Shares, Basis, Net;
      OneLot(b.lots[key][0]);
      AverageOfOne(p.value.quantity, p.value.entryFill);
    }
  }

  lemma OpeningAgrees(d: Desk, key: Key, side: Side, quantity: int, price: real, now: int)
    requires BookOk(d.book) && quantity > 0 && price > 0.0 && d.book.Lots(key) == []
    ensures Filled(d.book, key, side, quantity, price, |d.orders|, now).book.Lots(key)
         == [Lot(|d.orders|, now, price, quantity, side)]
    ensures Filled(d.book, key, side, quantity, price, |d.orders|, now).closed == []
  {
    FillIsOk(d.book, key, side, quantity, price, |d.orders|, now);
  }

  lemma CoveringFlattens(d: Desk, key: Key, p: ReplayPosition, price: real, now: int)
    requires BookOk(d.book) && Agrees(d.book, key, Some(p)) && price > 0.0
    ensures var f := Filled(d.book, key, p.side.Opposite(), p.quantity, price, |d.orders|, now);
            f.book.Lots(key) == [] && TotalPnl(f.closed) == Gain(p, price)
  {
    hide Pnl, Gain;
    var lots := d.book.Lots(key);
    FillIsOk(d.book, key, p.side.Opposite(), p.quantity, price, |d.orders|, now);
    assert lots[1..] == [];
    assert CloseFifo(lots[1..], 0, price, now) == Closing([], 0, []);
    var piece := ClosedLot(lots[0], p.quantity, price, now, Pnl(lots[0], p.quantity, price));
    assert CloseFifo(lots, p.quantity, price, now) == Closing([], 0, [piece]);
    PnlOfFirst(piece, []);
    NoPnl();
    GainIsPnl(p, price);
  }

  lemma GainIsPnl(p: ReplayPosition, price: real)
    requires p.quantity > 0 && p.entryFill > 0.0
    ensures Pnl(Lot(p.entryOrder, p.entryTime, p.entryFill, p.quantity, p.side), p.quantity, price) == Gain(p, price)
  {
  }

  /** A flat, balanced desk holds the initial capital plus what it has realized. */
  lemma FlatEquity(d: Desk, key: Key, capital: real)
    requires OneInstrument(d, key, capital) && d.book.Lots(key) == []
    ensures d.book.lots == map[] && d.ledger.cash == capital + d.ledger.realized
  {
    assert forall k :: k !in d.book.lots;
    assert Values(d.book) == map[];
  }

  /** What holds between the candles of a replay.  `uncovered` counts the exits
      whose order was rejected: then the engine keeps what the loop forgets. */
  ghost predicate Consistent(e: Engine, key: Key, capital: real, position: Option<ReplayPosition>,
                             trades: seq<TradeRecord>, uncovered: nat, t: int)
  {
    && OneInstrument(e.desk, key, capital) && Current(e.desk.book, t)
    && (position.Some? ==> position.value.quantity > 0)
    && (uncovered == 0 ==> Agrees(e.desk.book, key, position) && e.desk.ledger.realized == SumGross(trades))
    && SumGross(trades) == SumNet(trades) + SumCharges(trades)
  }

  /** The order an entry sends, when it asks for at least one share. */
  function EntryOrder(key: Key, l: Ledger, side: Side, price: real, fraction: real, now: int): Option<Op>
    requires price != 0.0
  {
    var quantity := SharesFor(l.Available(), fraction, price);
    if quantity < 1 then None else Some(Place(MarketRequest(key, side, quantity), price, now))
  }

  function ExitOrder(key: Key, p: ReplayPosition, price: real, now: int): Op {
    Place(MarketRequest(key, p.side.Opposite(), p.quantity), price, now)
  }

  /** The state after an order that may not have been sent. */
  function Sent(e: Engine, op: Option<Op>): Engine
    requires op.Some? ==> op.value.Valid()
  {
    if op.Some? then Apply(e, op.value) else e
  }

  /** Enter at a candle's open with a fraction of the available cash. */
  method OpenPosition(engine: PaperTradingEngine, key: Key, capital: real, p: Pending, open: real, fraction: real,
                      cost: CostModel, now: int, ghost trades: seq<TradeRecord>, ghost uncovered: nat)
    returns (r: Result<Option<ReplayPosition>>)
    requires engine.Valid() && Consistent(engine.View(), key, capital, None, trades, uncovered, now)
    requires capital > 0.0 && open > 0.0
    modifies engine.Repr()
    ensures r.Err? ==> engine.View() == old(engine.View()) && Stuck(engine.View().desk.ledger, cost)
    ensures r.Ok? ==> Consistent(engine.View(), key, capital, r.value, trades, uncovered, now)
    // a fraction of the cash never needs the slack
    ensures Abs(cost.slippagePercent) < 100.0 && 0.0 <= fraction <= 1.0 && old(engine.View()).desk.ledger.cash >= 0.0
            ==> engine.View().desk.ledger.cash >= 0.0
    ensures r.Ok? ==>
              var price := Slipped(open, p.side, cost); var l := old(engine.View()).desk.ledger;
              && price != 0.0 && (r.value.Some? <==> Enough(l, p.side, price, fraction))
              && engine.View() == Sent(old(engine.View()), EntryOrder(key, l, p.side, price, fraction, now))
              && (r.value.Some? ==>
                    && EntryOf(r.value.value, p, open, cost, now)
                    && r.value.value.quantity == SharesFor(l.Available(), fraction, price))
  {
    hide Placed, Filled, OneInstrument, SumGross, SumNet, SumCharges, PnlOf, Current;
    var price := Slipped(open, p.side, cost);
    if Abs(cost.slippagePercent) < 100.0 { SlippedIsPositive(open, p.side, cost); }
    var portfolio, keys, ps := engine.GetPortfolio(now);
    SnapshotNeedsCash(engine.View().desk, key, capital, ps, now);
    SnapshotNeedsOnlyTheLedger(engine.View().desk.ledger, ps, now);
    if portfolio.Err? { return Err(portfolio.error); }
    if price == 0.0 { return Err(DivisionByZero); }
    var quantity := SharesFor(portfolio.value.availableCash, fraction, price);
    if quantity < 1 { return Ok(None); }
    if price < 0.0 { return Err(InvalidArgument); }
    OpeningIsConsistent(engine.View(), key, capital, trades, uncovered, p.side, quantity, price, now);
    ExchangeMovesCash(engine.View().desk, key, capital, p.side, quantity, price, now);
    if portfolio.value.availableCash >= 0.0 && 0.0 <= fraction <= 1.0 {
      SharesAreFunded(portfolio.value.availableCash, fraction, price);
    }
    var placed := engine.PlaceOrder(MarketRequest(key, p.side, quantity), price, now);
    var (id, order) := placed.value;
    if !order.status.Complete? { return Ok(None); }
    var fill := order.averageFillPrice.value;
    var charges := cost.charges(fill, quantity, p.side);
    return Ok(Some(ReplayPosition(p.side, quantity, p.signalPrice, fill, charges, p.stopLoss, p.targets,
                                  Some(Abs(p.signalPrice - p.stopLoss)), fill, id, now)));
  }

  /** From flat an entry leaves exactly its own lot, or nothing when it is rejected, and realizes nothing. */
  lemma OpeningIsConsistent(e: Engine, key: Key, capital: real, trades: seq<TradeRecord>, uncovered: nat,
                            side: Side, quantity: int, price: real, now: int)
    requires Consistent(e, key, capital, None, trades, uncovered, now) && quantity > 0 && price > 0.0
    ensures var s := Placed(e.desk, MarketRequest(key, side, quantity), price, now);
            var n := |e.desk.orders|;
            && s.error.None? && n < |s.desk.orders| && OneInstrument(s.desk, key, capital)
            && Current(s.desk.book, now)
            && (s.desk.orders[n].status.Complete? ==> s.desk.orders[n].averageFillPrice == Some(price))
            && (s.desk.orders[n].status.Complete? <==> Affordable(e.desk.ledger, side, Cost(quantity, price)))
            && (uncovered == 0 ==>
                  && s.desk.ledger.realized == e.desk.ledger.realized
                  && s.desk.book.Lots(key)
                     == if s.desk.orders[n].status.Complete? then [Lot(n, now, price, quantity, side)] else [])
  {
    hide Placed, Filled, OneInstrument, SumGross, SumNet, SumCharges, PnlOf, TotalPnl, Current;
    KnownWhenOne(e.desk, key, capital);
    MarketOrderOutcome(e.desk, key, side, quantity, price, now);
    MarketKeepsOneInstrument(e.desk, key, capital, side, quantity, price, now);
    if uncovered == 0 {
      OpeningAgrees(e.desk, key, side, quantity, price, now);
      NoPnl();
    }
  }

  /** An order moves cash by its cost when it is affordable, and not at all otherwise. */
  lemma ExchangeMovesCash(d: Desk, key: Key, capital: real, side: Side, quantity: int, price: real, now: int)
    requires OneInstrument(d, key, capital) && quantity > 0 && price > 0.0 && Current(d.book, now)
    ensures Placed(d, MarketRequest(key, side, quantity), price, now).desk.ledger.cash
            == d.ledger.cash + (if !Affordable(d.ledger, side, Cost(quantity, price)) then 0.0
                                else if side.Buy? then -Cost(quantity, price) else Cost(quantity, price))
    ensures d.ledger.Available() == d.ledger.cash
  {
    hide Placed, Filled, PnlOf, TotalPnl, Current;
    MarketOrderOutcome(d, key, side, quantity, price, now);
  }

  lemma SharesAreFunded(available: real, fraction: real, price: real)
    requires available >= 0.0 && 0.0 <= fraction <= 1.0 && price > 0.0
    ensures 0.0 <= Cost(SharesFor(available, fraction, price), price) <= available
  {
    var spend := available * fraction;
    assert 0.0 <= spend <= available;
    assert spend / price >= 0.0 by { QuotientIsNonNegative(spend, price); }
    WholePartCostsLess(spend / price, price);
  }

  lemma WholePartCostsLess(shares: real, price: real)
    requires shares >= 0.0 && price > 0.0
    ensures 0.0 <= Cost(shares.Floor, price) <= shares * price
  {
    assert 0.0 <= shares.Floor as real <= shares;
  }

  lemma KnownWhenOne(d: Desk, key: Key, capital: real)
    requires OneInstrument(d, key, capital)
    ensures KnownReservations(d) && BookOk(d.book)
  {
  }

  /** Leave the tracked position; no trade is returned when the order is rejected. */
  method ClosePosition(engine: PaperTradingEngine, key: Key, capital: real, p: ReplayPosition, exitSignal: real,
                       fillPrice: real, cost: CostModel, now: int, ghost trades: seq<TradeRecord>, ghost uncovered: nat)
    returns (r: Result<Option<TradeRecord>>)
    requires engine.Valid() && Consistent(engine.View(), key, capital, Some(p), trades, uncovered, now)
    requires fillPrice > 0.0
    modifies engine.Repr()
    ensures r.Err? ==> Abs(cost.slippagePercent) >= 100.0
    ensures r.Ok? && r.value.Some? ==>
              && Consistent(engine.View(), key, capital, None, trades + [r.value.value], uncovered, now)
              && RecordOf(r.value.value, p, exitSignal, fillPrice, cost)
              && r.value.value.grossPnl == PnlSince(old(engine.View()), engine.View())
              && (uncovered == 0 ==> r.value.value.grossPnl == Gain(p, r.value.value.exitFill))
    ensures r.Ok? && r.value.None? ==> Consistent(engine.View(), key, capital, None, trades, uncovered + 1, now)
    // a long can always be left, a short whenever the cover can be paid
    ensures r.Ok? ==>
              var price := Slipped(fillPrice, p.side.Opposite(), cost);
              && engine.View() == Apply(old(engine.View()), ExitOrder(key, p, price, now))
              && (r.value.Some? <==> Affordable(old(engine.View()).desk.ledger, p.side.Opposite(),
                                                Cost(p.quantity, price)))
              && engine.View().desk.ledger.cash
                 == old(engine.View()).desk.ledger.cash
                    + (if r.value.None? then 0.0
                       else if p.side.Sell? then -Cost(p.quantity, price) else Cost(p.quantity, price))
  {
    hide Placed, Filled, OneInstrument, SumGross, SumNet, SumCharges, PnlOf, Current;
    var side := p.side.Opposite();
    var price := Slipped(fillPrice, side, cost);
    if Abs(cost.slippagePercent) < 100.0 { SlippedIsPositive(fillPrice, side, cost); }
    if price <= 0.0 { return Err(InvalidArgument); }
    ghost var e := engine.View();
    ClosingIsConsistent(e, key, capital, p, trades, uncovered, price, now);
    ExchangeMovesCash(e.desk, key, capital, side, p.quantity, price, now);
    var before := |engine.tradeHistory|;
    var placed := engine.PlaceOrder(MarketRequest(key, side, p.quantity), price, now);
    var order := placed.value.1;
    if !order.status.Complete? { return Ok(None); }
    var closed := engine.tradeHistory[before..];
    var gross := PnlOf(closed);
    var fill := order.averageFillPrice.value;
    var charges := p.entryCharges + cost.charges(fill, p.quantity, side);
    var slippage := Cost(p.quantity, Abs(p.entryFill - p.entrySignal)) + Cost(p.quantity, Abs(fill - exitSignal));
    var record := TradeRecord(p.side, p.quantity, p.entryFill, fill, gross, charges, slippage, gross - charges);
    SumsGrow(trades, record);
    CostOfSum(p.quantity, Abs(p.entryFill - p.entrySignal), Abs(fill - exitSignal));
    return Ok(Some(record));
  }

  lemma CostOfSum(quantity: int, x: real, y: real)
    ensures Cost(quantity, x + y) == Cost(quantity, x) + Cost(quantity, y)
  {
  }

  /** A filled exit leaves the instrument flat and realizes the profit of its own trades. */
  lemma ClosingIsConsistent(e: Engine, key: Key, capital: real, p: ReplayPosition, trades: seq<TradeRecord>,
                            uncovered: nat, price: real, now: int)
    requires Consistent(e, key, capital, Some(p), trades, uncovered, now) && price > 0.0
    ensures var s := Placed(e.desk, MarketRequest(key, p.side.Opposite(), p.quantity), price, now);
            var n := |e.desk.orders|;
            && s.error.None? && n < |s.desk.orders| && OneInstrument(s.desk, key, capital)
            && Current(s.desk.book, now)
            && s.desk.ledger.realized == e.desk.ledger.realized + PnlOf(s.closed)
            && (s.desk.orders[n].status.Complete? ==> s.desk.orders[n].averageFillPrice == Some(price))
            && (s.desk.orders[n].status.Complete?
                <==> Affordable(e.desk.ledger, p.side.Opposite(), Cost(p.quantity, price)))
            && (uncovered == 0 && s.desk.orders[n].status.Complete? ==>
                  s.desk.book.Lots(key) == [] && PnlOf(s.closed) == Gain(p, price))
            && (!s.desk.orders[n].status.Complete? ==> s.closed == [])
  {
    hide Placed, Filled, OneInstrument, SumGross, SumNet, SumCharges, PnlOf, TotalPnl, Current;
    KnownWhenOne(e.desk, key, capital);
    MarketOrderOutcome(e.desk, key, p.side.Opposite(), p.quantity, price, now);
    MarketKeepsOneInstrument(e.desk, key, capital, p.side.Opposite(), p.quantity, price, now);
    if uncovered == 0 { CoveringFlattens(e.desk, key, p, price, now); }
  }

  /** Mark the account to a price and read its equity. */
  method MarkEquity(engine: PaperTradingEngine, key: Key, capital: real, price: real, now: int,
                    ghost position: Option<ReplayPosition>, ghost trades: seq<TradeRecord>, ghost uncovered: nat,
                    ghost t: int)
    returns (r: Result<real>)
    requires engine.Valid() && price > 0.0 && capital > 0.0
    requires Consistent(engine.View(), key, capital, position, trades, uncovered, t)
    modifies engine.Repr()
    ensures Consistent(engine.View(), key, capital, position, trades, uncovered, t)
    ensures r.Err? <==> engine.View().desk.ledger.cash < 0.0
    ensures engine.View() == Apply(old(engine.View()), Price(key, price, now))
    ensures engine.View().desk.ledger == old(engine.View()).desk.ledger
    ensures r.Ok? && uncovered == 0 ==> r.value == capital + SumGross(trades) + OpenGain(position, price)
    ensures r.Ok? ==> exists ps, keys | Lists(engine.View().desk.book.positions, ps, keys) ::
                        r.value == capital + engine.View().desk.ledger.realized + Unrealized(ps)
  {
    hide PriceProcessed, Apply, SumGross, SumNet, SumCharges, OneInstrument, MarketValue, Unrealized, UsedCapital,
         Snapshot, CanSnapshot, BookOk, Agrees, OpenGain, Lists, Marked;
    ghost var was := engine.View();
    MarkingIsConsistent(was, key, capital, position, trades, uncovered, price, now, t);
    var updated := engine.UpdatePrice(key, price, now);
    var portfolio, keys, ps := engine.GetPortfolio(now);
    SnapshotNeedsCash(engine.View().desk, key, capital, ps, now);
    if portfolio.Err? { return Err(portfolio.error); }
    EquityReported(engine.View().desk, key, capital, ps, keys, now);
    if uncovered == 0 { MarkedGain(was.desk.book, key, position, price, now, ps, keys); }
    return Ok(portfolio.value.equity);
  }

  lemma MarkingIsConsistent(e: Engine, key: Key, capital: real, position: Option<ReplayPosition>,
                            trades: seq<TradeRecord>, uncovered: nat, price: real, now: int, t: int)
    requires Consistent(e, key, capital, position, trades, uncovered, t) && price > 0.0
    ensures BookOk(e.desk.book) && (forall k | k in e.desk.book.lots :: k == key)
    ensures Apply(e, Price(key, price, now)) == e.(desk := e.desk.(book := Marked(e.desk.book, key, price, now)))
    ensures PriceProcessed(e.desk, key, price, now).error.None?
    ensures Consistent(Apply(e, Price(key, price, now)), key, capital, position, trades, uncovered, t)
  {
    hide Apply, PriceProcessed, Total, SumGross, SumNet, SumCharges, Marked, Current;
    MarkKeepsCurrent(e.desk.book, key, price, now, t);
    PriceOnlyMarks(e, key, capital, price, now);
  }

  /** Equity is capital plus realized and unrealized profit. */
  lemma EquityReported(d: Desk, key: Key, capital: real, ps: seq<PaperPosition>, keys: seq<Key>, now: int)
    requires OneInstrument(d, key, capital) && Lists(d.book.positions, ps, keys) && Snapshot(d.ledger, ps, now).Ok?
    ensures Snapshot(d.ledger, ps, now).value.equity == capital + d.ledger.realized + Unrealized(ps)
  {
    hide Total, Unrealized, MarketValue, UsedCapital;
    EquityIsCapitalPlusProfit(d, ps, keys);
  }

  /** What a tracked position would earn at a price. */
  function OpenGain(p: Option<ReplayPosition>, price: real): real { if p.Some? then Gain(p.value, price) else 0.0 }

  /** The one listed position, marked to a price, shows just that. */
  lemma MarkedGain(b: Book, key: Key, p: Option<ReplayPosition>, price: real, now: int, ps: seq<PaperPosition>,
                   keys: seq<Key>)
    requires BookOk(b) && Agrees(b, key, p) && price > 0.0 && forall k | k in b.lots :: k == key
    requires Lists(Marked(b, key, price, now).positions, ps, keys)
    ensures Unrealized(ps) == OpenGain(p, price)
  {
    var m := Marked(b, key, price, now);
    if p.None? {
      assert forall k :: k !in b.lots;
      NoPositions(m, ps, keys);
    } else {
      hide Cost, Net, Basis, Shares;
      RebuiltIsOk(b, key, b.lots[key], price, now);
      AgreementShows(m, key, p);
      assert m.positions.Keys == {key};
      OneListed(m.positions, ps, keys, key);
      GainOfPosition(p.value, m.positions[key]);
    }
  }

  lemma GainOfPosition(p: ReplayPosition, q: PaperPosition)
    requires q.quantity == p.side.Sign() * p.quantity && q.averagePrice == p.entryFill
    requires q.unrealizedPnl == Cost(q.quantity, q.lastPrice - q.averagePrice)
    ensures Unrealized([q]) == Gain(p, q.lastPrice)
  {
  }

  lemma OneListed(m: map<Key, PaperPosition>, ps: seq<PaperPosition>, keys: seq<Key>, key: Key)
    requires Lists(m, ps, keys) && m.Keys == {key}
    ensures ps == [m[key]]
  {
    assert |keys| > 1 ==> keys[0] != keys[1];
    assert key in keys;
    forall i | 0 <= i < |keys| ensures keys[i] == key {
      assert keys[i] in keys && keys[i] in m.Keys;
    }
  }

  lemma FirstIsListed(keys: seq<Key>)
    requires keys != []
    ensures keys[0] in keys
  {
  }

  lemma NoPositions(b: Book, ps: seq<PaperPosition>, keys: seq<Key>)
    requires BookOk(b) && b.lots == map[] && Lists(b.positions, ps, keys)
    ensures ps == [] && MarketValue(ps) == 0.0 && Unrealized(ps) == 0.0
  {
    assert b.positions.Keys == {};
    assert forall k :: k in keys ==> k in b.positions;
    if keys != [] { FirstIsListed(keys); }
  }

  /** When, and at what price before slippage, a position left at candle `i` is covered. */
  function ExitTerms(candles: seq<Candle>, i: nat): (real, int)
    requires i < |candles|
  {
    if i == |candles| - 1 then (candles[i].close, candles[i].at) else (candles[i + 1].open, candles[i + 1].at)
  }

  /** What candle `i` does to a position, from `e` to `f`: it is kept and
      ratcheted, or left by an order for its whole size; it is recorded exactly
      when that order can be paid, else it is forgotten. */
  ghost predicate ManagedOk(e: Engine, f: Engine, key: Key, p: ReplayPosition, held: Option<ReplayPosition>,
                            trade: Option<TradeRecord>, candles: seq<Candle>, i: nat, signal: Recommendation,
                            threshold: real, cost: CostModel)
    requires i < |candles| && p.quantity > 0
  {
    var isFinal, close := i == |candles| - 1, candles[i].close;
    if ExitReason(p, close, signal.action, signal.confidence, threshold, isFinal).None? then
      held == Some(Ratcheted(p, close)) && trade == None && f == e
    else
      var (fill, at) := ExitTerms(candles, i);
      var price := Slipped(fill, p.side.Opposite(), cost);
      && held == None && f == Apply(e, ExitOrder(key, p, price, at))
      && (trade.Some? <==> Affordable(e.desk.ledger, p.side.Opposite(), Cost(p.quantity, price)))
      && (trade.Some? ==> RecordOf(trade.value, p, close, fill, cost) && trade.value.grossPnl == PnlSince(e, f))
  }

  /** Covering a short at candle `i` costs more than there is cash. */
  predicate Overdraws(l: Ledger, p: ReplayPosition, candles: seq<Candle>, i: nat, cost: CostModel)
    requires i < |candles|
  {
    p.side.Sell? && Cost(p.quantity, Slipped(ExitTerms(candles, i).0, Buy, cost)) > l.cash
  }

  /** Leaving a position takes cash below zero only as it overdraws. */
  lemma CoverMovesCash(l: Ledger, p: ReplayPosition, candles: seq<Candle>, i: nat, cost: CostModel)
    requires i < |candles| && CandlesOk(candles) && p.quantity > 0
    ensures var paid := Cost(p.quantity, Slipped(ExitTerms(candles, i).0, p.side.Opposite(), cost));
            l.cash >= 0.0 && Abs(cost.slippagePercent) < 100.0 ==>
              (l.cash + (if p.side.Sell? then -paid else paid) < 0.0 <==> Overdraws(l, p, candles, i, cost))
  {
    hide Slipped, Cost;
    var fill := ExitTerms(candles, i).0;
    if Abs(cost.slippagePercent) < 100.0 {
      SlippedIsPositive(fill, p.side.Opposite(), cost);
      CostIsPositive(p.quantity, Slipped(fill, p.side.Opposite(), cost));
    }
  }

  /** Exit the tracked position if there is a reason to, else ratchet its best price. */
  method ManagePosition(engine: PaperTradingEngine, key: Key, capital: real, p: ReplayPosition, candles: seq<Candle>,
                        i: nat, signal: Recommendation, threshold: real, cost: CostModel,
                        ghost trades: seq<TradeRecord>, ghost uncovered: nat)
    returns (r: Result<(Option<ReplayPosition>, Option<TradeRecord>)>)
    requires engine.Valid() && i < |candles| && CandlesOk(candles) && p.quantity > 0
    requires Consistent(engine.View(), key, capital, Some(p), trades, uncovered, candles[i].at)
    modifies engine.Repr()
    ensures r.Err? ==> Abs(cost.slippagePercent) >= 100.0
    ensures r.Ok? && old(engine.View()).desk.ledger.cash >= 0.0 && Abs(cost.slippagePercent) < 100.0 ==>
              (engine.View().desk.ledger.cash < 0.0
               <==> r.value.1.Some? && Overdraws(old(engine.View()).desk.ledger, p, candles, i, cost))
    ensures r.Ok? ==> ManagedOk(old(engine.View()), engine.View(), key, p, r.value.0, r.value.1, candles, i, signal,
                                threshold, cost)
    ensures r.Ok? ==> Consistent(engine.View(), key, capital, r.value.0, trades + Listed(r.value.1),
                                 if r.value.0.None? && r.value.1.None? then uncovered + 1 else uncovered,
                                 ExitTerms(candles, i).1)
    ensures r.Ok? && r.value.1.Some? && uncovered == 0 ==>
              r.value.1.value.grossPnl == Gain(p, r.value.1.value.exitFill)
  {
    hide Consistent, ExitReason, RecordOf, Ratcheted, Gain, Affordable, PnlSince, Apply, Slipped, Cost, Overdraws;
    var isFinal := i == |candles| - 1;
    var price := candles[i].close;
    assert trades + [] == trades;
    CoverMovesCash(engine.View().desk.ledger, p, candles, i, cost);
    ConsistentLater(engine.View(), key, capital, Some(p), trades, uncovered, candles[i].at, ExitTerms(candles, i).1);
    if ExitReason(p, price, signal.action, signal.confidence, threshold, isFinal).Some? {
      var fill, at := price, candles[i].at;
      if !isFinal { fill, at := candles[i + 1].open, candles[i + 1].at; }
      var trade := ClosePosition(engine, key, capital, p, price, fill, cost, at, trades, uncovered);
      if trade.Err? { return Err(trade.error); }
      return Ok((None, trade.value));
    }
    RatchetingIsConsistent(engine.View(), key, capital, p, trades, uncovered, price, ExitTerms(candles, i).1);
    return Ok((Some(Ratcheted(p, price)), None));
  }

  lemma ConsistentLater(e: Engine, key: Key, capital: real, position: Option<ReplayPosition>, trades: seq<TradeRecord>,
                        uncovered: nat, t: int, now: int)
    requires Consistent(e, key, capital, position, trades, uncovered, t) && t <= now
    ensures Consistent(e, key, capital, position, trades, uncovered, now)
  {
    hide OneInstrument, SumGross, SumNet, SumCharges, Agrees;
  }

  function Listed(t: Option<TradeRecord>): seq<TradeRecord> { if t.Some? then [t.value] else [] }

  lemma RatchetingIsConsistent(e: Engine, key: Key, capital: real, p: ReplayPosition, trades: seq<TradeRecord>,
                               uncovered: nat, price: real, t: int)
    requires Consistent(e, key, capital, Some(p), trades, uncovered, t)
    ensures Consistent(e, key, capital, Some(Ratcheted(p, price)), trades, uncovered, t)
  {
    hide SumGross, SumNet, SumCharges, Current;
  }

  /** The entry a signal asks for. */
  function Wanted(s: Recommendation, threshold: real): Option<Pending> {
    if !s.action.Hold? && s.confidence >= threshold && s.entry.Some? && s.stop.Some? then
      Some(Pending(if s.action.BuyAction? then Buy else Sell, s.entry.value, s.stop.value, s.targets))
    else None
  }

  // ---------- The journal of a replay ----------

  /** One candle: the engine at its start, after the open, after the position was
      managed and at its end, the position after the open and after the close,
      and the trade recorded. */
  datatype Moment = Moment(start: Engine, atOpen: Option<ReplayPosition>, mid: Engine, atClose: Option<ReplayPosition>,
                           trade: Option<TradeRecord>, left: Engine, end: Engine)
  {
    /** The position was dropped without a trade. */
    predicate Forgets() { atOpen.Some? && atClose.None? && trade.None? }
  }

  /** The position left by the moment before `i`. */
  function Before(js: seq<Moment>, i: nat): Option<ReplayPosition>
    requires i <= |js|
  {
    if i == 0 then None else js[i - 1].atClose
  }

  /** Candles come in ascending order of their timestamps. */
  predicate CandlesOk(candles: seq<Candle>) {
    && (forall k | 0 <= k < |candles| :: candles[k].Valid())
    && (forall j, k | 0 <= j < k < |candles| :: candles[j].at <= candles[k].at)
  }

  /** The inputs of a replay. */
  datatype Session = Session(key: Key, capital: real, candles: seq<Candle>, signals: seq<Recommendation>,
                             threshold: real, fraction: real, cost: CostModel)
  {
    predicate Valid() { capital > 0.0 && |signals| == |candles| && CandlesOk(candles) }

    /** The entry waiting for candle `i`: what the previous candle's signal asked for, if flat then. */
    function Scheduled(i: nat, before: Option<ReplayPosition>): Option<Pending>
      requires i <= |signals|
    {
      if i > 0 && before.None? then Wanted(signals[i - 1], threshold) else None
    }

    /** What the open of candle `i` does: execute the entry that waits for it, if any. */
    ghost predicate OpenedOk(i: nat, before: Option<ReplayPosition>, m: Moment)
      requires i < |candles| == |signals|
    {
      match Scheduled(i, before)
      case None => m.atOpen == before && m.mid == m.start
      case Some(p) =>
        var price, l := Slipped(candles[i].open, p.side, cost), m.start.desk.ledger;
        && price != 0.0 && (m.atOpen.Some? <==> Enough(l, p.side, price, fraction))
        && m.mid == Sent(m.start, EntryOrder(key, l, p.side, price, fraction, candles[i].at))
        && (m.atOpen.Some? ==>
              && EntryOf(m.atOpen.value, p, candles[i].open, cost, candles[i].at)
              && m.atOpen.value.quantity == SharesFor(l.Available(), fraction, price))
    }

    /** Candle `i` did what it must, from the position left by the candle before.
        Nothing here looks past the candle, but for the terms of an exit. */
    ghost predicate MomentOk(i: nat, before: Option<ReplayPosition>, m: Moment)
      requires i < |candles| == |signals|
    {
      && OpenedOk(i, before, m)
      && (if m.atOpen.None? then m.atClose == None && m.trade == None && m.left == m.mid
          else
            && m.atOpen.value.quantity > 0
            && ManagedOk(m.mid, m.left, key, m.atOpen.value, m.atClose, m.trade, candles, i, signals[i], threshold,
                         cost))
      && m.end == Apply(m.left, Price(key, candles[i].close, candles[i].at))
    }

    /** Slippage below a whole price, and no more than all the cash in one position. */
    predicate Usual() { Abs(cost.slippagePercent) < 100.0 && 0.0 <= fraction <= 1.0 }

    /** Candle `i` covers a short out of the comparison slack. */
    predicate SpendsSlack(i: nat, m: Moment)
      requires i < |candles|
    {
      m.atOpen.Some? && m.trade.Some? && Overdraws(m.mid.desk.ledger, m.atOpen.value, candles, i, cost)
    }

    /** Some candle does. */
    predicate SlackSpent(js: seq<Moment>)
      requires |js| <= |candles|
    {
      exists i: nat :: i < |js| && SpendsSlack(i, js[i])
    }

    /** The engine that moment `i` starts from. */
    function StartOf(js: seq<Moment>, i: nat): Engine
      requires i <= |js|
    {
      if i == 0 then NewEngine(capital) else js[i - 1].end
    }

    /** The moments of a replay, each starting where the one before ended. */
    ghost predicate JournalOk(js: seq<Moment>)
      requires |js| <= |candles| == |signals|
    {
      forall i | 0 <= i < |js| :: js[i].start == StartOf(js, i) && MomentOk(i, Before(js, i), js[i])
    }
  }

  /** What the account is worth at the close of the last moment. */
  function EquityAfter(capital: real, js: seq<Moment>, close: real): real {
    capital + SumGross(TradesIn(js)) + OpenGain(Before(js, |js|), close)
  }

  /** Every point of the curve is marked to its candle's close. */
  ghost predicate MarkedOk(capital: real, candles: seq<Candle>, js: seq<Moment>, curve: seq<EquityPoint>) {
    && |curve| == |js| <= |candles|
    && forall i | 0 <= i < |curve| :: curve[i].equity == EquityAfter(capital, js[..i + 1], candles[i].close)
  }

  lemma MarksGrow(capital: real, candles: seq<Candle>, js: seq<Moment>, curve: seq<EquityPoint>, m: Moment,
                  p: EquityPoint)
    requires MarkedOk(capital, candles, js, curve) && |js| < |candles|
    requires p.equity == EquityAfter(capital, js + [m], candles[|js|].close)
    ensures MarkedOk(capital, candles, js + [m], curve + [p])
  {
    hide EquityAfter;
    var more := js + [m];
    assert more[..|js| + 1] == more;
    forall i | 0 <= i < |curve| ensures more[..i + 1] == js[..i + 1] && (curve + [p])[i] == curve[i] {
    }
  }

  function TradesIn(js: seq<Moment>): seq<TradeRecord> {
    if js == [] then [] else TradesIn(js[..|js| - 1]) + Listed(js[|js| - 1].trade)
  }

  /** No position was forgotten. */
  predicate AllCovered(js: seq<Moment>) { forall i | 0 <= i < |js| :: !js[i].Forgets() }

  /** The cash that a position has tied up; a short's proceeds count against it. */
  function Stake(p: Option<ReplayPosition>): real {
    if p.None? then 0.0
    else if p.value.side.Buy? then Cost(p.value.quantity, p.value.entryFill)
    else -Cost(p.value.quantity, p.value.entryFill)
  }

  /** What the account and a record show while nothing has been forgotten;
      `worth` is the capital plus what the trades before earned. */
  predicate MomentKnown(worth: real, before: Option<ReplayPosition>, m: Moment) {
    && m.start.desk.ledger.reserved == 0.0
    && m.start.desk.ledger.cash == worth - Stake(before) && m.mid.desk.ledger.cash == worth - Stake(m.atOpen)
    && (m.atOpen.Some? && m.trade.Some? ==> m.trade.value.grossPnl == Gain(m.atOpen.value, m.trade.value.exitFill))
  }

  /** The capital plus what the first `i` moments' trades earned. */
  function WorthAt(capital: real, js: seq<Moment>, i: nat): real
    requires i <= |js|
  {
    capital + SumGross(TradesIn(js[..i]))
  }

  predicate KnownAt(capital: real, js: seq<Moment>, i: nat)
    requires i < |js|
  {
    AllCovered(js[..i]) ==> MomentKnown(WorthAt(capital, js, i), Before(js, i), js[i])
  }

  /** Until something is forgotten the account is known at every moment. */
  ghost predicate JournalKnown(capital: real, js: seq<Moment>) {
    forall i: nat | i < |js| :: KnownAt(capital, js, i)
  }

  /** What the journal says so far, with the exits that were rejected counted. */
  ghost predicate Journaled(s: Session, js: seq<Moment>, position: Option<ReplayPosition>, trades: seq<TradeRecord>,
                            uncovered: nat)
  {
    && |js| <= |s.candles| == |s.signals| && s.JournalOk(js)
    && position == Before(js, |js|) && trades == TradesIn(js)
    && (uncovered == 0 <==> AllCovered(js)) && JournalKnown(s.capital, js)
  }

  lemma JournalGrows(s: Session, js: seq<Moment>, before: Option<ReplayPosition>, trades: seq<TradeRecord>,
                     uncovered: nat, m: Moment)
    requires Journaled(s, js, before, trades, uncovered) && |js| < |s.candles| && s.MomentOk(|js|, before, m)
    requires m.start == s.StartOf(js, |js|)
    requires uncovered == 0 ==> MomentKnown(s.capital + SumGross(trades), before, m)
    ensures Journaled(s, js + [m], m.atClose, trades + Listed(m.trade),
                      if m.Forgets() then uncovered + 1 else uncovered)
  {
    hide Session.JournalOk, JournalKnown, MomentKnown, SumGross, Session.MomentOk, Session.StartOf;
    var more := js + [m];
    assert more[..|js|] == js && js[..|js|] == js;
    MomentsGrow(s, js, m);
    KnownGrows(s.capital, js, m);
  }

  lemma MomentsGrow(s: Session, js: seq<Moment>, m: Moment)
    requires |js| < |s.candles| == |s.signals| && s.JournalOk(js)
    requires m.start == s.StartOf(js, |js|) && s.MomentOk(|js|, Before(js, |js|), m)
    ensures s.JournalOk(js + [m])
  {
    hide Session.MomentOk;
    var more, n := js + [m], |js|;
    forall i | 0 <= i <= n ensures more[i].start == s.StartOf(more, i) && s.MomentOk(i, Before(more, i), more[i]) {
      assert Before(more, i) == Before(js, i) && s.StartOf(more, i) == s.StartOf(js, i);
      if i < n { assert more[i] == js[i]; }
    }
  }

  lemma KnownGrows(capital: real, js: seq<Moment>, m: Moment)
    requires JournalKnown(capital, js)
    requires AllCovered(js) ==> MomentKnown(WorthAt(capital, js, |js|), Before(js, |js|), m)
    ensures JournalKnown(capital, js + [m])
  {
    hide KnownAt;
    forall i: nat | i <= |js| ensures KnownAt(capital, js + [m], i) {
      if i < |js| { StaysKnown(capital, js, m, i); } else { LastIsKnown(capital, js, m); }
    }
  }

  lemma StaysKnown(capital: real, js: seq<Moment>, m: Moment, i: nat)
    requires i < |js| && KnownAt(capital, js, i)
    ensures KnownAt(capital, js + [m], i)
  {
    hide MomentKnown, SumGross, AllCovered;
    assert (js + [m])[..i] == js[..i] && Before(js + [m], i) == Before(js, i) && (js + [m])[i] == js[i];
  }

  lemma LastIsKnown(capital: real, js: seq<Moment>, m: Moment)
    requires AllCovered(js) ==> MomentKnown(WorthAt(capital, js, |js|), Before(js, |js|), m)
    ensures KnownAt(capital, js + [m], |js|)
  {
    hide MomentKnown, SumGross, AllCovered;
    assert (js + [m])[..|js|] == js == js[..|js|] && Before(js + [m], |js|) == Before(js, |js|);
  }

  /** While nothing has been forgotten cash is what the account is worth less what the position ties up. */
  lemma CashIsKnown(e: Engine, s: Session, position: Option<ReplayPosition>, trades: seq<TradeRecord>, t: int)
    requires Consistent(e, s.key, s.capital, position, trades, 0, t)
    ensures e.desk.ledger.reserved == 0.0
    ensures e.desk.ledger.cash == s.capital + SumGross(trades) - Stake(position)
  {
    hide SumGross, SumNet, SumCharges, Cost, Fits;
    var b := e.desk.book;
    if position.None? {
      FlatEquity(e.desk, s.key, s.capital);
    } else {
      OneLot(b.lots[s.key][0]);
      assert b.lots.Keys == {s.key} && Values(b).Keys == {s.key};
      TotalOfOne(Values(b), s.key);
    }
  }

  lemma TotalOfOne(m: map<Key, real>, key: Key)
    requires m.Keys == {key}
    ensures Total(m) == m[key]
  {
    TotalWithout(m, key);
    assert m - {key} == map[];
  }

  /** One candle, up to the marking: execute what waits for its open, then manage the position. */
  method TradeCandle(engine: PaperTradingEngine, s: Session, i: nat, before: Option<ReplayPosition>,
                     pending: Option<Pending>, ghost trades: seq<TradeRecord>, ghost uncovered: nat)
    returns (r: Result<(Option<ReplayPosition>, Option<TradeRecord>)>, ghost m: Moment)
    requires engine.Valid() && s.Valid() && i < |s.candles| && pending == s.Scheduled(i, before)
    requires Consistent(engine.View(), s.key, s.capital, before, trades, uncovered, s.candles[i].at)
    requires engine.View().desk.ledger.cash >= 0.0
    modifies engine.Repr()
    ensures r.Err? ==> Stuck(engine.View().desk.ledger, s.cost)
    ensures s.Usual() ==> r.Ok? && (engine.View().desk.ledger.cash < 0.0 <==> s.SpendsSlack(i, m))
    ensures r.Ok? ==> r.value == (m.atClose, m.trade) && m.start == old(engine.View()) && m.left == engine.View()
    ensures r.Ok? ==> s.MomentOk(i, before, m.(end := Apply(m.left, Price(s.key, s.candles[i].close, s.candles[i].at))))
    ensures r.Ok? ==> Consistent(engine.View(), s.key, s.capital, m.atClose, trades + Listed(m.trade),
                                 if m.Forgets() then uncovered + 1 else uncovered, ExitTerms(s.candles, i).1)
    ensures r.Ok? && uncovered == 0 ==> MomentKnown(s.capital + SumGross(trades), before, m)
  {
    hide Consistent, ManagedOk, EntryOf, Enough, Slipped, Gain, Wanted, SumGross, Stake, Sent, EntryOrder, Apply;
    m := Moment(engine.View(), before, engine.View(), None, None, engine.View(), engine.View());
    if uncovered == 0 { CashIsKnown(engine.View(), s, before, trades, s.candles[i].at); }
    assert trades + [] == trades;
    var position := before;
    if pending.Some? {
      var entered := OpenPosition(engine, s.key, s.capital, pending.value, s.candles[i].open, s.fraction, s.cost,
                                  s.candles[i].at, trades, uncovered);
      if entered.Err? { return Err(entered.error), m; }
      position := entered.value;
      m := m.(atOpen := position, mid := engine.View(), left := engine.View());
      if uncovered == 0 { CashIsKnown(engine.View(), s, position, trades, s.candles[i].at); }
    }
    if position.None? {
      ConsistentLater(engine.View(), s.key, s.capital, None, trades, uncovered, s.candles[i].at,
                      ExitTerms(s.candles, i).1);
      return Ok((None, None)), m;
    }
    PositionIsPositive(engine.View(), s.key, s.capital, position.value, trades, uncovered, s.candles[i].at);
    var managed := ManagePosition(engine, s.key, s.capital, position.value, s.candles, i, s.signals[i], s.threshold,
                                  s.cost, trades, uncovered);
    if managed.Err? { return Err(managed.error), m; }
    m := m.(atClose := managed.value.0, trade := managed.value.1, left := engine.View());
    r := managed;
  }

  lemma PositionIsPositive(e: Engine, key: Key, capital: real, p: ReplayPosition, trades: seq<TradeRecord>,
                           uncovered: nat, t: int)
    requires Consistent(e, key, capital, Some(p), trades, uncovered, t)
    ensures p.quantity > 0
  {
  }

  /** One candle of the loop: trade, then mark the account to the close. */
  method PlayCandle(engine: PaperTradingEngine, s: Session, i: nat, before: Option<ReplayPosition>,
                    pending: Option<Pending>, ghost trades: seq<TradeRecord>, ghost uncovered: nat)
    returns (r: Result<real>, position: Option<ReplayPosition>, trade: Option<TradeRecord>, ghost m: Moment)
    requires engine.Valid() && s.Valid() && i < |s.candles| && pending == s.Scheduled(i, before)
    requires Consistent(engine.View(), s.key, s.capital, before, trades, uncovered, s.candles[i].at)
    requires engine.View().desk.ledger.cash >= 0.0
    modifies engine.Repr()
    ensures r.Err? ==> Stuck(engine.View().desk.ledger, s.cost)
    ensures r.Ok? ==> engine.View().desk.ledger.cash >= 0.0
    ensures s.Usual() ==> (r.Err? <==> s.SpendsSlack(i, m))
    ensures r.Ok? || s.Usual() ==>
              var more, missed := trades + Listed(trade), if m.Forgets() then uncovered + 1 else uncovered;
              && m.start == old(engine.View()) && m.end == engine.View() && (position, trade) == (m.atClose, m.trade)
              && s.MomentOk(i, before, m)
              && (uncovered == 0 ==> MomentKnown(s.capital + SumGross(trades), before, m))
              && Consistent(engine.View(), s.key, s.capital, position, more, missed, ExitTerms(s.candles, i).1)
              && (r.Ok? && missed == 0 ==>
                    r.value == s.capital + SumGross(more) + OpenGain(position, s.candles[i].close))
  {
    hide Consistent, Session.MomentOk, Gain, OpenGain, SumGross, Apply, Stake;
    position, trade := before, None;
    var traded, moment := TradeCandle(engine, s, i, before, pending, trades, uncovered);
    m := moment;
    if traded.Err? { return Err(traded.error), position, trade, m; }
    position, trade := traded.value.0, traded.value.1;
    r := MarkEquity(engine, s.key, s.capital, s.candles[i].close, s.candles[i].at, position, trades + Listed(trade),
                    if m.Forgets() then uncovered + 1 else uncovered, ExitTerms(s.candles, i).1);
    m := m.(end := engine.View());
  }

  /** Replay the candles, each with the recommendation made at its close.  The
      journal tells what was entered, kept and left at every candle and the engine
      in between.  When nothing was forgotten the replay ends flat, each point of
      the curve is capital plus what the trades so far earned plus what the open
      position would earn at the close, and final equity minus capital is the
      gross profit of the trades, which is their net profit plus their charges.
      The drawdowns are those of the running peak.  With slippage below a whole
      price and no more than all the cash in one position, the replay raises if
      and only if some candle covers a short out of the comparison slack. */
  method RunReplay(s: Session)
    returns (r: Result<(seq<TradeRecord>, seq<EquityPoint>)>, engine: PaperTradingEngine, ghost journal: seq<Moment>)
    requires s.Valid()
    ensures fresh(engine.Repr()) && engine.Valid()
    ensures r.Err? ==> Stuck(engine.View().desk.ledger, s.cost)
    ensures r.Ok? ==> |r.value.1| == |s.candles| && CurveOk(s.capital, r.value.1)
    ensures r.Ok? || s.Usual() ==>
              && |journal| <= |s.candles| && s.JournalOk(journal) && JournalKnown(s.capital, journal)
              && engine.View() == s.StartOf(journal, |journal|)
    ensures s.Usual() ==> (r.Err? <==> s.SlackSpent(journal))
    ensures r.Ok? ==> |journal| == |s.candles| && r.value.0 == TradesIn(journal)
    ensures r.Ok? && AllCovered(journal) ==>
              var (trades, curve) := r.value;
              && engine.View().desk.book.lots == map[] && MarkedOk(s.capital, s.candles, journal, curve)
              && FinalEquity(curve, s.capital) - s.capital == SumGross(trades) == SumNet(trades) + SumCharges(trades)
  {
    hide Consistent, SumGross, SumNet, SumCharges, Session.MomentOk, Journaled, Charted, CurveOk, MarkedOk,
         Wanted, PointAt, MomentKnown, OpenGain, EquityAfter, Stuck, JournalKnown, Session.JournalOk, Session.Usual,
         Session.SlackSpent, Session.SpendsSlack, TradesIn, AllCovered, FinalEquity;
    var candles := s.candles;
    engine := new PaperTradingEngine(s.capital);
    journal := [];
    ghost var uncovered: nat := 0;
    ghost var t := if |candles| > 0 then candles[0].at else 0;
    StartIsConsistent(engine.View(), s.key, s.capital, t);
    JournalStarts(s);
    ChartStarts(s.capital, candles);
    var trades: seq<TradeRecord>, curve: seq<EquityPoint> := [], [];
    var position: Option<ReplayPosition>, pending: Option<Pending> := None, None;
    var peak := s.capital;
    for i := 0 to |candles|
      invariant engine.Valid() && fresh(engine.Repr()) && (i < |candles| ==> t == candles[i].at)
      invariant Consistent(engine.View(), s.key, s.capital, position, trades, uncovered, t)
      invariant |journal| == i && Journaled(s, journal, position, trades, uncovered)
      invariant engine.View() == s.StartOf(journal, i)
      invariant i < |candles| ==> pending == s.Scheduled(i, position)
      invariant i == |candles| ==> position.None?
      invariant |curve| == i && Charted(s.capital, candles, journal, curve, peak, uncovered)
      invariant engine.View().desk.ledger.cash >= 0.0 && (s.Usual() ==> !s.SlackSpent(journal))
    {
      var isFinal := i == |candles| - 1;
      ghost var before, was, js, oldPeak := position, trades, journal, peak;
      var equity, held, trade, m := PlayCandle(engine, s, i, position, pending, trades, uncovered);
      SlackGrows(s, journal, m);
      if equity.Err? {
        if s.Usual() {
          JournalEndsWith(s, journal, before, was, uncovered, m);
          journal := journal + [m];
        }
        return Err(equity.error), engine, journal;
      }
      position, t := held, ExitTerms(candles, i).1;
      assert trades + [] == trades;
      if trade.Some? { trades := trades + [trade.value]; }
      pending := if position.None? && !isFinal then Wanted(s.signals[i], s.threshold) else None;
      if isFinal { LastMomentIsFlat(s, before, m); }
      JournalGrows(s, journal, before, was, uncovered, m);
      journal, uncovered := journal + [m], if m.Forgets() then uncovered + 1 else uncovered;
      peak := Max(peak, equity.value);
      var point := PointAt(peak, equity.value, candles[i].at);
      ChartGrows(s, s.capital, js, curve, oldPeak, before, m, point, trades, uncovered);
      curve := curve + [point];
    }
    r := Ok((trades, curve));
    EndIsFlat(engine.View(), s.key, s.capital, trades, uncovered, t);
    JournalEnds(s, journal, position, trades, uncovered);
    ChartEnds(s.capital, candles, journal, curve, peak, uncovered);
  }

  lemma SlackGrows(s: Session, js: seq<Moment>, m: Moment)
    requires |js| < |s.candles|
    ensures s.SlackSpent(js + [m]) <==> s.SlackSpent(js) || s.SpendsSlack(|js|, m)
  {
    var more := js + [m];
    assert forall i: nat :: i < |js| ==> more[i] == js[i];
    assert more[|js|] == m;
  }

  /** What covering the short that is left at moment `i` takes beyond its
      proceeds and all the account is worth; nothing when no short is left. */
  function Excess(s: Session, js: seq<Moment>, i: nat): real
    requires i < |js| <= |s.candles| == |s.signals|
  {
    if js[i].atOpen.None? then 0.0
    else
      var p, signal := js[i].atOpen.value, s.signals[i];
      if p.side.Buy? || ExitReason(p, s.candles[i].close, signal.action, signal.confidence, s.threshold,
                                   i == |s.candles| - 1).None? then 0.0
      else
        Cost(p.quantity, Slipped(ExitTerms(s.candles, i).0, Buy, s.cost))
        - Cost(p.quantity, p.entryFill) - WorthAt(s.capital, js, i)
  }

  /** Until then everything was covered: a position is forgotten exactly when
      leaving it takes more than the account has and the slack. */
  lemma ForgottenExactlyWhenRuined(s: Session, js: seq<Moment>, i: nat)
    requires i < |js| <= |s.candles| == |s.signals| && s.JournalOk(js) && JournalKnown(s.capital, js)
    requires AllCovered(js[..i])
    ensures js[i].Forgets() <==> Excess(s, js, i) > EPSILON
    ensures s.SpendsSlack(i, js[i]) <==> 0.0 < Excess(s, js, i) <= EPSILON
  {
    hide ExitReason, RecordOf, PnlSince, Apply, Sent, EntryOrder, Enough, EntryOf, Wanted, Slipped, WorthAt, Cost;
    assert s.MomentOk(i, Before(js, i), js[i]);
    assert KnownAt(s.capital, js, i);
  }

  /** The hypothesis of the conservation law, read off signals and candles: no
      position is ever forgotten if and only if none is ever left at terms that
      take more than the account has and the slack.  A long never is. */
  lemma {:induction false} CoveredExactlyWhenNeverRuined(s: Session, js: seq<Moment>)
    requires |js| <= |s.candles| == |s.signals| && s.JournalOk(js) && JournalKnown(s.capital, js)
    ensures AllCovered(js) <==> forall i: nat | i < |js| :: Excess(s, js, i) <= EPSILON
  {
    hide Session.JournalOk, JournalKnown, Excess, Session.SpendsSlack;
    if AllCovered(js) {
      forall i: nat | i < |js| ensures Excess(s, js, i) <= EPSILON {
        ForgottenExactlyWhenRuined(s, js, i);
      }
    } else {
      var i: nat := FirstForgotten(js);
      ForgottenExactlyWhenRuined(s, js, i);
    }
  }

  /** ... and then the replay goes to its end if and only if no cover eats into
      the slack: it neither raises nor forgets exactly when no short is ever
      left for more than its proceeds and all the account is worth. */
  lemma SoundExactlyWhenNeverShort(s: Session, js: seq<Moment>)
    requires |js| <= |s.candles| == |s.signals| && s.JournalOk(js) && JournalKnown(s.capital, js)
    ensures AllCovered(js) && !s.SlackSpent(js) <==> forall i: nat | i < |js| :: Excess(s, js, i) <= 0.0
  {
    hide Session.JournalOk, JournalKnown, Excess, Session.SpendsSlack;
    CoveredExactlyWhenNeverRuined(s, js);
    if AllCovered(js) {
      forall i: nat | i < |js| ensures s.SpendsSlack(i, js[i]) <==> 0.0 < Excess(s, js, i) <= EPSILON {
        ForgottenExactlyWhenRuined(s, js, i);
      }
    }
  }

  lemma {:induction false} FirstForgotten(js: seq<Moment>) returns (i: nat)
    requires !AllCovered(js)
    ensures i < |js| && js[i].Forgets() && AllCovered(js[..i])
  {
    var n := |js| - 1;
    if AllCovered(js[..n]) {
      assert forall j | 0 <= j < n :: js[..n][j] == js[j];
      i := n;
    } else {
      i := FirstForgotten(js[..n]);
      assert js[..n][..i] == js[..i];
    }
  }

  /** The last candle leaves whatever is held. */
  lemma LastMomentIsFlat(s: Session, before: Option<ReplayPosition>, m: Moment)
    requires 0 < |s.candles| == |s.signals| && s.MomentOk(|s.candles| - 1, before, m)
    ensures m.atClose.None?
  {
  }

  /** The curve so far: the drawdowns are those of the running peak, the equities are marked. */
  ghost predicate Charted(capital: real, candles: seq<Candle>, js: seq<Moment>, curve: seq<EquityPoint>, peak: real,
                          uncovered: nat)
  {
    && |curve| == |js| && CurveOk(capital, curve) && peak == Peak(capital, Equities(curve))
    && (uncovered == 0 ==> MarkedOk(capital, candles, js, curve))
  }

  lemma ChartStarts(capital: real, candles: seq<Candle>)
    ensures Charted(capital, candles, [], [], capital, 0)
  {
    CurveStarts(capital);
  }

  lemma ChartGrows(s: Session, capital: real, js: seq<Moment>, curve: seq<EquityPoint>, peak: real,
                   before: Option<ReplayPosition>, m: Moment, p: EquityPoint, trades: seq<TradeRecord>,
                   uncovered: nat)
    requires |js| < |s.candles| && Journaled(s, js + [m], m.atClose, trades, uncovered)
    requires Charted(capital, s.candles, js, curve, peak, if m.Forgets() then uncovered - 1 else uncovered)
    requires p == PointAt(Max(peak, p.equity), p.equity, p.at)
    requires uncovered == 0 ==> p.equity == capital + SumGross(trades) + OpenGain(m.atClose, s.candles[|js|].close)
    ensures Charted(capital, s.candles, js + [m], curve + [p], Max(peak, p.equity), uncovered)
  {
    hide CurveOk, Peak, Equities, MarkedOk, PointAt, OpenGain, SumGross, Session.JournalOk;
    CurveGrows(capital, curve, p);
    if uncovered == 0 { MarksGrow(capital, s.candles, js, curve, m, p); }
  }

  lemma ChartEnds(capital: real, candles: seq<Candle>, js: seq<Moment>, curve: seq<EquityPoint>, peak: real,
                  uncovered: nat)
    requires Charted(capital, candles, js, curve, peak, uncovered)
    ensures |curve| == |js| && CurveOk(capital, curve)
    ensures uncovered == 0 ==> MarkedOk(capital, candles, js, curve)
    ensures uncovered == 0 && Before(js, |js|).None? ==> FinalEquity(curve, capital) == capital + SumGross(TradesIn(js))
  {
    hide CurveOk;
    if curve != [] { assert js[..|js|] == js; }
  }

  lemma JournalStarts(s: Session)
    requires |s.candles| == |s.signals|
    ensures Journaled(s, [], None, [], 0) && !s.SlackSpent([])
  {
  }

  lemma JournalEnds(s: Session, js: seq<Moment>, position: Option<ReplayPosition>, trades: seq<TradeRecord>,
                    uncovered: nat)
    requires Journaled(s, js, position, trades, uncovered)
    ensures |js| <= |s.candles| == |s.signals| && s.JournalOk(js) && trades == TradesIn(js)
    ensures position == Before(js, |js|)
    ensures (uncovered == 0 <==> AllCovered(js)) && JournalKnown(s.capital, js)
  {
  }

  /** ... also when the last moment made the replay raise. */
  lemma JournalEndsWith(s: Session, js: seq<Moment>, before: Option<ReplayPosition>, trades: seq<TradeRecord>,
                        uncovered: nat, m: Moment)
    requires Journaled(s, js, before, trades, uncovered) && |js| < |s.candles| && s.MomentOk(|js|, before, m)
    requires m.start == s.StartOf(js, |js|)
    requires uncovered == 0 ==> MomentKnown(s.capital + SumGross(trades), before, m)
    ensures s.JournalOk(js + [m]) && JournalKnown(s.capital, js + [m])
    ensures s.StartOf(js + [m], |js| + 1) == m.end
  {
    hide Session.MomentOk, MomentKnown, SumGross, Session.JournalOk, JournalKnown;
    JournalGrows(s, js, before, trades, uncovered, m);
  }

  lemma StartIsConsistent(e: Engine, key: Key, capital: real, t: int)
    requires e == NewEngine(capital) && capital > 0.0
    ensures Consistent(e, key, capital, None, [], 0, t)
  {
    assert Values(EMPTY) == map[];
  }

  /** A point of the equity curve, with its fall from the highest point so far. */
  function PointAt(peak: real, equity: real, at: int): (p: EquityPoint)
    ensures p.equity == equity && p.at == at
  {
    var drawdown := Max(peak - equity, 0.0);
    EquityPoint(at, equity, drawdown, if peak > 0.0 then drawdown / peak * 100.0 else 0.0)
  }

  lemma CurveStarts(capital: real)
    ensures CurveOk(capital, []) && Peak(capital, Equities([])) == capital
  {
  }

  lemma CurveGrows(capital: real, curve: seq<EquityPoint>, p: EquityPoint)
    requires CurveOk(capital, curve)
    requires p == PointAt(Max(Peak(capital, Equities(curve)), p.equity), p.equity, p.at)
    ensures CurveOk(capital, curve + [p])
    ensures Peak(capital, Equities(curve + [p])) == Max(Peak(capital, Equities(curve)), p.equity)
  {
    hide PointAt, Below;
    var more := curve + [p];
    var n := |curve|;
    PointFalls(Peak(capital, Equities(curve)), p);
    assert Equities(more)[..n] == Equities(curve);
    assert Equities(more)[..n + 1] == Equities(more);
    forall i | 0 <= i < n ensures Equities(more)[..i + 1] == Equities(curve)[..i + 1] && more[i] == curve[i] {
    }
  }

  lemma PointFalls(peak: real, p: EquityPoint)
    requires p == PointAt(Max(peak, p.equity), p.equity, p.at)
    ensures Below(p, Max(peak, p.equity))
  {
  }

  lemma EndIsFlat(e: Engine, key: Key, capital: real, trades: seq<TradeRecord>, uncovered: nat, t: int)
    requires Consistent(e, key, capital, None, trades, uncovered, t)
    ensures SumGross(trades) == SumNet(trades) + SumCharges(trades)
    ensures uncovered == 0 ==> e.desk.book.lots == map[] && e.desk.ledger.realized == SumGross(trades)
  {
    if uncovered == 0 { FlatEquity(e.desk, key, capital); }
  }
}
