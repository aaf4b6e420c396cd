/** Option positions on the paper exchange: the premium-exposure gate, and what
    it guarantees over runs of entries, exits and any other trading. */
module Options {
  import opened Domain
  import opened Fifo
  import opened Sums
  import opened Portfolios
  import opened Positions
  import opened OrderDesk
  import opened Engine
  import opened Accounts
  import opened MarketOrders
  import opened Calendar

  datatype Limits = Limits(maxLots: int, maxPremium: real, maxExposure: real, maxDailyLoss: real)

  /** The day's realized option profit. */
  datatype OptionRisk = OptionRisk(day: Option<int>, dailyPnl: real)

  function Rolled(r: OptionRisk, now: int): OptionRisk {
    if r.day != Some(DayOf(now)) then OptionRisk(Some(DayOf(now)), 0.0) else r
  }

  predicate Allowed(lim: Limits, r: OptionRisk, lots: int, value: real, exposure: real) {
    && r.dailyPnl > -lim.maxDailyLoss && lots <= lim.maxLots
    && value <= lim.maxPremium && exposure + value <= lim.maxExposure
  }

  function WithPnl(r: OptionRisk, pnl: real, now: int): OptionRisk {
    var rolled := Rolled(r, now);
    rolled.(dailyPnl := rolled.dailyPnl + pnl)
  }

  class OptionRiskManager {
    const limits: Limits
    var day: Option<int>
    var dailyPnl: real

    ghost function View(): OptionRisk
      reads this
    {
      OptionRisk(day, dailyPnl)
    }

    constructor (limits: Limits)
      ensures this.limits == limits && View() == OptionRisk(None, 0.0)
    {
      this.limits, day, dailyPnl := limits, None, 0.0;
    }

    method CheckOrderAllowed(lots: int, value: real, exposure: real, now: int) returns (allowed: bool)
      modifies this
      ensures View() == Rolled(old(View()), now) && allowed == Allowed(limits, View(), lots, value, exposure)
    {
      RollDayIfNeeded(now);
      if dailyPnl <= -limits.maxDailyLoss { return false; }
      if lots > limits.maxLots { return false; }
      if value > limits.maxPremium { return false; }
      if exposure + value > limits.maxExposure { return false; }
      return true;
    }

    method RecordTradeClosed(pnl: real, now: int)
      modifies this
      ensures View() == WithPnl(old(View()), pnl, now)
    {
      RollDayIfNeeded(now);
      dailyPnl := dailyPnl + pnl;
    }

    method Reset()
      modifies this
      ensures View() == OptionRisk(None, 0.0)
    {
      day, dailyPnl := None, 0.0;
    }

    method RollDayIfNeeded(now: int)
      modifies this
      ensures View() == Rolled(old(View()), now)
    {
      if day != Some(DayOf(now)) {
        day, dailyPnl := Some(DayOf(now)), 0.0;
      }
    }
  }

  // ---------- Exposure ----------

  function Magnitude(q: int): int { if q < 0 then -q else q }

  /** Premium deployed in one position; nothing outside the derivatives segment. */
  function Premium(p: PaperPosition): real {
    if p.key.exchange.NFO? then Cost(Magnitude(p.quantity), p.averagePrice) else 0.0
  }

  ghost function Exposure(b: Book): real { Total(map k | k in b.positions :: Premium(b.positions[k])) }

  function PremiumsOf(ps: seq<PaperPosition>): seq<real> {
    seq(|ps|, i requires 0 <= i < |ps| => Premium(ps[i]))
  }

  method GetOptionPremiumExposure(engine: PaperTradingEngine) returns (exposure: real)
    requires engine.Valid()
    ensures exposure == Exposure(engine.View().desk.book)
  {
    var ps, keys := engine.positions.GetAllPositions();
    exposure := SumOf(PremiumsOf(ps));
    var all := engine.positions.positions;
    TotalOfListing(map k | k in all :: Premium(all[k]), keys, PremiumsOf(ps));
  }

  // ---------- Entering and exiting ----------

  /** What an entry is asked for: the contract (none for a NO_TRADE
      recommendation), its size, the lot size the chain lookup gave, bracket
      premiums and the fresh quote, the last two absent when their lookup raised. */
  datatype Entry = Entry(symbol: Option<string>, lots: int, maxLots: int, lotSize: Option<int>,
                         stopLoss: Option<real>, target: Option<real>, quote: Option<real>)

  datatype Exit = Exit(symbol: string, quantity: Option<int>, quote: Option<real>)

  datatype OptionStep = OptionStep(engine: Engine, risk: OptionRisk, error: Option<Error>)

  function EntryRequest(a: Entry, quantity: int): PaperOrderRequest
    requires a.symbol.Some?
  {
    PaperOrderRequest(Key(NFO, a.symbol.value), Buy, Market, quantity, None, None, None, None, a.stopLoss, a.target)
  }

  ghost function OptionEntered(e: Engine, r: OptionRisk, lim: Limits, a: Entry, now: int): OptionStep {
    if a.symbol.None? || a.lots <= 0 || a.lots > a.maxLots then OptionStep(e, r, Some(InvalidArgument))
    else if a.lotSize.None? || a.quote.None? then OptionStep(e, r, Some(QuoteUnavailable))
    else
      var quantity := a.lots * a.lotSize.value;
      var risk := Rolled(r, now);
      if !Allowed(lim, risk, a.lots, Cost(quantity, a.quote.value), Exposure(e.desk.book)) then
        OptionStep(e, risk, Some(RiskLimitExceeded))
      else if !EntryRequest(a, quantity).Valid() then OptionStep(e, risk, Some(ValidationFailed))
      else
        var op := Place(EntryRequest(a, quantity), a.quote.value, now);
        OptionStep(Apply(e, op), risk, Placed(e.desk, op.req, op.price, now).error)
  }

  function OpenQuantity(b: Book, key: Key): int { if key in b.positions then b.positions[key].quantity else 0 }

  function OptionLeft(e: Engine, r: OptionRisk, x: Exit, now: int): OptionStep {
    var key := Key(NFO, x.symbol);
    var open := OpenQuantity(e.desk.book, key);
    var quantity := x.quantity.GetOr(Magnitude(open));
    if open == 0 then OptionStep(e, r, Some(PositionNotFound))
    else if !(0 < quantity <= Magnitude(open)) then OptionStep(e, r, Some(InvalidArgument))
    else if x.quote.None? then OptionStep(e, r, Some(QuoteUnavailable))
    else if !CanSnapshot(e.desk.ledger) then OptionStep(e, r, Some(ValidationFailed))
    else
      var op := Place(MarketRequest(key, if open > 0 then Sell else Buy, quantity), x.quote.value, now);
      var after := Apply(e, op);
      var error := Placed(e.desk, op.req, op.price, now).error;
      if error.Some? then OptionStep(after, r, error)
      else if !CanSnapshot(after.desk.ledger) then OptionStep(after, r, Some(ValidationFailed))
      else
        var delta := after.desk.ledger.realized - e.desk.ledger.realized;
        OptionStep(after, if delta != 0.0 then WithPnl(r, delta, now) else r, None)
  }

  /** The id and the record of the one order placed between two states. */
  predicate IsOrderPlaced(placed: (nat, Order), before: Engine, after: Engine) {
    placed.0 == |before.desk.orders| < |after.desk.orders| && placed.1 == after.desk.orders[placed.0]
  }

  method EnterOptionPosition(engine: PaperTradingEngine, risk: OptionRiskManager, a: Entry, now: int)
    returns (r: Result<(nat, Order)>)
    requires engine.Valid()
    modifies engine.Repr(), risk
    ensures var s := OptionEntered(old(engine.View()), old(risk.View()), risk.limits, a, now);
            && engine.View() == s.engine && risk.View() == s.risk
            && (r.Err? <==> s.error.Some?) && (r.Err? ==> r.error == s.error.value)
            && (r.Ok? ==> IsOrderPlaced(r.value, old(engine.View()), s.engine))
  {
    hide Placed, Exposure;
    if a.symbol.None? { return Err(InvalidArgument); }
    if a.lots <= 0 || a.lots > a.maxLots { return Err(InvalidArgument); }
    if a.lotSize.None? || a.quote.None? { return Err(QuoteUnavailable); }
    var quantity := a.lots * a.lotSize.value;
    var premium := a.quote.value;
    var exposure := GetOptionPremiumExposure(engine);
    var allowed := risk.CheckOrderAllowed(a.lots, Cost(quantity, premium), exposure, now);
    if !allowed { return Err(RiskLimitExceeded); }
    if !EntryRequest(a, quantity).Valid() { return Err(ValidationFailed); }
    r := engine.PlaceOrder(EntryRequest(a, quantity), premium, now);
  }

  method ExitOptionPosition(engine: PaperTradingEngine, risk: OptionRiskManager, x: Exit, now: int)
    returns (r: Result<(nat, Order)>)
    requires engine.Valid()
    modifies engine.Repr(), risk
    ensures var s := OptionLeft(old(engine.View()), old(risk.View()), x, now);
            && engine.View() == s.engine && risk.View() == s.risk
            && (r.Err? <==> s.error.Some?) && (r.Err? ==> r.error == s.error.value)
            && (r.Ok? ==> IsOrderPlaced(r.value, old(engine.View()), s.engine))
  {
    hide Placed, Snapshot, Apply;
    var key := Key(NFO, x.symbol);
    var position := engine.GetPosition(key);
    if position.None? || position.value.quantity == 0 { return Err(PositionNotFound); }
    var open := position.value.quantity;
    var quantity := x.quantity.GetOr(Magnitude(open));
    if !(0 < quantity <= Magnitude(open)) { return Err(InvalidArgument); }
    if x.quote.None? { return Err(QuoteUnavailable); }
    var before, keys, ps := engine.GetPortfolio(now);
    SnapshotNeedsOnlyTheLedger(engine.View().desk.ledger, ps, now);
    if before.Err? { return Err(before.error); }
    ghost var was := engine.View();
    r := engine.PlaceOrder(MarketRequest(key, if open > 0 then Sell else Buy, quantity), x.quote.value, now);
    PlacingIsPlaced(was, MarketRequest(key, if open > 0 then Sell else Buy, quantity), x.quote.value, now);
    if r.Err? { return; }
    var after, moreKeys, morePs := engine.GetPortfolio(now);
    SnapshotNeedsOnlyTheLedger(engine.View().desk.ledger, morePs, now);
    if after.Err? { return Err(after.error); }
    var delta := after.value.realizedPnl - before.value.realizedPnl;
    if delta != 0.0 { risk.RecordTradeClosed(delta, now); }
  }

  lemma PlacingIsPlaced(e: Engine, req: PaperOrderRequest, price: real, now: int)
    requires req.Valid()
    ensures Apply(e, Place(req, price, now)).desk == Placed(e.desk, req, price, now).desk
  {
  }

  // ---------- What is deployed ----------

  /** What open option lots cost, instrument by instrument. */
  function Bases(b: Book): map<Key, real> { map k | k in b.lots :: if k.exchange.NFO? then Basis(b.lots[k]) else 0.0 }

  /** Deployed premium is what the open option lots cost. */
  lemma ExposureIsBasis(b: Book)
    requires BookOk(b)
    ensures Exposure(b) == Total(Bases(b))
  {
    hide Total;
    forall k | k in b.positions
      ensures Premium(b.positions[k]) == Bases(b)[k]
    {
      PositionWorth(b.positions[k], k, b.lots[k]);
    }
    assert (map k | k in b.positions :: Premium(b.positions[k])) == Bases(b);
  }

  lemma BasesMove(a: Book, b: Book, key: Key)
    requires SameElsewhere(a, b, key) && key.exchange.NFO?
    requires forall k | k in a.lots :: a.lots[k] != []
    requires forall k | k in b.lots :: b.lots[k] != []
    ensures Total(Bases(b)) == Total(Bases(a)) - Basis(a.Lots(key)) + Basis(b.Lots(key))
    ensures forall k | k in b.lots && k != key :: k in a.lots && a.lots[k] == b.lots[k]
  {
    var va, vb := Bases(a), Bases(b);
    forall k | k != key ensures (k in a.lots <==> k in b.lots) && (k in a.lots ==> a.lots[k] == b.lots[k]) {
      assert k in a.lots - {key} <==> k in b.lots - {key};
      if k in a.lots { assert (a.lots - {key})[k] == (b.lots - {key})[k]; }
    }
    assert va - {key} == vb - {key};
    TotalAfter(va, vb, key);
  }

  /** A BUY on a long or flat queue adds its cost; a SELL of no more than is open only takes away. */
  lemma LongFill(lots: seq<Lot>, side: Side, quantity: int, price: real, id: nat, now: int)
    requires quantity > 0 && price > 0.0 && OneSided(lots, Buy)
    requires side.Sell? ==> quantity <= Shares(lots)
    ensures var queue := QueueAfter(lots, side, quantity, price, id, now);
            && OneSided(queue, Buy)
            && (side.Buy? ==> Basis(queue) == Basis(lots) + Cost(quantity, price))
            && (side.Sell? ==> Basis(queue) <= Basis(lots))
  {
    if side.Buy? {
      Append(lots, Lot(id, now, price, quantity, Buy), 0);
    } else {
      assert lots != [];
      ClosesOldestFirst(lots, quantity, price, now);
      ClosingRealizes(lots, quantity, price, now, Buy);
      PiecesAreSound(lots, quantity, price, now, Buy);
    }
  }

  lemma NonPositivePrice(d: Desk, req: PaperOrderRequest, price: real, now: int)
    requires req.Valid() && price <= 0.0
    ensures Placed(d, req, price, now).desk == d && Placed(d, req, price, now).error.Some?
  {
  }

}
