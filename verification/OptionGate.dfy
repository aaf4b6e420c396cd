/** The option gate over runs: its counter is what the day's exits realized, so
    what it lets through can be read off the run; and what an entry and an exit
    that pass do to the account. */
module OptionGate {
  import opened Domain
  import opened Fifo
  import opened Portfolios
  import opened Positions
  import opened OrderDesk
  import opened Engine
  import opened Accounts
  import opened Clock
  import opened Calendar
  import opened Conservation
  import opened PricePass
  import opened MarketOrders
  import opened Options
  import opened OptionRuns

  /** What exits have realized on a day. */
  function RealizedOn(log: seq<(real, int)>, day: int): real {
    if log == [] then 0.0
    else
      var (pnl, at) := log[|log| - 1];
      RealizedOn(log[..|log| - 1], day) + if DayOf(at) == day then pnl else 0.0
  }

  /** The gate's counter is what the log says, as of clock reading `t`. */
  predicate GateTracks(r: OptionRisk, log: seq<(real, int)>, t: int) {
    && (r.day.None? ==> log == [])
    && (r.day.Some? ==>
          && r.day.value <= DayOf(t) && r.dailyPnl == RealizedOn(log, r.day.value)
          && forall i | 0 <= i < |log| :: DayOf(log[i].1) <= r.day.value)
  }

  lemma {:induction false} NothingRealizedLater(log: seq<(real, int)>, day: int)
    requires forall i | 0 <= i < |log| :: DayOf(log[i].1) < day
    ensures RealizedOn(log, day) == 0.0
  {
    if log != [] { NothingRealizedLater(log[..|log| - 1], day); }
  }

  lemma GateRolls(r: OptionRisk, log: seq<(real, int)>, t: int, now: int)
    requires GateTracks(r, log, t) && t <= now
    ensures GateTracks(Rolled(r, now), log, now) && Rolled(r, now).dailyPnl == RealizedOn(log, DayOf(now))
  {
    DaysAscend(t, now);
    if r.day != Some(DayOf(now)) { NothingRealizedLater(log, DayOf(now)); }
  }

  lemma GateBooks(r: OptionRisk, log: seq<(real, int)>, t: int, pnl: real, now: int)
    requires GateTracks(r, log, t) && t <= now
    ensures GateTracks(WithPnl(r, pnl, now), log + [(pnl, now)], now)
  {
    hide DayOf;
    GateRolls(r, log, t, now);
    assert (log + [(pnl, now)])[..|log|] == log;
  }

  /** The results that a run's exits have booked, with their clock readings. */
  ghost function Results(e: Engine, r: OptionRisk, lim: Limits, ops: seq<OptionOp>): seq<(real, int)>
    requires ValidOptionOps(ops)
    decreases |ops|
  {
    if ops == [] then []
    else
      var s := Performed(e, r, lim, ops[0]);
      var earned := s.engine.desk.ledger.realized - e.desk.ledger.realized;
      (if ops[0].Exiting? && s.error.None? && earned != 0.0 then [(earned, ops[0].Now())] else [])
      + Results(s.engine, s.risk, lim, ops[1..])
  }

  /** The gate after a run. */
  ghost function GateAfter(e: Engine, r: OptionRisk, lim: Limits, ops: seq<OptionOp>): OptionRisk
    requires ValidOptionOps(ops)
    decreases |ops|
  {
    if ops == [] then r
    else
      var s := Performed(e, r, lim, ops[0]);
      GateAfter(s.engine, s.risk, lim, ops[1..])
  }

  function LastReading(ops: seq<OptionOp>, start: int): int { if ops == [] then start else ops[|ops| - 1].Now() }

  lemma StepTracks(e: Engine, r: OptionRisk, lim: Limits, op: OptionOp, log: seq<(real, int)>, t: int)
    requires op.Valid() && GateTracks(r, log, t) && t <= op.Now()
    ensures var s := Performed(e, r, lim, op);
            var earned := s.engine.desk.ledger.realized - e.desk.ledger.realized;
            GateTracks(s.risk,
                       log + (if op.Exiting? && s.error.None? && earned != 0.0 then [(earned, op.Now())] else []),
                       op.Now())
  {
    hide Placed, Apply, Exposure, Allowed, DayOf, RealizedOn, Rolled, WithPnl, GateTracks, CanSnapshot;
    var s := Performed(e, r, lim, op);
    var now := op.Now();
    GateLater(r, log, t, now);
    GateRolls(r, log, t, now);
    GateBooks(r, log, t, s.engine.desk.ledger.realized - e.desk.ledger.realized, now);
    assert log + [] == log;
  }

  lemma GateLater(r: OptionRisk, log: seq<(real, int)>, t: int, now: int)
    requires GateTracks(r, log, t) && t <= now
    ensures GateTracks(r, log, now)
  {
    DaysAscend(t, now);
  }

  /** Over every timely run the gate counts exactly what the day's exits realized. */
  lemma {:induction false} GateCountsTheDay(e: Engine, r: OptionRisk, lim: Limits, ops: seq<OptionOp>,
                                            log: seq<(real, int)>, start: int)
    requires ValidOptionOps(ops) && TimelyOptions(ops, start) && GateTracks(r, log, start)
    ensures GateTracks(GateAfter(e, r, lim, ops), log + Results(e, r, lim, ops), LastReading(ops, start))
    decreases |ops|
  {
    hide Performed, GateTracks;
    if ops == [] {
      assert log + [] == log;
    } else {
      var s := Performed(e, r, lim, ops[0]);
      StepTracks(e, r, lim, ops[0], log, start);
      var earned := s.engine.desk.ledger.realized - e.desk.ledger.realized;
      var first := if ops[0].Exiting? && s.error.None? && earned != 0.0 then [(earned, ops[0].Now())] else [];
      GateCountsTheDay(s.engine, s.risk, lim, ops[1..], log + first, ops[0].Now());
      assert log + first + Results(s.engine, s.risk, lim, ops[1..])
          == log + (first + Results(s.engine, s.risk, lim, ops[1..]));
    }
  }

  /** An entry with a contract, a size, a lot size and a quote passes the gate
      after a timely run if and only if what the day's exits realized is above
      minus the loss limit, the lots and the premium are within theirs, and the
      premium fits under the exposure limit.  What passes is one MARKET BUY of
      that many lots at the quote, with the bracket; what does not changes nothing. */
  lemma EntryPassesExactly(capital: real, lim: Limits, ops: seq<OptionOp>, a: Entry, now: int, start: int)
    requires capital > 0.0 && ValidOptionOps(ops) && TimelyOptions(ops, start) && LastReading(ops, start) <= now
    requires a.symbol.Some? && 0 < a.lots <= a.maxLots && a.lotSize.Some? && a.quote.Some?
    ensures var (e0, r0) := (NewEngine(capital), OptionRisk(None, 0.0));
            var e := AfterAll(e0, r0, lim, ops);
            var s := OptionEntered(e, GateAfter(e0, r0, lim, ops), lim, a, now);
            var quantity := a.lots * a.lotSize.value;
            var premium := quantity as real * a.quote.value;
            var req := PaperOrderRequest(Key(NFO, a.symbol.value), Buy, Market, quantity, None, None, None, None,
                                         a.stopLoss, a.target);
            if && RealizedOn(Results(e0, r0, lim, ops), DayOf(now)) > -lim.maxDailyLoss
               && a.lots <= lim.maxLots && premium <= lim.maxPremium
               && Exposure(e.desk.book) + premium <= lim.maxExposure
            then
              if req.Valid() then s.engine == Apply(e, Place(req, a.quote.value, now))
              else s.engine == e && s.error == Some(ValidationFailed)
            else s.engine == e && s.error == Some(RiskLimitExceeded)
  {
    hide Placed, Apply, Exposure, RealizedOn, Results, GateAfter, AfterAll;
    var (e0, r0) := (NewEngine(capital), OptionRisk(None, 0.0));
    GateCountsTheDay(e0, r0, lim, ops, [], start);
    assert [] + Results(e0, r0, lim, ops) == Results(e0, r0, lim, ops);
    GateRolls(GateAfter(e0, r0, lim, ops), Results(e0, r0, lim, ops), LastReading(ops, start), now);
  }

  /** An exit that goes through takes its quantity, or without one everything,
      off what is open, on whichever side; only a cover that cannot be paid
      leaves it as it was. */
  lemma ExitTakesItsQuantity(e: Engine, r: OptionRisk, x: Exit, now: int)
    requires BookOk(e.desk.book) && KnownReservations(e.desk) && Current(e.desk.book, now)
    requires OptionLeft(e, r, x, now).error.None?
    ensures var (d, f, key) := (e.desk, OptionLeft(e, r, x, now).engine.desk, Key(NFO, x.symbol));
            var open := OpenQuantity(d.book, key);
            var taken := if x.quantity.Some? then x.quantity.value else if open > 0 then open else -open;
            && |f.orders| == |d.orders| + 1
            && OpenQuantity(f.book, key)
               == (if !f.orders[|d.orders|].status.Complete? then open
                   else if open > 0 then open - taken else open + taken)
            && (f.orders[|d.orders|].status.Complete?
                <==> open > 0 || taken as real * x.quote.value <= d.ledger.cash + EPSILON)
  {
    hide Placed, Apply, WithPnl, CanSnapshot, OpenQuantity, BookOk, Current, KnownReservations, Cost;
    var (key, open) := (Key(NFO, x.symbol), OpenQuantity(e.desk.book, Key(NFO, x.symbol)));
    var taken := x.quantity.GetOr(Magnitude(open));
    var side := if open > 0 then Sell else Buy;
    PlacingIsPlaced(e, MarketRequest(key, side, taken), x.quote.value, now);
    if x.quote.value <= 0.0 {
      NonPositivePrice(e.desk, MarketRequest(key, side, taken), x.quote.value, now);
    } else {
      OrderMovesOpen(e.desk, key, side, taken, x.quote.value, now);
      assert Cost(taken, x.quote.value) == taken as real * x.quote.value by { CostIsProduct(taken, x.quote.value); }
    }
  }

  lemma CostIsProduct(quantity: int, price: real)
    ensures Cost(quantity, price) == quantity as real * price
  {
  }

  /** A plain MARKET order moves what is open by its signed quantity, exactly if it can be paid. */
  lemma OrderMovesOpen(d: Desk, key: Key, side: Side, quantity: int, price: real, now: int)
    requires BookOk(d.book) && KnownReservations(d) && Current(d.book, now) && quantity > 0 && price > 0.0
    ensures var s := Placed(d, MarketRequest(key, side, quantity), price, now);
            && s.error.None? && |s.desk.orders| == |d.orders| + 1
            && (s.desk.orders[|d.orders|].status.Complete?
                <==> side.Sell? || Cost(quantity, price) <= d.ledger.cash + EPSILON)
            && OpenQuantity(s.desk.book, key)
               == OpenQuantity(d.book, key)
                  + (if s.desk.orders[|d.orders|].status.Complete? then side.Sign() * quantity else 0)
  {
    hide Placed, Filled, Cost, BookOk, Current, KnownReservations, Net, QueueAfter, ClosedBy, OpenQuantity, Value,
         TotalPnl, PnlOf;
    MarketOrderOutcome(d, key, side, quantity, price, now);
    FillIsOk(d.book, key, side, quantity, price, |d.orders|, now);
    LotsAreOk(d.book, key);
    FillMovesQueue(d.book.Lots(key), side, quantity, price, |d.orders|, now);
    OpenIsQueue(d.book, key);
    OpenIsQueue(Filled(d.book, key, side, quantity, price, |d.orders|, now).book, key);
  }

  lemma LotsAreOk(b: Book, key: Key)
    requires BookOk(b)
    ensures b.Lots(key) != [] ==> QueueOk(b.Lots(key))
  {
  }

  lemma OpenIsQueue(b: Book, key: Key)
    requires BookOk(b)
    ensures OpenQuantity(b, key) == Net(b.Lots(key))
  {
  }
}
