/** The automatic trading loop: one cycle exits what must be exited and then
    enters what may be entered, through the paper engine. */
module AutoTrading {
  import opened Domain
  import opened Lists
  import opened Calendar
  import opened Portfolios
  import opened OrderDesk
  import opened Engine
  import opened Conservation
  import opened Confluence
  import opened MarketOrders
  import opened AutoRisk

  datatype AutoSignal = AutoSignal(recommendation: Recommendation, confirmationCount: nat)

  datatype AutoPosition = AutoPosition(side: Side, quantity: int, entryPrice: real, stopLoss: real, targets: seq<real>,
                                       trailingAmount: Option<real>, bestPrice: real, entryOrder: nat, openedAt: int)

  datatype Reason = MarketClose | StopLoss | TargetHit | TrailingStopHit | SignalReversal

  function Ratcheted(p: AutoPosition, price: real): AutoPosition {
    p.(bestPrice := if p.side.Buy? then Max(p.bestPrice, price) else Min(p.bestPrice, price))
  }

  function SideOf(a: Action): Side { if a.BuyAction? then Buy else Sell }

  /** Why a position must be left at a price, the first reason in order; none to stay in. */
  function ExitReason(cfg: AutoConfig, p: AutoPosition, price: real, signal: Option<AutoSignal>, squareOff: bool)
    : Option<Reason>
  {
    var long := p.side.Buy?;
    if squareOff then Some(MarketClose)
    else if (if long then price <= p.stopLoss else price >= p.stopLoss) then Some(StopLoss)
    else if p.targets != [] && (if long then price >= p.targets[0] else price <= p.targets[0]) then Some(TargetHit)
    else if p.trailingAmount.Some? && long && p.bestPrice > p.entryPrice
            && price <= p.bestPrice - p.trailingAmount.value then Some(TrailingStopHit)
    else if p.trailingAmount.Some? && !long && p.bestPrice < p.entryPrice
            && price >= p.bestPrice + p.trailingAmount.value then Some(TrailingStopHit)
    else if signal.Some? && !signal.value.recommendation.action.Hold?
            && SideOf(signal.value.recommendation.action) != p.side
            && signal.value.recommendation.confidence >= cfg.confidenceThreshold then Some(SignalReversal)
    else None
  }

  /** The order placed between two states is complete. */
  predicate FillsNext(before: Engine, after: Engine) {
    var n := |before.desk.orders|;
    n < |after.desk.orders| && after.desk.orders[n].status.Complete?
  }

  function EntryOrder(key: Key, rec: Recommendation, quantity: int, now: int): Op
    requires rec.Valid() && !rec.action.Hold?
  {
    Place(MarketRequest(key, SideOf(rec.action), quantity), rec.entry.value, now)
  }

  function ExitOrder(key: Key, p: AutoPosition, price: real, now: int): Op {
    Place(MarketRequest(key, p.side.Opposite(), p.quantity), price, now)
  }

  /** What is remembered of an entry that order `id` made. */
  predicate PositionFor(p: AutoPosition, rec: Recommendation, quantity: int, orders: seq<Order>, id: nat, now: int)
    requires rec.Valid() && !rec.action.Hold?
  {
    && p.quantity == quantity && p.side == SideOf(rec.action) && p.stopLoss == rec.stop.value
    && p.targets == rec.targets && p.trailingAmount == Some(Abs(rec.entry.value - rec.stop.value))
    && p.entryOrder == id < |orders| && orders[id].averageFillPrice == Some(p.entryPrice)
    && p.bestPrice == p.entryPrice && p.openedAt == now
  }

  function SignalFor(signals: map<string, AutoSignal>, key: Key): Option<AutoSignal> {
    if key.symbol in signals then Some(signals[key.symbol]) else None
  }

  // ---------- The steps of a cycle ----------

  /** All that a step of a cycle can change; `tracked` is the order of the dictionary of positions. */
  datatype Loop = Loop(engine: Engine, risk: Risk, positions: map<Key, AutoPosition>, tracked: seq<Key>,
                       log: seq<Event>)

  /** Every condition of an entry but its size. */
  ghost predicate GateOpen(cfg: AutoConfig, a: Loop, key: Key, s: AutoSignal, now: int) {
    && !s.recommendation.action.Hold? && s.recommendation.confidence >= cfg.confidenceThreshold
    && s.confirmationCount >= cfg.minConfirmations && key !in a.engine.desk.book.positions
    && EntryAllowed(cfg, Rolled(a.risk, now), |a.positions|, now)
  }

  /** The shares an entry would buy or sell. */
  ghost function SizeOf(cfg: AutoConfig, a: Loop, r: Recommendation): int
    requires r.Valid() && !r.action.Hold?
  {
    SharesFor(a.engine.desk.ledger.Available(), cfg.capitalFraction, r.entry.value)
  }

  /** `b` differs from `a` at most in the day the gate counts for. */
  ghost predicate OnlyRolled(a: Loop, b: Loop, now: int) {
    b == a || b == a.(risk := Rolled(a.risk, now))
  }

  /** Placing an order raises. */
  predicate OrderRaises(e: Engine, op: Op)
    requires op.Place? && op.Valid()
  {
    Placed(e.desk, op.req, op.price, op.now).error.Some?
  }

  /** An entry order went out from `a` and led to `b`; only a completed one is tracked, counted and logged. */
  ghost predicate EntrySent(a: Loop, b: Loop, key: Key, rec: Recommendation, quantity: int, now: int, cycle: nat,
                            passed: bool)
    requires rec.Valid() && !rec.action.Hold? && quantity > 0
  {
    && b.engine == Apply(a.engine, EntryOrder(key, rec, quantity, now))
    && (passed <==> !OrderRaises(a.engine, EntryOrder(key, rec, quantity, now)))
    && (if passed && FillsNext(a.engine, b.engine) then
          && b.risk == AfterOpening(a.risk, now) && b.log == a.log + [Opened(key, now, cycle)]
          && key in b.positions && b.positions == a.positions[key := b.positions[key]]
          && b.tracked == Joined(a.tracked, key)
          && PositionFor(b.positions[key], rec, quantity, b.engine.desk.orders, |a.engine.desk.orders|, now)
        else b.log == a.log && b.positions == a.positions && b.tracked == a.tracked && b.risk == Rolled(a.risk, now))
  }

  /** What asking for one entry does; `passed` unless it raises. */
  ghost predicate EntryOk(cfg: AutoConfig, a: Loop, b: Loop, symbol: string, s: AutoSignal, now: int, cycle: nat,
                          passed: bool)
    requires s.recommendation.Valid()
  {
    var key, rec := Key(cfg.exchange, symbol), s.recommendation;
    if !GateOpen(cfg, a, key, s, now) then passed && OnlyRolled(a, b, now)
    else if !CanSnapshot(a.engine.desk.ledger) then !passed && OnlyRolled(a, b, now)
    else if SizeOf(cfg, a, rec) < 1 then passed && OnlyRolled(a, b, now)
    else EntrySent(a, b, key, rec, SizeOf(cfg, a, rec), now, cycle, passed)
  }

  /** An exit order went out from `a` and led to `b`; a rejected one leaves the position tracked. */
  ghost predicate ExitSent(cfg: AutoConfig, a: Loop, b: Loop, key: Key, price: real, now: int, cycle: nat,
                           passed: bool)
    requires key in a.positions && a.positions[key].quantity > 0
  {
    && b.engine == Apply(a.engine, ExitOrder(key, a.positions[key], price, now))
    && (passed <==> !OrderRaises(a.engine, ExitOrder(key, a.positions[key], price, now)))
    && (if passed && FillsNext(a.engine, b.engine) then
          var pnl := PnlSince(a.engine, b.engine);
          && b.positions == a.positions - {key} && b.tracked == Without(a.tracked, key)
          && b.risk == AfterClosing(cfg, a.risk, pnl, now)
          && b.log == a.log + [Closed(key, pnl, now, cycle)]
        else b == a.(engine := b.engine))
  }

  /** What looking at one tracked position does; `passed` unless it raises. */
  ghost predicate ExitOk(cfg: AutoConfig, a: Loop, b: Loop, key: Key, signal: Option<AutoSignal>,
                         quotes: map<Key, real>, squareOff: bool, now: int, cycle: nat, passed: bool)
    requires key in a.positions && a.positions[key].quantity > 0
  {
    var p := a.positions[key];
    if key !in a.engine.desk.book.positions then
      passed && b == a.(positions := a.positions - {key}, tracked := Without(a.tracked, key))
    else if key !in quotes then !passed && b == a
    else if ExitReason(cfg, p, quotes[key], signal, squareOff).None? then
      passed && b == a.(positions := a.positions[key := Ratcheted(p, quotes[key])])
    else ExitSent(cfg, a, b, key, quotes[key], now, cycle, passed)
  }

  ghost predicate ExitStep(cfg: AutoConfig, a: Loop, b: Loop, key: Key, signals: map<string, AutoSignal>,
                           quotes: map<Key, real>, now: int, cycle: nat, passed: bool)
  {
    && key in a.positions && a.positions[key].quantity > 0
    && ExitOk(cfg, a, b, key, SignalFor(signals, key), quotes, TimeOfDay(now) >= cfg.squareOffTime, now, cycle, passed)
  }

  ghost predicate EntryStep(cfg: AutoConfig, a: Loop, b: Loop, symbol: string, signals: map<string, AutoSignal>,
                            now: int, cycle: nat, passed: bool)
  {
    && symbol in signals && signals[symbol].recommendation.Valid()
    && EntryOk(cfg, a, b, symbol, signals[symbol], now, cycle, passed)
  }

  /** The steps of one pass: what each was about, and the states between them. */
  datatype Trace<X> = Trace(order: seq<X>, states: seq<Loop>) {
    ghost predicate Leads(a: Loop, b: Loop) {
      |states| == |order| + 1 && states[0] == a && states[|order|] == b
    }
  }

  /** The positions tracked at the start are looked at in order; an error ends the pass with the step that raised. */
  ghost predicate ExitsTraced(cfg: AutoConfig, t: Trace<Key>, a: Loop, b: Loop, signals: map<string, AutoSignal>,
                              quotes: map<Key, real>, now: int, cycle: nat, passed: bool)
  {
    && t.Leads(a, b) && t.order <= a.tracked && (if passed then t.order == a.tracked else t.order != [])
    && forall i | 0 <= i < |t.order| ::
         ExitStep(cfg, t.states[i], t.states[i + 1], t.order[i], signals, quotes, now, cycle,
                  passed || i < |t.order| - 1)
  }

  /** The signals that are due are asked in order; an error ends the pass with the step that raised. */
  ghost predicate EntriesTraced(cfg: AutoConfig, t: Trace<string>, a: Loop, b: Loop, signals: map<string, AutoSignal>,
                                due: seq<string>, now: int, cycle: nat, passed: bool)
  {
    && t.Leads(a, b) && t.order <= due && (if passed then t.order == due else t.order != [])
    && forall i | 0 <= i < |t.order| ::
         EntryStep(cfg, t.states[i], t.states[i + 1], t.order[i], signals, now, cycle, passed || i < |t.order| - 1)
  }

  /** The symbols of some events. */
  ghost function SymbolsOf(events: seq<Event>): set<string> { set e | e in events :: e.key.symbol }

  /** Since `was` the log has only grown, by events of this cycle. */
  predicate AllAtCycle(was: seq<Event>, log: seq<Event>, now: int, cycle: nat) {
    was <= log && forall i | |was| <= i < |log| :: log[i].at == now && log[i].cycle == cycle
  }

  /** Since `was` the log has only grown by this cycle's exits. */
  ghost predicate OnlyExits(was: seq<Event>, log: seq<Event>, now: int, cycle: nat) {
    && was <= log
    && forall i | |was| <= i < |log| :: log[i].Closed? && log[i].at == now && log[i].cycle == cycle
  }

  ghost predicate LeftSoFar(was: seq<Event>, log: seq<Event>, exited: set<string>, now: int, cycle: nat) {
    OnlyExits(was, log, now, cycle) && exited == SymbolsOf(log[|was|..])
  }

  /** A whole cycle: the exit pass, whether it passed, the state after it, and the entry pass. */
  datatype Cycle = Cycle(exits: Trace<Key>, passed: bool, mid: Loop, entries: Trace<string>)

  /** The exits come first; when one raises there are no entries, and what they left is not entered. */
  ghost predicate CycleTraced(cfg: AutoConfig, c: Cycle, a: Loop, b: Loop, signals: map<string, AutoSignal>,
                              order: seq<string>, quotes: map<Key, real>, now: int, cycle: nat, passed: bool)
  {
    && ExitsTraced(cfg, c.exits, a, c.mid, signals, quotes, now, cycle, c.passed)
    && OnlyExits(a.log, c.mid.log, now, cycle)
    && (if c.passed then
          EntriesTraced(cfg, c.entries, c.mid, b, signals, Kept(order, SymbolsOf(c.mid.log[|a.log|..])), now, cycle,
                        passed)
        else !passed && b == c.mid)
  }

  class AutoTradingOrchestrator {
    const config: AutoConfig
    const engine: PaperTradingEngine
    const risk: AutoRiskManager
    var positions: map<Key, AutoPosition>
    var tracked: seq<Key>
    var cycleCount: nat
    /** Everything entered and exited since the last start, and the clock. */
    ghost var log: seq<Event>
    ghost var clock: int

    ghost function Repr(): set<object> { engine.Repr() + {this, risk} }

    ghost predicate Wired()
      reads this, engine
    {
      engine.Valid() && risk.config == config && config.Valid()
    }

    /** Caps and counters, and nothing logged in a cycle yet to come. */
    ghost predicate Valid()
      reads this, engine, risk
    {
      && Wired()
      && ListsOnce(tracked, positions.Keys)
      && |positions| <= config.maxOpenPositions && (forall k | k in positions :: positions[k].quantity > 0)
      && CapsHold(config, log) && Tracks(config, risk.View(), log, clock)
      && (forall i | 0 <= i < |log| :: log[i].cycle <= cycleCount)
    }

    ghost function View(): Loop
      reads this, engine, engine.portfolio, engine.positions, engine.orders, risk
      requires engine.Valid()
    {
      Loop(engine.View(), risk.View(), positions, tracked, log)
    }

    /** In this cycle only instruments of `exited` have been left. */
    ghost predicate ExitsKnown(exited: set<string>)
      reads this
    {
      forall i | 0 <= i < |log| && log[i].Closed? && log[i].cycle == cycleCount :: log[i].key.symbol in exited
    }

    constructor (config: AutoConfig, engine: PaperTradingEngine, now: int)
      requires config.Valid() && engine.Valid()
      ensures Valid() && this.config == config && this.engine == engine && fresh(risk)
      ensures positions == map[] && log == []
    {
      this.config, this.engine := config, engine;
      risk := new AutoRiskManager(config);
      positions, tracked, cycleCount, log, clock := map[], [], 0, [], now;
    }

    /** A fresh start of the loop; positions are kept. */
    method Start(now: int)
      requires Valid()
      modifies this, risk
      ensures Valid() && log == [] && clock == now && cycleCount == 0
      ensures positions == old(positions) && tracked == old(tracked)
    {
      risk.Reset();
      cycleCount, log, clock := 0, [], now;
    }

    /** One cycle.  `signals` are the recommendations that could be generated,
        `quotes` the prices that can be fetched; a missing quote or a refused
        snapshot ends the cycle with an error, and even then every promise holds.
        The exits come first, and what they left is not entered again; `order` is
        the order in which the signals were generated. */
    method RunCycle(signals: map<string, AutoSignal>, order: seq<string>, quotes: map<Key, real>, now: int)
      returns (r: Outcome, ghost cycle: Cycle)
      requires Valid() && clock <= now && ListsOnce(order, signals.Keys)
      requires forall s | s in signals :: signals[s].recommendation.Valid()
      modifies Repr()
      ensures Valid() && clock == now && cycleCount == old(cycleCount) + 1
      ensures AllAtCycle(old(log), log, now, cycleCount)
      ensures CycleTraced(config, cycle, old(View()), View(), signals, order, quotes, now, cycleCount, r.Pass?)
    {
      hide CapsHold, Tracks, ExitsTraced, EntriesTraced, ListsOnce, Kept, SymbolsOf;
      ListedIsIn(order, signals.Keys);
      cycleCount := cycleCount + 1;
      Later(now);
      var left, exits := MonitorExits(signals, quotes, now);
      cycle := Cycle(exits, left.Ok?, View(), Trace([], []));
      if left.Err? { return Fail(left.error), cycle; }
      var entered, entries := EnterAll(signals, order, left.value, now);
      r, cycle := entered, cycle.(entries := entries);
    }

    /** The entry pass, in order, passing over what was just left. */
    method EnterAll(signals: map<string, AutoSignal>, order: seq<string>, exited: set<string>, now: int)
      returns (r: Outcome, ghost trace: Trace<string>)
      requires Valid() && clock == now && ExitsKnown(exited)
      requires forall s | s in order :: s in signals && signals[s].recommendation.Valid()
      modifies Repr()
      ensures Valid() && clock == now && ExitsKnown(exited) && cycleCount == old(cycleCount)
      ensures AllAtCycle(old(log), log, now, cycleCount)
      ensures EntriesTraced(config, trace, old(View()), View(), signals, Kept(order, exited), now, cycleCount, r.Pass?)
    {
      hide CapsHold, Tracks, ExitsKnown, EntriesTraced, Kept, AllAtCycle, ListsOnce;
      trace := Trace([], [View()]);
      EntriesStart(config, View(), signals, order, exited, now, cycleCount);
      for i := 0 to |order|
        invariant Valid() && clock == now && ExitsKnown(exited) && cycleCount == old(cycleCount)
        invariant AllAtCycle(old(log), log, now, cycleCount)
        invariant EntriesTraced(config, trace, old(View()), View(), signals, Kept(order[..i], exited), now, cycleCount,
                                true)
      {
        var asked, more := VisitSignal(i, signals, order, exited, now, old(View()), trace);
        trace := more;
        if asked.Fail? { return asked, trace; }
      }
      assert order[..|order|] == order;
      return Pass, trace;
    }

    /** One step of the entry pass. */
    method VisitSignal(i: nat, signals: map<string, AutoSignal>, order: seq<string>, exited: set<string>, now: int,
                       ghost start: Loop, ghost trace: Trace<string>)
      returns (r: Outcome, ghost more: Trace<string>)
      requires Valid() && clock == now && ExitsKnown(exited) && AllAtCycle(start.log, log, now, cycleCount)
      requires i < |order| && order[i] in signals && signals[order[i]].recommendation.Valid()
      requires EntriesTraced(config, trace, start, View(), signals, Kept(order[..i], exited), now, cycleCount, true)
      modifies Repr()
      ensures Valid() && clock == now && ExitsKnown(exited) && cycleCount == old(cycleCount)
      ensures AllAtCycle(start.log, log, now, cycleCount)
      ensures EntriesTraced(config, more, start, View(), signals,
                            Kept(if r.Pass? then order[..i + 1] else order, exited), now, cycleCount, r.Pass?)
    {
      hide CapsHold, Tracks, ExitsKnown, EntryOk, EntriesTraced, Kept, ListsOnce;
      r, more := Pass, trace;
      KeptOneMore(order, exited, i);
      if order[i] !in exited {
        ghost var before := View();
        r := MaybeEnter(order[i], signals[order[i]], exited, now);
        EntriesGrow(config, trace, start, before, View(), signals, order, exited, i, now, cycleCount, r.Pass?);
        more := Trace(trace.order + [order[i]], trace.states + [View()]);
      } else {
        assert Kept(order[..i], exited) + [] == Kept(order[..i], exited);
      }
    }

    /** The clock moves on. */
    ghost method Later(now: int)
      requires Valid() && clock <= now
      modifies this`clock
      ensures Valid() && clock == now
    {
      DaysAscend(clock, now);
      clock := now;
    }

    // ---------- Entries ----------

    method MaybeEnter(symbol: string, signal: AutoSignal, ghost exited: set<string>, now: int) returns (r: Outcome)
      requires Valid() && clock == now && signal.recommendation.Valid()
      requires symbol !in exited && ExitsKnown(exited)
      modifies Repr()
      ensures Valid() && clock == now && ExitsKnown(exited) && cycleCount == old(cycleCount)
      ensures EntryOk(config, old(View()), View(), symbol, signal, now, cycleCount, r.Pass?)
      ensures log == old(log) || log == old(log) + [Opened(Key(config.exchange, symbol), now, cycleCount)]
    {
      hide CapsHold, Tracks, Placed, EntryAllowed, PositionFor, FillsNext, Apply, CanSnapshot, ListsOnce, Joined,
           OrderRaises;
      var key := Key(config.exchange, symbol);
      var planned := PlanEntry(key, signal, now);
      if planned.Err? { return Fail(planned.error); }
      if planned.value.None? { return Pass; }
      r := OpenPosition(key, signal.recommendation, planned.value.value, exited, now);
    }

    /** The checks before an entry, in order, ending with the size it can afford. */
    method PlanEntry(key: Key, signal: AutoSignal, now: int) returns (r: Result<Option<int>>)
      requires Valid() && clock == now && signal.recommendation.Valid()
      modifies risk
      ensures Valid() && OnlyRolled(old(View()), View(), now)
      ensures if !GateOpen(config, old(View()), key, signal, now) then r == Ok(None)
              else
                && risk.View() == Rolled(old(risk.View()), now) && EntryAllowed(config, risk.View(), |positions|, now)
                && var size := SizeOf(config, old(View()), signal.recommendation);
                   if !CanSnapshot(engine.View().desk.ledger) then r.Err?
                   else r == Ok(if size < 1 then None else Some(size))
    {
      hide CapsHold, Tracks, ListsOnce;
      var rec := signal.recommendation;
      if rec.action.Hold? || rec.confidence < config.confidenceThreshold { return Ok(None); }
      if signal.confirmationCount < config.minConfirmations { return Ok(None); }
      if engine.GetPosition(key).Some? { return Ok(None); }
      RollingTracks(config, risk.View(), log, clock, now);
      var allowed := risk.CheckEntryAllowed(|positions|, now);
      if !allowed { return Ok(None); }
      var portfolio, keys, ps := engine.GetPortfolio(now);
      SnapshotNeedsOnlyTheLedger(engine.View().desk.ledger, ps, now);
      if portfolio.Err? { return Err(portfolio.error); }
      SnapshotShowsAvailable(engine.View().desk.ledger, ps, now);
      var quantity := SharesFor(portfolio.value.availableCash, config.capitalFraction, rec.entry.value);
      return Ok(if quantity < 1 then None else Some(quantity));
    }

    /** Send the entry order; only a completed one is tracked, counted and logged. */
    method OpenPosition(key: Key, rec: Recommendation, quantity: int, ghost exited: set<string>, now: int)
      returns (r: Outcome)
      requires Valid() && clock == now && rec.Valid() && !rec.action.Hold? && quantity > 0
      requires key.symbol !in exited && ExitsKnown(exited)
      requires risk.View().day == Some(DayOf(now)) && EntryAllowed(config, risk.View(), |positions|, now)
      modifies Repr()
      ensures Valid() && clock == now && ExitsKnown(exited) && cycleCount == old(cycleCount)
      ensures EntrySent(old(View()), View(), key, rec, quantity, now, cycleCount, r.Pass?)
      ensures log == old(log) || log == old(log) + [Opened(key, now, cycleCount)]
    {
      hide CapsHold, Tracks, Placed, EntryAllowed, DayOf, AfterOpening, ExitsKnown, ListsOnce, Joined,
           SideOf, Abs;
      var side := SideOf(rec.action);
      var placed := engine.PlaceOrder(MarketRequest(key, side, quantity), rec.entry.value, now);
      if placed.Err? { return Fail(placed.error); }
      var (id, order) := placed.value;
      if !order.status.Complete? { return Pass; }
      var fill := order.averageFillPrice.value;
      Track(key, AutoPosition(side, quantity, fill, rec.stop.value, rec.targets,
                              Some(Abs(rec.entry.value - rec.stop.value)), fill, id, now), exited, now);
      return Pass;
    }

    /** Track, count and log an entry. */
    method Track(key: Key, p: AutoPosition, ghost exited: set<string>, now: int)
      requires Valid() && clock == now && p.quantity > 0 && key.symbol !in exited && ExitsKnown(exited)
      requires risk.View().day == Some(DayOf(now)) && EntryAllowed(config, risk.View(), |positions|, now)
      modifies this`positions, this`tracked, this`log, risk
      ensures Valid() && ExitsKnown(exited) && tracked == Joined(old(tracked), key)
      ensures risk.View() == AfterOpening(old(risk.View()), now)
      ensures positions == old(positions)[key := p] && log == old(log) + [Opened(key, now, cycleCount)]
    {
      hide CapsHold, Tracks;
      OpeningKeepsCaps(config, risk.View(), log, |positions|, key, now, cycleCount);
      risk.RecordTradeOpened(now);
      log := log + [Opened(key, now, cycleCount)];
      OneMore(positions, key, p);
      positions, tracked := positions[key := p], if key in tracked then tracked else tracked + [key];
    }

    // ---------- Exits ----------

    /** The exit pass over all tracked positions; returns the symbols that were left. */
    method MonitorExits(signals: map<string, AutoSignal>, quotes: map<Key, real>, now: int)
      returns (r: Result<set<string>>, ghost trace: Trace<Key>)
      requires Valid() && clock == now && forall i | 0 <= i < |log| :: log[i].cycle < cycleCount
      modifies Repr()
      ensures Valid() && clock == now && cycleCount == old(cycleCount) && OnlyExits(old(log), log, now, cycleCount)
      ensures r.Ok? ==> ExitsKnown(r.value) && r.value == SymbolsOf(log[|old(log)|..])
      ensures ExitsTraced(config, trace, old(View()), View(), signals, quotes, now, cycleCount, r.Ok?)
    {
      hide CapsHold, Tracks, ExitsTraced, ExitsSoFar, LeftSoFar, OnlyExits, SymbolsOf, TimeOfDay;
      var squareOff := TimeOfDay(now) >= config.squareOffTime;
      var exited: set<string> := {};
      var keys := tracked;
      trace := Trace([], [View()]);
      ExitsStart(config, View(), signals, quotes, now, cycleCount);
      for i := 0 to |keys|
        invariant forall j | i <= j < |keys| :: keys[j] in positions
        invariant Valid() && clock == now && cycleCount == old(cycleCount) && |trace.order| == i
        invariant LeftSoFar(old(log), log, exited, now, cycleCount)
        invariant ExitsSoFar(config, trace, old(View()), View(), signals, quotes, now, cycleCount)
      {
        var left, more := VisitPosition(keys[i], signals, quotes, squareOff, exited, now, old(View()), trace);
        trace := more;
        if left.Err? { return Err(left.error), trace; }
        exited := left.value;
      }
      ExitsEnd(config, trace, old(View()), View(), signals, quotes, now, cycleCount);
      LeftIsKnown(old(log), log, exited, now, cycleCount);
      return Ok(exited), trace;
    }

    /** One step of the exit pass; `exited` are the symbols left so far. */
    method VisitPosition(key: Key, signals: map<string, AutoSignal>, quotes: map<Key, real>, squareOff: bool,
                         exited: set<string>, now: int, ghost start: Loop, ghost trace: Trace<Key>)
      returns (r: Result<set<string>>, ghost more: Trace<Key>)
      requires Valid() && clock == now && key in positions
      requires |trace.order| < |start.tracked| && key == start.tracked[|trace.order|]
      requires squareOff == (TimeOfDay(now) >= config.squareOffTime)
      requires LeftSoFar(start.log, log, exited, now, cycleCount)
      requires ExitsSoFar(config, trace, start, View(), signals, quotes, now, cycleCount)
      modifies Repr()
      ensures Valid() && clock == now && cycleCount == old(cycleCount) && old(positions).Keys - {key} <= positions.Keys
      ensures if r.Ok? then
                && LeftSoFar(start.log, log, r.value, now, cycleCount)
                && ExitsSoFar(config, more, start, View(), signals, quotes, now, cycleCount)
                && |more.order| == |trace.order| + 1
              else
                && OnlyExits(start.log, log, now, cycleCount)
                && ExitsTraced(config, more, start, View(), signals, quotes, now, cycleCount, false)
    {
      hide CapsHold, Tracks, ExitsTraced, ExitsSoFar, ExitOk, SymbolsOf, TimeOfDay, ListsOnce;
      ghost var before := View();
      var left := CheckPosition(key, SignalFor(signals, key), quotes, squareOff, now);
      ExitsGrow(config, trace, start, before, View(), signals, quotes, key, now, cycleCount, left.Ok?);
      more := Trace(trace.order + [key], trace.states + [View()]);
      if left.Err? { return Err(left.error), more; }
      if left.value { LeftGrows(start.log, before.log, exited, now, cycleCount, log[|before.log|]); }
      return Ok(if left.value then exited + {key.symbol} else exited), more;
    }

    /** One tracked position: forget it if it is gone, leave it if there is a
        reason to, else ratchet its best price.  Returns whether it was left. */
    method CheckPosition(key: Key, signal: Option<AutoSignal>, quotes: map<Key, real>, squareOff: bool, now: int)
      returns (r: Result<bool>)
      requires Valid() && clock == now && key in positions
      modifies Repr()
      ensures Valid() && clock == now && cycleCount == old(cycleCount)
      ensures old(positions)[key].quantity > 0
      ensures ExitOk(config, old(View()), View(), key, signal, quotes, squareOff, now, cycleCount, r.Ok?)
      ensures old(positions).Keys - {key} <= positions.Keys
      ensures if r == Ok(true) then
                |log| == |old(log)| + 1 && log == old(log) + [log[|old(log)|]] && log[|old(log)|].Closed?
                && log[|old(log)|].key == key && log[|old(log)|].at == now && log[|old(log)|].cycle == cycleCount
              else log == old(log)
    {
      hide CapsHold, Tracks, Placed, ExitReason, Apply, FillsNext, PnlSince, ListsOnce, Without, OrderRaises;
      var position := positions[key];
      if engine.GetPosition(key).None? {
        Forget(key);
        return Ok(false);
      }
      if key !in quotes { return Err(QuoteUnavailable); }
      var price := quotes[key];
      if ExitReason(config, position, price, signal, squareOff).Some? {
        r := ExitPosition(key, price, now);
      } else {
        Keep(key, Ratcheted(position, price));
        return Ok(false);
      }
    }

    /** Rewrite a tracked position. */
    method Keep(key: Key, p: AutoPosition)
      requires Valid() && key in positions && p.quantity > 0
      modifies this`positions
      ensures Valid() && positions == old(positions)[key := p]
    {
      hide CapsHold, Tracks, ListsOnce;
      OneMore(positions, key, p);
      assert positions[key := p].Keys == positions.Keys;
      positions := positions[key := p];
    }

    /** Stop tracking a position. */
    method Forget(key: Key)
      requires Valid() && key in positions
      modifies this`positions, this`tracked
      ensures Valid() && positions == old(positions) - {key} && tracked == Without(old(tracked), key)
    {
      WithoutIsDistinct(tracked, key);
      assert positions - {key} == map k | k in positions && k != key :: positions[k];
      assert (positions - {key}).Keys == positions.Keys - {key};
      positions, tracked := positions - {key}, Without(tracked, key);
    }

    /** Leave a position at a price; a rejected exit leaves it tracked. */
    method ExitPosition(key: Key, price: real, now: int) returns (r: Result<bool>)
      requires Valid() && clock == now && key in positions
      modifies Repr()
      ensures Valid() && clock == now && cycleCount == old(cycleCount)
      ensures old(positions)[key].quantity > 0
      ensures ExitSent(config, old(View()), View(), key, price, now, cycleCount, r.Ok?)
      ensures r == Ok(true) <==> r.Ok? && FillsNext(old(engine.View()), engine.View())
    {
      hide CapsHold, Tracks, Placed, ListsOnce, Without;
      var p := positions[key];
      ghost var was := engine.View();
      var before := |engine.tradeHistory|;
      var placed :- engine.PlaceOrder(MarketRequest(key, p.side.Opposite(), p.quantity), price, now);
      if !placed.1.status.Complete? { return Ok(false); }
      var pnl := PnlOf(engine.tradeHistory[before..]);
      assert pnl == PnlSince(was, engine.View());
      Untrack(key, pnl, now);
      return Ok(true);
    }

    /** Book and log an exit, and stop tracking the position. */
    method Untrack(key: Key, pnl: real, now: int)
      requires Valid() && clock == now && key in positions
      modifies this`positions, this`tracked, this`log, risk
      ensures tracked == Without(old(tracked), key)
      ensures Valid() && risk.View() == AfterClosing(config, old(risk.View()), pnl, now)
      ensures positions == old(positions) - {key} && log == old(log) + [Closed(key, pnl, now, cycleCount)]
    {
      hide CapsHold, Tracks, ListsOnce, Without;
      ClosingKeepsCaps(config, risk.View(), log, key, pnl, clock, now, cycleCount);
      risk.RecordTradeClosed(pnl, now);
      log := log + [Closed(key, pnl, now, cycleCount)];
      Forget(key);
    }
  }

  /** The exit pass so far, all steps passed. */
  ghost predicate ExitsSoFar(cfg: AutoConfig, t: Trace<Key>, a: Loop, b: Loop, signals: map<string, AutoSignal>,
                             quotes: map<Key, real>, now: int, cycle: nat)
  {
    && t.Leads(a, b) && t.order <= a.tracked
    && forall i | 0 <= i < |t.order| ::
         ExitStep(cfg, t.states[i], t.states[i + 1], t.order[i], signals, quotes, now, cycle, true)
  }

  lemma ExitsStart(cfg: AutoConfig, a: Loop, signals: map<string, AutoSignal>, quotes: map<Key, real>, now: int,
                   cycle: nat)
    ensures ExitsSoFar(cfg, Trace([], [a]), a, a, signals, quotes, now, cycle)
    ensures LeftSoFar(a.log, a.log, {}, now, cycle)
  {
  }

  lemma ExitsGrow(cfg: AutoConfig, t: Trace<Key>, a: Loop, b: Loop, c: Loop, signals: map<string, AutoSignal>,
                  quotes: map<Key, real>, key: Key, now: int, cycle: nat, passed: bool)
    requires ExitsSoFar(cfg, t, a, b, signals, quotes, now, cycle)
    requires |t.order| < |a.tracked| && key == a.tracked[|t.order|]
    requires ExitStep(cfg, b, c, key, signals, quotes, now, cycle, passed)
    ensures var more := Trace(t.order + [key], t.states + [c]);
            && (passed ==> ExitsSoFar(cfg, more, a, c, signals, quotes, now, cycle))
            && (!passed ==> ExitsTraced(cfg, more, a, c, signals, quotes, now, cycle, false))
  {
    hide ExitStep;
    var n, order, states := |t.order|, t.order + [key], t.states + [c];
    forall i | 0 <= i <= n
      ensures ExitStep(cfg, states[i], states[i + 1], order[i], signals, quotes, now, cycle, passed || i < n)
    {
      if i < n { assert states[i] == t.states[i] && states[i + 1] == t.states[i + 1]; }
    }
  }

  lemma ExitsEnd(cfg: AutoConfig, t: Trace<Key>, a: Loop, b: Loop, signals: map<string, AutoSignal>,
                 quotes: map<Key, real>, now: int, cycle: nat)
    requires ExitsSoFar(cfg, t, a, b, signals, quotes, now, cycle) && |t.order| == |a.tracked|
    ensures ExitsTraced(cfg, t, a, b, signals, quotes, now, cycle, true)
  {
    hide ExitStep;
  }

  lemma EntriesStart(cfg: AutoConfig, a: Loop, signals: map<string, AutoSignal>, order: seq<string>,
                     exited: set<string>, now: int, cycle: nat)
    ensures EntriesTraced(cfg, Trace([], [a]), a, a, signals, Kept(order[..0], exited), now, cycle, true)
    ensures AllAtCycle(a.log, a.log, now, cycle)
  {
  }

  lemma EntriesGrow(cfg: AutoConfig, t: Trace<string>, a: Loop, b: Loop, c: Loop, signals: map<string, AutoSignal>,
                    order: seq<string>, exited: set<string>, i: nat, now: int, cycle: nat, passed: bool)
    requires i < |order| && order[i] !in exited
    requires EntriesTraced(cfg, t, a, b, signals, Kept(order[..i], exited), now, cycle, true)
    requires EntryStep(cfg, b, c, order[i], signals, now, cycle, passed)
    ensures EntriesTraced(cfg, Trace(t.order + [order[i]], t.states + [c]), a, c, signals,
                          Kept(if passed then order[..i + 1] else order, exited), now, cycle, passed)
  {
    hide EntryStep, Kept;
    KeptOneMore(order, exited, i);
    KeptIsPrefix(order, exited, i + 1);
    var n, more, states := |t.order|, t.order + [order[i]], t.states + [c];
    forall i | 0 <= i <= n
      ensures EntryStep(cfg, states[i], states[i + 1], more[i], signals, now, cycle, passed || i < n)
    {
      if i < n { assert states[i] == t.states[i] && states[i + 1] == t.states[i + 1]; }
    }
  }

  lemma LeftGrows(was: seq<Event>, log: seq<Event>, exited: set<string>, now: int, cycle: nat, e: Event)
    requires LeftSoFar(was, log, exited, now, cycle) && e.Closed? && e.at == now && e.cycle == cycle
    ensures LeftSoFar(was, log + [e], exited + {e.key.symbol}, now, cycle)
  {
    assert (log + [e])[|was|..] == log[|was|..] + [e];
  }

  /** What was left in this pass is what was left in this cycle. */
  lemma LeftIsKnown(was: seq<Event>, log: seq<Event>, exited: set<string>, now: int, cycle: nat)
    requires LeftSoFar(was, log, exited, now, cycle) && forall i | 0 <= i < |was| :: was[i].cycle < cycle
    ensures OnlyExits(was, log, now, cycle) && exited == SymbolsOf(log[|was|..])
    ensures forall i | 0 <= i < |log| && log[i].Closed? && log[i].cycle == cycle :: log[i].key.symbol in exited
  {
    forall i | 0 <= i < |was| ensures log[i].cycle < cycle {
      assert log[i] == was[i];
    }
    forall i | |was| <= i < |log| ensures log[i].key.symbol in SymbolsOf(log[|was|..]) {
      assert log[i] == log[|was|..][i - |was|];
    }
  }

  lemma OneMore<K, V>(m: map<K, V>, k: K, v: V)
    ensures |m[k := v]| <= |m| + 1
    ensures k in m ==> |m[k := v]| == |m|
  {
    assert m[k := v].Keys == m.Keys + {k};
    if k in m { assert m[k := v].Keys == m.Keys; }
  }

  lemma SnapshotShowsAvailable(l: Ledger, ps: seq<PaperPosition>, now: int)
    requires Snapshot(l, ps, now).Ok?
    ensures Snapshot(l, ps, now).value.availableCash == l.Available()
  {
  }

  // ---------- What the steps do, read off signals and log ----------

  /** Asking for an entry sends an order if and only if the signal is BUY or SELL,
      confident and confirmed enough, the instrument is free, the log leaves
      room (see `AllowedExactly`), the account can be read and the cash fraction
      pays for a share: a plain MARKET order on the signal's side at its entry,
      for as many shares as that pays for.  Otherwise nothing is traded. */
  lemma EntryFollowsRecommendation(cfg: AutoConfig, a: Loop, b: Loop, symbol: string, s: AutoSignal, t: int, now: int,
                                   cycle: nat, passed: bool)
    requires s.recommendation.Valid() && EntryOk(cfg, a, b, symbol, s, now, cycle, passed)
    requires Tracks(cfg, a.risk, a.log, t) && t <= now
    ensures var (rec, l, key) := (s.recommendation, a.engine.desk.ledger, Key(cfg.exchange, symbol));
            var asked :=
              && rec.action != Hold && rec.confidence >= cfg.confidenceThreshold
              && s.confirmationCount >= cfg.minConfirmations && key !in a.engine.desk.book.positions
              && |a.positions| < cfg.maxOpenPositions && OpensOn(a.log, DayOf(now)) < cfg.maxDailyTrades
              && PnlOn(a.log, DayOf(now)) > -cfg.maxDailyLoss
              && (forall i: nat | i < |a.log| && Penalty(cfg, a.log, i) :: now >= a.log[i].at + cfg.cooldown)
              && CanSnapshot(l) && SharesFor(l.cash - l.reserved, cfg.capitalFraction, rec.entry.value) >= 1;
            if !asked then b.engine == a.engine && b.log == a.log && b.positions == a.positions
            else
              var side := if rec.action == BuyAction then Buy else Sell;
              var quantity := SharesFor(l.cash - l.reserved, cfg.capitalFraction, rec.entry.value);
              && b.engine == Apply(a.engine, Place(MarketRequest(key, side, quantity), rec.entry.value, now))
              && (b.log != a.log ==>
                    && b.log == a.log + [Opened(key, now, cycle)]
                    && key in b.positions && b.positions - {key} == a.positions - {key}
                    && var p := b.positions[key];
                       && p.side == side && p.quantity == quantity && p.bestPrice == p.entryPrice
                       && p.entryOrder == |a.engine.desk.orders| < |b.engine.desk.orders|
                       && b.engine.desk.orders[p.entryOrder].averageFillPrice == Some(p.entryPrice)
                       && p.stopLoss == rec.stop.value && p.targets == rec.targets
                       && p.trailingAmount == Some(Abs(rec.entry.value - rec.stop.value))
                       && Coherent(side == Buy, rec.entry.value, p.stopLoss, p.targets))
  {
    hide Apply, OpensOn, PnlOn, Penalty, DayOf, SharesFor, Penalized, Earned, Tracks, EntryAllowed, EntrySent, Coherent,
         PositionFor, EntryOrder;
    AllowedExactly(cfg, a.risk, a.log, |a.positions|, t, now);
    if GateOpen(cfg, a, Key(cfg.exchange, symbol), s, now) && CanSnapshot(a.engine.desk.ledger)
       && SizeOf(cfg, a, s.recommendation) >= 1 {
      SentFollows(a, b, Key(cfg.exchange, symbol), s.recommendation, SizeOf(cfg, a, s.recommendation), now, cycle,
                  passed);
    }
  }

  lemma SentFollows(a: Loop, b: Loop, key: Key, rec: Recommendation, quantity: int, now: int, cycle: nat, passed: bool)
    requires rec.Valid() && !rec.action.Hold? && quantity > 0
    requires EntrySent(a, b, key, rec, quantity, now, cycle, passed)
    ensures var side := if rec.action == BuyAction then Buy else Sell;
            && b.engine == Apply(a.engine, Place(MarketRequest(key, side, quantity), rec.entry.value, now))
            && (b.log != a.log ==>
                  && b.log == a.log + [Opened(key, now, cycle)]
                  && key in b.positions && b.positions - {key} == a.positions - {key}
                  && var p := b.positions[key];
                     && p.side == side && p.quantity == quantity && p.bestPrice == p.entryPrice
                     && p.entryOrder == |a.engine.desk.orders| < |b.engine.desk.orders|
                     && b.engine.desk.orders[p.entryOrder].averageFillPrice == Some(p.entryPrice)
                     && p.stopLoss == rec.stop.value && p.targets == rec.targets
                     && p.trailingAmount == Some(Abs(rec.entry.value - rec.stop.value))
                     && Coherent(side == Buy, rec.entry.value, p.stopLoss, p.targets))
  {
    hide Apply, Coherent, AfterOpening, Rolled, OrderRaises;
  }

  /** Best prices follow: never worse than before or than the price, and one of the two. */
  lemma RatchetFollows(p: AutoPosition, price: real)
    ensures var q := Ratcheted(p, price);
            && q == p.(bestPrice := q.bestPrice) && (q.bestPrice == p.bestPrice || q.bestPrice == price)
            && if p.side.Buy? then q.bestPrice >= p.bestPrice && q.bestPrice >= price
               else q.bestPrice <= p.bestPrice && q.bestPrice <= price
  {
  }
}
