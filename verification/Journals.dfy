/** What any journal of a replay says, read off its signals and candles: when it
    enters and on which side, what it remembers of the best price, when it
    leaves, and at what prices. */
module Journals {
  import opened Domain
  import opened Sums
  import opened Engine
  import opened MarketOrders
  import opened Confluence
  import opened Metrics
  import opened Replay

  // ---------- Prices and sizes ----------

  /** Slippage works against the trader: a BUY pays its part more, a SELL gets its part less. */
  lemma SlippageIsAdverse(price: real, side: Side, cost: CostModel)
    requires price > 0.0 && cost.slippagePercent >= 0.0
    ensures Slipped(price, side, cost)
         == price * (if side.Buy? then 1.0 + cost.slippagePercent / 100.0 else 1.0 - cost.slippagePercent / 100.0)
    ensures Slipped(price, Sell, cost) <= price <= Slipped(price, Buy, cost)
  {
    var part := cost.slippagePercent / 100.0;
    assert price * part >= 0.0;
    assert price * (1.0 + part) == price + price * part;
    assert price * (1.0 - part) == price - price * part;
  }

  /** The size is the largest number of whole shares that the fraction pays for: less than a share's price is left. */
  lemma SizeIsLargest(available: real, fraction: real, price: real)
    requires price > 0.0
    ensures var q := SharesFor(available, fraction, price);
            0.0 <= available * fraction - Cost(q, price) < price
  {
    QuotientTimes(available * fraction, price);
    var x := available * fraction / price;
    WholeParts(x, x.Floor, price);
  }

  lemma WholeParts(x: real, q: int, price: real)
    requires price > 0.0 && q as real <= x < q as real + 1.0
    ensures 0.0 <= x * price - Cost(q, price) < price
  {
    Scales(x, q as real, price);
    Exceeds(x * price - Cost(q, price), x, q as real, price);
  }

  lemma Exceeds(rest: real, x: real, w: real, price: real)
    requires price > 0.0 && x < w + 1.0 && rest == x * price - w * price
    ensures rest < price
  {
    ProductIsPositive(1.0 - (x - w), price);
    var gap := (1.0 - (x - w)) * price;
    assert gap > 0.0;
    assert rest == price - gap;
  }

  lemma Scales(x: real, y: real, price: real)
    requires price > 0.0 && x >= y
    ensures x * price - y * price >= 0.0
  {
    if x > y {
      ProductIsPositive(x - y, price);
      var gap := (x - y) * price;
      assert gap == x * price - y * price;
    }
  }

  // ---------- Entries ----------

  /** The close of candle `i` asks for an entry. */
  predicate Asks(s: Session, i: int)
    requires |s.candles| == |s.signals|
  {
    && 0 <= i < |s.signals|
    && var signal := s.signals[i];
       signal.action != Hold && signal.confidence >= s.threshold && signal.entry.Some? && signal.stop.Some?
  }

  /** At candle `i` the signal before it is entered on its side: by a plain MARKET
      order at the slipped open for as many shares as the fraction pays for, and
      what is tracked of it carries the signal's stop, targets and price. */
  ghost predicate EntersOn(s: Session, i: nat, signal: Recommendation, m: Moment)
    requires i < |s.candles| && signal.entry.Some? && signal.stop.Some?
  {
    var side := if signal.action == BuyAction then Buy else Sell;
    var price := Slipped(s.candles[i].open, side, s.cost);
    && price != 0.0
    && var q := SharesFor(m.start.desk.ledger.cash - m.start.desk.ledger.reserved, s.fraction, price);
       && (q < 1 ==> m.mid == m.start && m.atOpen.None?)
       && (q >= 1 ==> m.mid == Apply(m.start, Place(MarketRequest(s.key, side, q), price, s.candles[i].at)))
       && (m.atOpen.Some? ==>
             var p := m.atOpen.value;
             && p.side == side && p.quantity == q && p.entryFill == p.bestPrice == price
             && p.entrySignal == signal.entry.value && p.stopLoss == signal.stop.value && p.targets == signal.targets
             && p.trailingAmount == Some(Abs(signal.entry.value - signal.stop.value))
             && p.entryTime == s.candles[i].at && p.entryCharges == s.cost.charges(price, q, side))
  }

  /** A journal enters exactly as the signals say.  Candle `i` sends an order if
      and only if the replay was flat, the close before asked for an entry, and
      the cash fraction pays for a share.  A position that appears is long
      exactly for a BUY and short exactly for a SELL; one that was there is kept. */
  lemma EntryFollowsSignal(s: Session, js: seq<Moment>, i: nat)
    requires i < |js| <= |s.candles| == |s.signals| && s.JournalOk(js)
    ensures var (before, m) := (Before(js, i), js[i]);
            if before.Some? || !Asks(s, i - 1) then m.mid == m.start && m.atOpen == before
            else EntersOn(s, i, s.signals[i - 1], m)
    ensures Before(js, i).None? && js[i].atOpen.Some? ==>
              && Asks(s, i - 1)
              && (js[i].atOpen.value.side == Buy <==> s.signals[i - 1].action == BuyAction)
              && (js[i].atOpen.value.side == Sell <==> s.signals[i - 1].action == SellAction)
  {
    hide Apply, ManagedOk, Slipped, SharesFor, EntersOn, Session.OpenedOk;
    assert s.MomentOk(i, Before(js, i), js[i]);
    OpeningFollowsSignal(s, i, Before(js, i), js[i]);
  }

  lemma OpeningFollowsSignal(s: Session, i: nat, before: Option<ReplayPosition>, m: Moment)
    requires i < |s.candles| == |s.signals| && s.OpenedOk(i, before, m)
    ensures before.Some? || !Asks(s, i - 1) ==> m.mid == m.start && m.atOpen == before
    ensures before.None? && Asks(s, i - 1) ==> EntersOn(s, i, s.signals[i - 1], m)
    ensures before.None? && m.atOpen.Some? ==>
              Asks(s, i - 1) && m.atOpen.value.side == if s.signals[i - 1].action == BuyAction then Buy else Sell
  {
    hide Apply, Slipped, SharesFor;
  }

  /** For a valid recommendation the plan lies right: the stop on the losing side
      of the signal's price, every target on the winning side. */
  lemma EnteredPlanIsCoherent(s: Session, js: seq<Moment>, i: nat)
    requires i < |js| <= |s.candles| == |s.signals| && s.JournalOk(js)
    requires Before(js, i).None? && js[i].atOpen.Some? && s.signals[i - 1].Valid()
    ensures var p := js[i].atOpen.value;
            if p.side.Buy? then p.stopLoss < p.entrySignal && forall t | t in p.targets :: t > p.entrySignal
            else p.stopLoss > p.entrySignal && forall t | t in p.targets :: t < p.entrySignal
  {
    hide Apply, Slipped, SharesFor, Session.JournalOk;
    EntryFollowsSignal(s, js, i);
  }

  // ---------- Exits ----------

  /** One price gains more than another exactly when it lies further on the position's side. */
  lemma GainOrders(p: ReplayPosition, x: real, y: real)
    requires p.quantity > 0
    ensures Gain(p, x) <= Gain(p, y) <==> if p.side.Buy? then x <= y else x >= y
    ensures Gain(p, x) - Gain(p, y) == Cost(p.quantity, if p.side.Buy? then x - y else y - x)
  {
    var (gx, gy) := (Gain(p, x), Gain(p, y));
    var ahead := if p.side.Buy? then x - y else y - x;
    CostDiffers(p.quantity, if p.side.Buy? then x - p.entryFill else p.entryFill - x,
                if p.side.Buy? then y - p.entryFill else p.entryFill - y);
    CostSigns(p.quantity, ahead);
  }

  lemma CostDiffers(quantity: int, x: real, y: real)
    ensures Cost(quantity, x) - Cost(quantity, y) == Cost(quantity, x - y)
  {
  }

  lemma CostSigns(quantity: int, x: real)
    requires quantity > 0
    ensures (x > 0.0 ==> Cost(quantity, x) > 0.0) && (x < 0.0 ==> Cost(quantity, x) < 0.0)
    ensures x == 0.0 ==> Cost(quantity, x) == 0.0
  {
    if x > 0.0 { ProductIsPositive(quantity as real, x); }
    if x < 0.0 {
      ProductIsPositive(quantity as real, -x);
      assert quantity as real * -x == -(quantity as real * x);
    }
  }

  /** When a position is left, in terms of what it gains at the price and on
      either side alike: at its stop or worse, at its first target or better,
      when after a gain it has given back its trailing distance, or when a
      confident signal asks for the other side; the first of these, the session's
      end before all. */
  lemma LeavesByGain(p: ReplayPosition, price: real, action: Action, confidence: real, threshold: real, isFinal: bool)
    requires p.quantity > 0
    ensures var r, gain := ExitReason(p, price, action, confidence, threshold, isFinal), Gain(p, price);
            var stopped := gain <= Gain(p, p.stopLoss);
            var reached := p.targets != [] && gain >= Gain(p, p.targets[0]);
            var gaveBack := p.trailingAmount.Some? && Gain(p, p.bestPrice) > 0.0
                            && Gain(p, p.bestPrice) - gain >= Cost(p.quantity, p.trailingAmount.value);
            var reversed := action == (if p.side.Buy? then SellAction else BuyAction) && confidence >= threshold;
            && (r == Some(SessionEnd) <==> isFinal)
            && (r == Some(StopLoss) <==> !isFinal && stopped)
            && (r == Some(TargetHit) <==> !isFinal && !stopped && reached)
            && (r == Some(TrailingStopHit) <==> !isFinal && !stopped && !reached && gaveBack)
            && (r == Some(SignalReversal) <==> !isFinal && !stopped && !reached && !gaveBack && reversed)
            && (r == None <==> !isFinal && !stopped && !reached && !gaveBack && !reversed)
  {
    hide Gain, Cost;
    GainOrders(p, price, p.stopLoss);
    if p.targets != [] { GainOrders(p, p.targets[0], price); }
    if p.trailingAmount.Some? { GivesBack(p, price); }
  }

  lemma GivesBack(p: ReplayPosition, price: real)
    requires p.quantity > 0 && p.trailingAmount.Some?
    ensures Gain(p, p.bestPrice) > 0.0
            <==> if p.side.Buy? then p.bestPrice > p.entryFill else p.bestPrice < p.entryFill
    ensures Gain(p, p.bestPrice) - Gain(p, price) >= Cost(p.quantity, p.trailingAmount.value)
            <==> if p.side.Buy? then price <= p.bestPrice - p.trailingAmount.value
                 else price >= p.bestPrice + p.trailingAmount.value
  {
    hide Gain, Cost;
    NoGain(p);
    GainOrders(p, p.bestPrice, p.entryFill);
    GainOrders(p, p.bestPrice, price);
    var ahead := if p.side.Buy? then p.bestPrice - price else price - p.bestPrice;
    CostDiffers(p.quantity, ahead, p.trailingAmount.value);
    CostSigns(p.quantity, ahead - p.trailingAmount.value);
  }

  lemma NoGain(p: ReplayPosition)
    ensures Gain(p, p.entryFill) == 0.0
  {
  }

  // ---------- The best price ----------

  /** From its entry at candle `j` until after candle `i` the position was kept. */
  predicate HeldFrom(js: seq<Moment>, j: nat, i: nat)
    requires j <= i < |js|
  {
    Before(js, j).None? && forall k | j <= k <= i :: js[k].atOpen.Some? && js[k].atClose.Some?
  }

  /** While a position is held only its best price changes, and that is the one,
      of its fill and the closes since, at which it gained the most. */
  lemma {:induction false} HeldRemembersItsBest(s: Session, js: seq<Moment>, j: nat, i: nat)
    requires j <= i < |js| <= |s.candles| == |s.signals| && s.JournalOk(js) && HeldFrom(js, j, i)
    ensures var (p, q) := (js[j].atOpen.value, js[i].atClose.value);
            && q == p.(bestPrice := q.bestPrice)
            && (q.bestPrice == p.bestPrice || exists k :: j <= k <= i && q.bestPrice == s.candles[k].close)
            && Better(p.side, q.bestPrice, p.bestPrice)
            && forall k | j <= k <= i :: Better(p.side, q.bestPrice, s.candles[k].close)
    decreases i - j
  {
    hide ExitReason, RecordOf, Apply, Slipped, Session.JournalOk;
    KeptIsRatcheted(s, js, i);
    if i > j {
      HeldRemembersItsBest(s, js, j, i - 1);
    }
  }

  /** `x` is no worse for a position on `side` than `y`. */
  predicate Better(side: Side, x: real, y: real) { if side.Buy? then x >= y else x <= y }

  lemma KeptIsRatcheted(s: Session, js: seq<Moment>, i: nat)
    requires i < |js| <= |s.candles| == |s.signals| && s.JournalOk(js)
    requires js[i].atOpen.Some? && js[i].atClose.Some?
    ensures var (p, q, close) := (js[i].atOpen.value, js[i].atClose.value, s.candles[i].close);
            && q == p.(bestPrice := q.bestPrice) && (q.bestPrice == p.bestPrice || q.bestPrice == close)
            && Better(p.side, q.bestPrice, p.bestPrice) && Better(p.side, q.bestPrice, close)
    ensures Before(js, i).Some? ==> js[i].atOpen == Before(js, i)
  {
    hide ExitReason, RecordOf, Apply, Slipped;
    assert s.MomentOk(i, Before(js, i), js[i]);
  }

  // ---------- Records ----------

  /** A position that is left is left whole: by the next open, or on the last
      candle by its close, slipped against the trader.  Its record, if the order
      was paid, has the two fills, both fills' charges, and as net result what
      the order's trades earned less those charges. */
  lemma RecordsTellTheExit(s: Session, js: seq<Moment>, i: nat)
    requires i < |js| <= |s.candles| == |s.signals| && s.JournalOk(js) && js[i].trade.Some?
    ensures js[i].atOpen.Some? && js[i].atClose.None?
    ensures var (p, t) := (js[i].atOpen.value, js[i].trade.value);
            var last := i == |s.candles| - 1;
            var side := if p.side == Buy then Sell else Buy;
            var price := Slipped(if last then s.candles[i].close else s.candles[i + 1].open, side, s.cost);
            && t.side == p.side && t.quantity == p.quantity && t.entryFill == p.entryFill && t.exitFill == price
            && js[i].left == Apply(js[i].mid, Place(MarketRequest(s.key, side, p.quantity), price,
                                                    if last then s.candles[i].at else s.candles[i + 1].at))
            && t.grossPnl == PnlSince(js[i].mid, js[i].left)
            && t.charges == p.entryCharges + s.cost.charges(price, p.quantity, side)
            && t.netPnl == t.grossPnl - t.charges
            && t.slippageCost == Cost(p.quantity, Abs(p.entryFill - p.entrySignal) + Abs(price - s.candles[i].close))
  {
    hide ExitReason, Apply, Slipped, PnlSince;
    assert s.MomentOk(i, Before(js, i), js[i]);
  }

  // ---------- The summary ----------

  /** The results that the summary counts are the records' net results. */
  lemma {:induction false} NetsAddUp(trades: seq<TradeRecord>)
    ensures SumOf(Nets(trades)) == SumNet(trades)
  {
    if trades != [] {
      var n := |trades| - 1;
      NetsAddUp(trades[..n]);
      var last := trades[n].netPnl;
      assert Nets(trades) == Nets(trades[..n]) + [last];
      SumOfAppend(Nets(trades[..n]), [last]);
      assert [last][1..] == [] && SumOf([last]) == last + SumOf([]);
    }
  }

  /** The summary of a replay that forgot nothing: the total profit is what the
      winners and the losers earned on average, and what was paid in charges. */
  lemma SummaryOfReplay(trades: seq<TradeRecord>, curve: seq<EquityPoint>, capital: real)
    requires FinalEquity(curve, capital) - capital == SumGross(trades) == SumNet(trades) + SumCharges(trades)
    ensures var s := Summarize(trades, curve, capital);
            s.totalPnl == s.winningTrades as real * s.averageProfit + s.losingTrades as real * s.averageLoss
                          + SumCharges(trades)
  {
    hide SumOf, SumGross, SumNet, SumCharges, Nets;
    NetsAddUp(trades);
    SummaryReconciles(trades, curve, capital);
  }

  // ---------- The live loop ----------

  /** A live position, as the replay would hold it. */
  function Replayed(p: AutoTrading.AutoPosition): ReplayPosition {
    ReplayPosition(p.side, p.quantity, p.entryPrice, p.entryPrice, 0.0, p.stopLoss, p.targets, p.trailingAmount,
                   p.bestPrice, p.entryOrder, p.openedAt)
  }

  /** What a live position gains at a price calls for leaving it, or a signal does, or the square-off. */
  predicate CallsForExit(cfg: AutoRisk.AutoConfig, p: AutoTrading.AutoPosition, price: real,
                         signal: Option<AutoTrading.AutoSignal>, squareOff: bool)
  {
    var r := Replayed(p);
    var gain := Gain(r, price);
    || squareOff || gain <= Gain(r, p.stopLoss) || (p.targets != [] && gain >= Gain(r, p.targets[0]))
    || (p.trailingAmount.Some? && Gain(r, p.bestPrice) > 0.0
        && Gain(r, p.bestPrice) - gain >= Cost(p.quantity, p.trailingAmount.value))
    || (signal.Some? && signal.value.recommendation.action == (if p.side.Buy? then SellAction else BuyAction)
        && signal.value.recommendation.confidence >= cfg.confidenceThreshold)
  }

  lemma LiveLeavesByGain(cfg: AutoRisk.AutoConfig, p: AutoTrading.AutoPosition, price: real,
                         signal: Option<AutoTrading.AutoSignal>, squareOff: bool)
    requires p.quantity > 0
    ensures AutoTrading.ExitReason(cfg, p, price, signal, squareOff).Some?
            <==> CallsForExit(cfg, p, price, signal, squareOff)
  {
    hide Gain, Cost;
    var r := Replayed(p);
    GainOrders(r, price, p.stopLoss);
    if p.targets != [] { GainOrders(r, p.targets[0], price); }
    if p.trailingAmount.Some? { GivesBack(r, price); }
  }

  /** One look at a tracked position that the engine still has and that has a
      quote: it is left, by a MARKET order for its whole size on the other side,
      if and only if its gain, a signal or the square-off calls for it, and
      otherwise stays, nothing traded, its best price following the quote. */
  lemma ExitFollowsGain(cfg: AutoRisk.AutoConfig, a: AutoTrading.Loop, b: AutoTrading.Loop, key: Key,
                        signal: Option<AutoTrading.AutoSignal>, quotes: map<Key, real>, squareOff: bool, now: int,
                        cycle: nat, passed: bool)
    requires key in a.positions && a.positions[key].quantity > 0
    requires key in a.engine.desk.book.positions && key in quotes
    requires AutoTrading.ExitOk(cfg, a, b, key, signal, quotes, squareOff, now, cycle, passed)
    ensures var (p, price) := (a.positions[key], quotes[key]);
            if CallsForExit(cfg, p, price, signal, squareOff) then
              b.engine == Apply(a.engine, Place(MarketRequest(key, if p.side == Buy then Sell else Buy, p.quantity),
                                                price, now))
            else
              && b.engine == a.engine && b.log == a.log && b.positions.Keys == a.positions.Keys
              && b.positions - {key} == a.positions - {key}
              && var q := b.positions[key];
                 && q == p.(bestPrice := q.bestPrice) && (q.bestPrice == p.bestPrice || q.bestPrice == price)
                 && Better(p.side, q.bestPrice, p.bestPrice) && Better(p.side, q.bestPrice, price)
  {
    hide Apply, CallsForExit, AutoTrading.Ratcheted;
    AutoTrading.RatchetFollows(a.positions[key], quotes[key]);
    LiveLeavesByGain(cfg, a.positions[key], quotes[key], signal, squareOff);
  }
}
