/** Replays of three candles that cover, fail at or forget the same short. */
module ForgottenShort {
  import opened Domain
  import opened Portfolios
  import opened Positions
  import opened OrderDesk
  import opened Engine
  import opened Clock
  import opened MarketOrders
  import opened Confluence
  import opened Metrics
  import opened Replay

  const HOLD: Recommendation := Recommendation(Hold, 0.0, None, None, [], None, 0, 1)

  /** A short sold at 100 with all the account's 100, and a last candle at `last`. */
  function Squeeze(last: real): Session {
    Session(Key(NSE, "S"), 100.0, [Candle(100.0, 100.0, 0), Candle(100.0, 100.0, 1), Candle(last, last, 2)],
            [Recommendation(SellAction, 90.0, Some(100.0), Some(110.0), [90.0], None, 1, 1), HOLD, HOLD],
            50.0, 1.0, CostModel(0.0, (p: real, q: int, s: Side) => 0.0))
  }

  /** The one short of that replay. */
  function Squeezed(order: nat): ReplayPosition {
    ReplayPosition(Sell, 1, 100.0, 100.0, 0.0, 110.0, [90.0], Some(10.0), 100.0, order, 1)
  }

  /** The journal of a replay that forgets: nothing, the short, and a cover that
      is rejected.  The engine keeps the short. */
  lemma SqueezeRuns(last: real) returns (js: seq<Moment>)
    requires last > 200.0 + EPSILON
    ensures |js| == 3 && Squeeze(last).JournalOk(js) && JournalKnown(100.0, js) && js[2].Forgets()
    ensures js[2].end.desk.book.Lots(Squeeze(last).key) != []
  {
    hide Consistent, Apply, Session.MomentOk, MomentKnown, SumGross;
    var s := Squeeze(last);
    var e0 := NewEngine(100.0);
    StartIsConsistent(e0, s.key, 100.0, 0);
    var first := SqueezeWaits(last, e0);
    var second := SqueezeSellsAt(last, first.end);
    var third := SqueezeForgetsAt(last, second.end, second.atClose.value);
    js := [first, second, third];
    forall i: nat | i < 3 ensures KnownAt(100.0, js, i) {
      NoneTraded(js, i);
    }
  }

  lemma SqueezeWaits(last: real, e: Engine) returns (m: Moment)
    requires Consistent(e, Squeeze(last).key, 100.0, None, [], 0, 0)
    ensures m.start == e && Squeeze(last).MomentOk(0, None, m) && MomentKnown(100.0, None, m)
    ensures m.trade.None? && m.atClose.None? && Consistent(m.end, Squeeze(last).key, 100.0, None, [], 0, 1)
  {
    hide Apply, Consistent;
    var s := Squeeze(last);
    var f := Apply(e, Price(s.key, 100.0, 0));
    m := Moment(e, None, e, None, None, e, f);
    CashIsKnown(e, s, None, [], 0);
    MarkingIsConsistent(e, s.key, 100.0, None, [], 0, 100.0, 0, 0);
    ConsistentLater(f, s.key, 100.0, None, [], 0, 0, 1);
  }

  lemma PlacingApplies(e: Engine, req: PaperOrderRequest, price: real, now: int)
    requires req.Valid()
    ensures Apply(e, Place(req, price, now)).desk == Placed(e.desk, req, price, now).desk
  {
    hide Placed;
  }

  lemma SqueezeOpens(last: real, e: Engine)
    requires Consistent(e, Squeeze(last).key, 100.0, None, [], 0, 1)
    ensures Consistent(Apply(e, Place(MarketRequest(Squeeze(last).key, Sell, 1), 100.0, 1)), Squeeze(last).key, 100.0,
                       Some(Squeezed(|e.desk.orders|)), [], 0, 1)
  {
    hide Apply, OneInstrument, Current, Placed;
    PlacingApplies(e, MarketRequest(Squeeze(last).key, Sell, 1), 100.0, 1);
    OpeningIsConsistent(e, Squeeze(last).key, 100.0, [], 0, Sell, 1, 100.0, 1);
  }

  lemma SqueezeTerms(last: real, l: Ledger)
    requires l.cash == 100.0 && l.reserved == 0.0
    ensures var s := Squeeze(last);
            && s.Scheduled(1, None) == Some(Pending(Sell, 100.0, 110.0, [90.0]))
            && Slipped(100.0, Sell, s.cost) == 100.0 && Enough(l, Sell, 100.0, 1.0)
            && SharesFor(l.Available(), 1.0, 100.0) == 1
            && EntryOrder(s.key, l, Sell, 100.0, 1.0, 1) == Some(Place(MarketRequest(s.key, Sell, 1), 100.0, 1))
            && EntryOf(Squeezed(0), Pending(Sell, 100.0, 110.0, [90.0]), 100.0, s.cost, 1)
  {
  }

  lemma SqueezeSellsAt(last: real, e: Engine) returns (m: Moment)
    requires Consistent(e, Squeeze(last).key, 100.0, None, [], 0, 1)
    ensures m.start == e && Squeeze(last).MomentOk(1, None, m) && MomentKnown(100.0, None, m)
    ensures m.trade == None && m.atClose == Some(Squeezed(|e.desk.orders|))
    ensures Consistent(m.end, Squeeze(last).key, 100.0, m.atClose, [], 0, 2)
  {
    hide Apply, Consistent, Slipped, Enough, SharesFor, EntryOrder, Session.Scheduled, SumGross;
    var s := Squeeze(last);
    var p := Squeezed(|e.desk.orders|);
    SqueezeOpens(last, e);
    var f := Apply(e, Place(MarketRequest(s.key, Sell, 1), 100.0, 1));
    var g := Apply(f, Price(s.key, 100.0, 1));
    m := Moment(e, Some(p), f, Some(p), None, f, g);
    CashIsKnown(e, s, None, [], 1);
    CashIsKnown(f, s, Some(p), [], 1);
    MarkingIsConsistent(f, s.key, 100.0, Some(p), [], 0, 100.0, 1, 1);
    ConsistentLater(g, s.key, 100.0, Some(p), [], 0, 1, 2);
    NoneTraded([], 0);
    SqueezeTerms(last, e.desk.ledger);
  }

  lemma SqueezeForgetsAt(last: real, e: Engine, p: ReplayPosition) returns (m: Moment)
    requires last > 200.0 + EPSILON
    requires Consistent(e, Squeeze(last).key, 100.0, Some(p), [], 0, 2) && p == Squeezed(p.entryOrder)
    ensures m.start == e && Squeeze(last).MomentOk(2, Some(p), m) && MomentKnown(100.0, Some(p), m) && m.Forgets()
    ensures m.end.desk.book.Lots(Squeeze(last).key) != []
  {
    hide Apply, Consistent;
    var s := Squeeze(last);
    var f := Apply(e, ExitOrder(s.key, p, last, 2));
    m := Moment(e, Some(p), e, None, None, f, Apply(f, Price(s.key, last, 2)));
    CashIsKnown(e, s, Some(p), [], 2);
    SqueezeKeepsLot(last, e, p);
    assert Slipped(last, Buy, s.cost) == last;
  }

  lemma SqueezeKeepsLot(last: real, e: Engine, p: ReplayPosition)
    requires last > 200.0 + EPSILON
    requires Consistent(e, Squeeze(last).key, 100.0, Some(p), [], 0, 2) && p == Squeezed(p.entryOrder)
    ensures var f := Apply(e, ExitOrder(Squeeze(last).key, p, last, 2));
            Apply(f, Price(Squeeze(last).key, last, 2)).desk.book.Lots(Squeeze(last).key) != []
  {
    hide Apply, OneInstrument, Current, Placed, Filled;
    var key := Squeeze(last).key;
    var f := Apply(e, ExitOrder(key, p, last, 2));
    PlacingApplies(e, MarketRequest(key, Buy, 1), last, 2);
    CashIsKnown(e, Squeeze(last), Some(p), [], 2);
    KnownWhenOne(e.desk, key, 100.0);
    MarketOrderOutcome(e.desk, key, Buy, 1, last, 2);
    ClosingIsConsistent(e, key, 100.0, p, [], 0, last, 2);
    PriceOnlyMarks(f, key, 100.0, last, 2);
  }

  /** That replay returns unless covering at `last` spends slack, and then it
      has forgotten its short exactly when covering takes more than the slack. */
  method ReplaySqueeze(last: real)
    returns (r: Result<(seq<TradeRecord>, seq<EquityPoint>)>, engine: PaperTradingEngine, ghost journal: seq<Moment>)
    requires last > 0.0
    ensures r.Err? <==> 200.0 < last <= 200.0 + EPSILON
    ensures |journal| <= 3 && Squeeze(last).JournalOk(journal) && JournalKnown(100.0, journal)
    ensures r.Ok? ==> |journal| == 3 && (journal[2].Forgets() <==> last > 200.0 + EPSILON)
    ensures last > 200.0 + EPSILON ==> r.Ok? && r.value.0 == []
  {
    hide Session.JournalOk, JournalKnown, Session.SlackSpent;
    r, engine, journal := RunReplay(Squeeze(last));
    SqueezeSpends(last, journal);
  }

  /** What any journal of that replay says, whole or cut short. */
  lemma SqueezeSpends(last: real, js: seq<Moment>)
    requires last > 0.0 && |js| <= 3 && Squeeze(last).JournalOk(js) && JournalKnown(100.0, js)
    ensures Squeeze(last).SlackSpent(js) <==> |js| == 3 && 200.0 < last <= 200.0 + EPSILON
    ensures |js| == 3 ==> (js[2].Forgets() <==> last > 200.0 + EPSILON)
    ensures last > 200.0 + EPSILON ==> TradesIn(js) == []
  {
    hide Session.JournalOk, JournalKnown, Overdraws, TradesIn, SumGross;
    if js != [] { SqueezeSells(last, js); }
    if |js| == 3 { SqueezeEnds(last, js); }
    if last > 200.0 + EPSILON {
      NoneTraded(js, |js|);
      assert js[..|js|] == js;
    }
  }

  lemma SqueezeEnds(last: real, js: seq<Moment>)
    requires last > 0.0 && |js| == 3 && Squeeze(last).JournalOk(js) && JournalKnown(100.0, js)
    ensures Squeeze(last).SpendsSlack(2, js[2]) <==> 200.0 < last <= 200.0 + EPSILON
    ensures js[2].Forgets() <==> last > 200.0 + EPSILON
  {
    hide Session.JournalOk, JournalKnown, Overdraws, TradesIn, SumGross, Excess;
    SqueezeSells(last, js);
    SqueezeExcess(last, js);
    ForgottenExactlyWhenRuined(Squeeze(last), js, |js| - 1);
  }

  lemma SqueezeSells(last: real, js: seq<Moment>)
    requires last > 0.0 && 0 < |js| <= 3 && Squeeze(last).JournalOk(js) && JournalKnown(100.0, js)
    ensures js[0].atClose == None && js[0].trade == None && !js[0].Forgets()
    ensures |js| > 1 ==>
              && js[1].trade == None && js[1].atClose.Some?
              && var p := js[1].atClose.value; p.side.Sell? && p.quantity == 1 && p.entryFill == 100.0
  {
    hide Apply, Sent, EntryOrder, SumGross;
    var s := Squeeze(last);
    assert s.MomentOk(0, None, js[0]);
    if |js| > 1 {
      assert s.MomentOk(1, None, js[1]);
      assert KnownAt(100.0, js, 1);
      assert AllCovered(js[..1]);
      assert WorthAt(100.0, js, 1) == 100.0 by { NoneTraded(js, 1); }
      assert s.Scheduled(1, None) == Some(Pending(Sell, 100.0, 110.0, [90.0]));
      assert Slipped(100.0, Sell, s.cost) == 100.0;
      assert SharesFor(100.0, 1.0, 100.0) == 1;
    }
  }

  lemma NoneTraded(js: seq<Moment>, i: nat)
    requires i <= |js| && forall j | 0 <= j < i :: js[j].trade == None
    ensures TradesIn(js[..i]) == [] && SumGross(TradesIn(js[..i])) == 0.0
  {
    if i > 0 {
      NoneTraded(js, i - 1);
      assert js[..i][..i - 1] == js[..i - 1];
      assert TradesIn(js[..i]) == TradesIn(js[..i - 1]);
    } else {
      assert js[..i] == [];
    }
  }

  lemma SqueezeExcess(last: real, js: seq<Moment>)
    requires last > 0.0 && |js| == 3 && Squeeze(last).JournalOk(js) && JournalKnown(100.0, js)
    ensures Excess(Squeeze(last), js, 2) == last - 200.0
  {
    hide Apply, Sent, EntryOrder, SumGross;
    var s := Squeeze(last);
    SqueezeSells(last, js);
    NoneTraded(js, 2);
    assert s.MomentOk(2, js[1].atClose, js[2]);
    assert Cost(1, last) == last && Cost(1, 100.0) == 100.0;
  }
}
