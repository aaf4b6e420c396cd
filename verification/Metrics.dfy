/** Performance figures of a completed replay. */
module Metrics {
  import opened Domain
  import opened Sums

  datatype TradeRecord = TradeRecord(side: Side, quantity: int, entryFill: real, exitFill: real,
                                     grossPnl: real, charges: real, slippageCost: real, netPnl: real)

  datatype EquityPoint = EquityPoint(at: int, equity: real, drawdown: real, drawdownPercent: real)

  datatype Summary = Summary(initialCapital: real, finalCapital: real, totalPnl: real, totalPnlPercent: real,
                             totalTrades: nat, winningTrades: nat, losingTrades: nat, winRate: real,
                             averageProfit: real, averageLoss: real, largestWin: real, largestLoss: real,
                             maxDrawdown: real, maxDrawdownPercent: real, profitFactor: Option<real>)

  function Nets(trades: seq<TradeRecord>): seq<real> {
    seq(|trades|, i requires 0 <= i < |trades| => trades[i].netPnl)
  }

  function Wins(nets: seq<real>): seq<real> {
    if nets == [] then [] else (if nets[0] > 0.0 then [nets[0]] else []) + Wins(nets[1..])
  }

  function Losses(nets: seq<real>): seq<real> {
    if nets == [] then [] else (if nets[0] < 0.0 then [nets[0]] else []) + Losses(nets[1..])
  }

  /** The largest of a list, or the default when there is none. */
  function Largest(s: seq<real>, default: real): (m: real)
    ensures s == [] ==> m == default
    ensures s != [] ==> m in s && forall i | 0 <= i < |s| :: s[i] <= m
  {
    if s == [] then default
    else if |s| == 1 then s[0]
    else
      var rest := Largest(s[1..], default);
      assert forall i | 0 < i < |s| :: s[i] == s[1..][i - 1];
      Max(s[0], rest)
  }

  function Negated(s: seq<real>): seq<real> { seq(|s|, i requires 0 <= i < |s| => -s[i]) }

  function Drawdowns(curve: seq<EquityPoint>): seq<real> {
    seq(|curve|, i requires 0 <= i < |curve| => curve[i].drawdown)
  }

  function FinalEquity(curve: seq<EquityPoint>, capital: real): real {
    if curve == [] then capital else curve[|curve| - 1].equity
  }

  function DrawdownPercents(curve: seq<EquityPoint>): seq<real> {
    seq(|curve|, i requires 0 <= i < |curve| => curve[i].drawdownPercent)
  }

  function Ratio(x: real, n: nat): real { if n == 0 then 0.0 else x / n as real }

  function Summarize(trades: seq<TradeRecord>, curve: seq<EquityPoint>, capital: real): Summary {
    var final := FinalEquity(curve, capital);
    var wins, losses := Wins(Nets(trades)), Losses(Nets(trades));
    var loss := Abs(SumOf(losses));
    Summary(capital, final, final - capital, if capital > 0.0 then (final - capital) / capital * 100.0 else 0.0,
            |trades|, |wins|, |losses|, Ratio(|wins| as real, |trades|) * 100.0,
            Ratio(SumOf(wins), |wins|), Ratio(SumOf(losses), |losses|),
            Largest(wins, 0.0), -Largest(Negated(losses), 0.0),
            Largest(Drawdowns(curve), 0.0), Largest(DrawdownPercents(curve), 0.0),
            if loss > 0.0 then Some(SumOf(wins) / loss) else None)
  }

  /** Wins are the positive and losses the negative results, together they are
      the net result of all trades, and no trade is both. */
  lemma {:induction false} WinsAndLossesAddUp(nets: seq<real>)
    ensures SumOf(Wins(nets)) + SumOf(Losses(nets)) == SumOf(nets)
    ensures |Wins(nets)| + |Losses(nets)| <= |nets|
    ensures forall x :: (x in Wins(nets) <==> x in nets && x > 0.0) && (x in Losses(nets) <==> x in nets && x < 0.0)
    ensures SumOf(Losses(nets)) <= 0.0 <= SumOf(Wins(nets))
    ensures (Losses(nets) != [] ==> SumOf(Losses(nets)) < 0.0) && (Wins(nets) != [] ==> SumOf(Wins(nets)) > 0.0)
  {
    if nets != [] {
      var win, loss := if nets[0] > 0.0 then [nets[0]] else [], if nets[0] < 0.0 then [nets[0]] else [];
      assert nets == [nets[0]] + nets[1..];
      WinsAndLossesAddUp(nets[1..]);
      SumOfAppend(win, Wins(nets[1..]));
      SumOfAppend(loss, Losses(nets[1..]));
    }
  }

  /** The summary's averages times its counts give the net result, and the profit
      factor, defined exactly when there are losses, relates their two parts. */
  lemma SummaryReconciles(trades: seq<TradeRecord>, curve: seq<EquityPoint>, capital: real)
    ensures var s, nets := Summarize(trades, curve, capital), Nets(trades);
            && s.winningTrades as real * s.averageProfit + s.losingTrades as real * s.averageLoss == SumOf(nets)
            && s.winningTrades + s.losingTrades <= s.totalTrades == |trades| && 0.0 <= s.winRate <= 100.0
            && s.winningTrades == |Wins(nets)| && s.losingTrades == |Losses(nets)|
            && s.averageLoss <= 0.0 <= s.averageProfit
            && (s.profitFactor.Some? <==> s.losingTrades > 0)
            && (s.profitFactor.Some? ==> s.profitFactor.value * -SumOf(Losses(nets)) == SumOf(Wins(nets)))
  {
    hide SumOf, Ratio, Largest, Wins, Losses;
    var nets := Nets(trades);
    var wins, losses := Wins(nets), Losses(nets);
    WinsAndLossesAddUp(nets);
    NoSum();
    RatioTimes(SumOf(wins), |wins|);
    RatioTimes(SumOf(losses), |losses|);
    RatioTimes(|wins| as real, |trades|);
    if losses != [] { QuotientTimes(SumOf(wins), -SumOf(losses)); }
  }

  /** The percentages are percentages: of all trades, and of the capital. */
  lemma PercentagesAreShares(trades: seq<TradeRecord>, curve: seq<EquityPoint>, capital: real)
    ensures var s := Summarize(trades, curve, capital);
            && s.winRate * s.totalTrades as real == 100.0 * s.winningTrades as real
            && s.initialCapital == capital && s.finalCapital == capital + s.totalPnl
            && (capital > 0.0 ==> s.totalPnlPercent * capital == 100.0 * s.totalPnl)
  {
    hide SumOf, Ratio, Largest, Wins, Losses;
    var wins, n: nat := |Wins(Nets(trades))|, |trades|;
    WinsAndLossesAddUp(Nets(trades));
    RatioTimes(wins as real, n);
    TimesHundred(Ratio(wins as real, n), n as real, wins as real);
    if capital > 0.0 {
      var total := FinalEquity(curve, capital) - capital;
      QuotientTimes(total, capital);
      TimesHundred(total / capital, capital, total);
    }
  }

  lemma TimesHundred(part: real, whole: real, x: real)
    requires whole * part == x
    ensures part * 100.0 * whole == 100.0 * x
  {
  }

  /** Each positive result is a win as often as it occurs, each negative one a loss, and nothing else is either. */
  lemma {:induction false} WinsAreCounted(nets: seq<real>)
    ensures forall x :: multiset(Wins(nets))[x] == if x > 0.0 then multiset(nets)[x] else 0
    ensures forall x :: multiset(Losses(nets))[x] == if x < 0.0 then multiset(nets)[x] else 0
  {
    if nets != [] {
      WinsAreCounted(nets[1..]);
      assert nets == [nets[0]] + nets[1..];
    }
  }

  /** Every trade's result lies between the largest loss and the largest win, and both are some trade's. */
  lemma ExtremesAreReached(trades: seq<TradeRecord>, curve: seq<EquityPoint>, capital: real)
    ensures var s, nets := Summarize(trades, curve, capital), Nets(trades);
            && s.largestLoss <= 0.0 <= s.largestWin
            && (forall x | x in nets :: s.largestLoss <= x <= s.largestWin)
            && (s.largestWin != 0.0 ==> s.largestWin in nets) && (s.largestLoss != 0.0 ==> s.largestLoss in nets)
  {
    hide SumOf, Ratio, Largest, Wins, Losses;
    var nets := Nets(trades);
    WinsAndLossesAddUp(nets);
    LargestOfNegated(Losses(nets));
  }

  lemma LargestOfNegated(s: seq<real>)
    ensures s == [] ==> Largest(Negated(s), 0.0) == 0.0
    ensures s != [] ==> -Largest(Negated(s), 0.0) in s
    ensures forall x | x in s :: -Largest(Negated(s), 0.0) <= x
  {
    hide Largest;
    var n := Negated(s);
    forall x | x in s ensures -x in n {
      var i :| 0 <= i < |s| && s[i] == x;
      assert n[i] == -x;
    }
  }

  lemma QuotientTimes(x: real, y: real)
    requires y != 0.0
    ensures x / y * y == x
  {
  }

  lemma NoSum()
    ensures SumOf([]) == 0.0
  {
  }

  lemma RatioTimes(x: real, n: nat)
    ensures n > 0 || x == 0.0 ==> n as real * Ratio(x, n) == x
    ensures x >= 0.0 ==> Ratio(x, n) >= 0.0
    ensures x <= 0.0 ==> Ratio(x, n) <= 0.0
    ensures 0.0 <= x <= n as real ==> Ratio(x, n) <= 1.0
  {
  }

  // ---------- Drawdown ----------

  /** The running peak: the largest of the capital and the equities so far. */
  function Peak(capital: real, equities: seq<real>): real {
    if equities == [] then capital
    else Max(Peak(capital, equities[..|equities| - 1]), equities[|equities| - 1])
  }

  function Equities(curve: seq<EquityPoint>): seq<real> {
    seq(|curve|, i requires 0 <= i < |curve| => curve[i].equity)
  }

  /** Each point's drawdown is its distance from the peak up to and including it. */
  predicate CurveOk(capital: real, curve: seq<EquityPoint>) {
    forall i | 0 <= i < |curve| :: Below(curve[i], Peak(capital, Equities(curve)[..i + 1]))
  }

  /** A point's fall from the peak so far. */
  predicate Below(p: EquityPoint, peak: real) {
    && p.drawdown == peak - p.equity
    && p.drawdownPercent == if peak > 0.0 then p.drawdown / peak * 100.0 else 0.0
  }

  function Fall(path: seq<real>, i: nat, j: nat): real
    requires i <= j < |path|
  {
    path[i] - path[j]
  }

  /** `fall` is the worst fall of a path: no earlier-to-later fall exceeds it, and one attains it. */
  predicate WorstFall(path: seq<real>, fall: real) {
    && (forall i: nat, j: nat | i <= j < |path| :: Fall(path, i, j) <= fall)
    && (exists i: nat, j: nat | i <= j < |path| :: Fall(path, i, j) == fall)
  }

  lemma {:induction false} PeakIsHighest(capital: real, equities: seq<real>)
    ensures var path, p := [capital] + equities, Peak(capital, equities);
            && (forall i | 0 <= i < |path| :: path[i] <= p)
            && (exists i | 0 <= i < |path| :: path[i] == p)
    decreases |equities|
  {
    var path := [capital] + equities;
    if equities == [] {
      assert path[0] == capital;
    } else {
      var n := |equities| - 1;
      var before := [capital] + equities[..n];
      PeakIsHighest(capital, equities[..n]);
      assert path == before + [equities[n]];
      var i :| 0 <= i < |before| && before[i] == Peak(capital, equities[..n]);
      assert path[i] == before[i] && path[n + 1] == equities[n];
    }
  }

  /** One pass over the running peak finds what comparing every earlier point
      with every later one finds: the reported maximum drawdown is the worst
      fall of the path that starts at the initial capital. */
  lemma MaxDrawdownIsWorstFall(trades: seq<TradeRecord>, curve: seq<EquityPoint>, capital: real)
    requires CurveOk(capital, curve)
    ensures WorstFall([capital] + Equities(curve), Summarize(trades, curve, capital).maxDrawdown)
  {
    var es := Equities(curve);
    var path := [capital] + es;
    var worst := Largest(Drawdowns(curve), 0.0);
    forall i: nat, j: nat | i <= j < |path| ensures Fall(path, i, j) <= worst {
      FallIsCovered(capital, curve, i, j);
    }
    if curve == [] {
      assert Fall(path, 0, 0) == worst;
    } else {
      var j: nat :| j < |curve| && Drawdowns(curve)[j] == worst;
      PeakIsHighest(capital, es[..j + 1]);
      var prefix := [capital] + es[..j + 1];
      var i: nat :| i < |prefix| && prefix[i] == Peak(capital, es[..j + 1]);
      assert path[i] == prefix[i] && path[j + 1] == curve[j].equity;
      assert Fall(path, i, j + 1) == worst;
    }
  }

  /** The reported maximum of the percentages is the largest fall as a share of the peak before it. */
  lemma MaxPercentIsReached(trades: seq<TradeRecord>, curve: seq<EquityPoint>, capital: real)
    requires CurveOk(capital, curve) && curve != []
    ensures var (most, peaks) := (Summarize(trades, curve, capital).maxDrawdownPercent, Equities(curve));
            && (forall i: nat | i < |curve| && Peak(capital, peaks[..i + 1]) > 0.0 ::
                  (Peak(capital, peaks[..i + 1]) - curve[i].equity) / Peak(capital, peaks[..i + 1]) * 100.0 <= most)
            && exists i: nat :: i < |curve| && curve[i].drawdownPercent == most
  {
    hide Peak, SumOf;
    var percents := DrawdownPercents(curve);
    forall i: nat | i < |curve| ensures percents[i] == curve[i].drawdownPercent && percents[i] in percents {
    }
    var i: nat :| i < |percents| && percents[i] == Largest(percents, 0.0);
    assert curve[i].drawdownPercent == percents[i];
  }

  lemma FallIsCovered(capital: real, curve: seq<EquityPoint>, i: nat, j: nat)
    requires CurveOk(capital, curve) && i <= j <= |curve|
    ensures var path := [capital] + Equities(curve);
            path[i] - path[j] <= Largest(Drawdowns(curve), 0.0)
  {
    var es := Equities(curve);
    var path := [capital] + es;
    if j > 0 {
      var prefix := [capital] + es[..j];
      PeakIsHighest(capital, es[..j]);
      assert prefix[i] == path[i];
      assert path[j] == curve[j - 1].equity;
      assert Drawdowns(curve)[j - 1] == curve[j - 1].drawdown;
    } else if curve != [] {
      PeakIsHighest(capital, es[..1]);
      assert es[..1] == [curve[0].equity];
      var prefix := [capital] + es[..1];
      assert prefix[1] == curve[0].equity;
      assert Drawdowns(curve)[0] == curve[0].drawdown;
    }
  }
}
