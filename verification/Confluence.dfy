/** Merging strategy votes and averaging their plans into one recommendation. */
module Confluence {
  import opened Domain
  import opened Sums

  datatype Direction = Bullish | Bearish | Neutral {
    function Flipped(): Direction { match this case Bullish => Bearish case Bearish => Bullish case Neutral => Neutral }
  }

  predicate Ascending(s: seq<real>) { forall i | 0 < i < |s| :: s[i - 1] <= s[i] }

  predicate Descending(s: seq<real>) { forall i | 0 < i < |s| :: s[i - 1] >= s[i] }

  /** A trade plan with stop, entry and ordered targets on the right sides. */
  predicate Coherent(long: bool, entry: real, stop: real, targets: seq<real>) {
    if long then stop < entry && (forall i | 0 <= i < |targets| :: targets[i] > entry) && Ascending(targets)
    else stop > entry && (forall i | 0 <= i < |targets| :: targets[i] < entry) && Descending(targets)
  }

  datatype StrategySignal = StrategySignal(name: string, direction: Direction, entry: Option<real>, stop: Option<real>,
                                           targets: seq<real>, confidence: real)
  {
    predicate Valid() {
      && PositiveIfSet(entry) && PositiveIfSet(stop) && 0.0 <= confidence <= 100.0 && name != ""
      && (!direction.Neutral? ==>
            entry.Some? && stop.Some? && Coherent(direction.Bullish?, entry.value, stop.value, targets))
    }
  }

  datatype ConfluenceResult = ConfluenceResult(direction: Direction, agreeing: seq<string>, conflicting: seq<string>,
                                               confirmationCount: nat, confidence: real, signals: seq<StrategySignal>)

  datatype Action = BuyAction | SellAction | Hold

  datatype Recommendation = Recommendation(action: Action, confidence: real, entry: Option<real>, stop: Option<real>,
                                           targets: seq<real>, riskReward: Option<real>, confirmationCount: nat,
                                           strategyCount: nat)
  {
    predicate Valid() {
      && 0.0 <= confidence <= 100.0 && strategyCount > 0 && PositiveIfSet(entry) && PositiveIfSet(stop)
      && (riskReward.Some? ==> riskReward.value >= 0.0)
      && (!action.Hold? ==>
            entry.Some? && stop.Some? && Coherent(action.BuyAction?, entry.value, stop.value, targets))
    }
  }

  // ---------- Merging ----------

  function Voting(signals: seq<StrategySignal>, d: Direction): seq<StrategySignal> {
    if signals == [] then []
    else (if signals[0].direction == d then [signals[0]] else []) + Voting(signals[1..], d)
  }

  function Names(signals: seq<StrategySignal>): (ns: seq<string>)
    ensures |ns| == |signals| && forall i | 0 <= i < |ns| :: ns[i] == signals[i].name
  {
    seq(|signals|, i requires 0 <= i < |signals| => signals[i].name)
  }

  function Confidences(signals: seq<StrategySignal>): seq<real> {
    seq(|signals|, i requires 0 <= i < |signals| => signals[i].confidence)
  }

  function Mean(s: seq<real>): real
    requires s != []
  {
    SumOf(s) / |s| as real
  }

  function Merged(signals: seq<StrategySignal>): ConfluenceResult {
    var bullish, bearish := Voting(signals, Bullish), Voting(signals, Bearish);
    var direction := if |bullish| > |bearish| && bullish != [] then Bullish
                     else if |bearish| > |bullish| && bearish != [] then Bearish else Neutral;
    var agreeing := if direction.Neutral? then [] else Voting(signals, direction);
    var conflicting :=
      if direction.Bullish? then bearish else if direction.Bearish? then bullish else bullish + bearish;
    var confidence := if agreeing != [] then Mean(Confidences(agreeing)) else 0.0;
    ConfluenceResult(direction, Names(agreeing), Names(conflicting), |agreeing|, confidence, signals)
  }

  function Flip(s: StrategySignal): StrategySignal { s.(direction := s.direction.Flipped()) }

  function FlipAll(signals: seq<StrategySignal>): seq<StrategySignal> {
    if signals == [] then [] else [Flip(signals[0])] + FlipAll(signals[1..])
  }

  lemma {:induction false} FlippedOneByOne(signals: seq<StrategySignal>)
    ensures |FlipAll(signals)| == |signals|
    ensures forall i | 0 <= i < |signals| :: FlipAll(signals)[i] == Flip(signals[i])
  {
    if signals != [] { FlippedOneByOne(signals[1..]); }
  }

  lemma FlippedTexts(signals: seq<StrategySignal>)
    ensures |FlipAll(signals)| == |signals| && Names(FlipAll(signals)) == Names(signals)
    ensures Confidences(FlipAll(signals)) == Confidences(signals)
  {
    FlippedOneByOne(signals);
  }

  lemma {:induction false} FlippedVotes(signals: seq<StrategySignal>, d: Direction)
    ensures Voting(FlipAll(signals), d.Flipped()) == FlipAll(Voting(signals, d))
  {
    if signals != [] {
      var s, rest := signals[0], signals[1..];
      FlippedVotes(rest, d);
      assert FlipAll(signals)[1..] == FlipAll(rest);
      assert Flip(s).direction == d.Flipped() <==> s.direction == d;
      if s.direction == d {
        assert ([s] + Voting(rest, d))[1..] == Voting(rest, d);
      } else {
        assert [] + Voting(rest, d) == Voting(rest, d);
      }
    }
  }

  /** Swapping BULLISH and BEARISH votes swaps the merged direction and nothing else. */
  lemma MergingIsSymmetric(signals: seq<StrategySignal>)
    ensures var m, f := Merged(signals), Merged(FlipAll(signals));
            && f.direction == m.direction.Flipped() && f.agreeing == m.agreeing
            && f.confirmationCount == m.confirmationCount && f.confidence == m.confidence
            && (!m.direction.Neutral? ==> f.conflicting == m.conflicting)
  {
    hide Names, Confidences, Voting, FlipAll, Mean;
    FlippedVotes(signals, Bullish);
    FlippedVotes(signals, Bearish);
    FlippedTexts(Voting(signals, Bullish));
    FlippedTexts(Voting(signals, Bearish));
    assert Bullish.Flipped() == Bearish && Bearish.Flipped() == Bullish;
  }

  /** The places of the votes for a direction. */
  function Supporters(signals: seq<StrategySignal>, d: Direction): set<nat> {
    set i: nat | i < |signals| && signals[i].direction == d
  }

  lemma {:induction false} VotesAreCounted(signals: seq<StrategySignal>, d: Direction)
    ensures |Voting(signals, d)| == |Supporters(signals, d)|
    decreases |signals|
  {
    if signals != [] {
      var n: nat := |signals| - 1;
      var init := signals[..n];
      VotesAreCounted(init, d);
      VotesOfLast(init, signals[n], d);
      assert signals == init + [signals[n]];
      if signals[n].direction == d {
        assert Supporters(signals, d) == Supporters(init, d) + {n};
      } else {
        assert Supporters(signals, d) == Supporters(init, d);
      }
    }
  }

  lemma {:induction false} VotesOfLast(signals: seq<StrategySignal>, s: StrategySignal, d: Direction)
    ensures Voting(signals + [s], d) == Voting(signals, d) + if s.direction == d then [s] else []
  {
    var more, last := signals + [s], if s.direction == d then [s] else [];
    if signals == [] {
      assert more == [s] && [s][1..] == [];
      assert Voting([s], d) == last + Voting([], d) == last;
    } else {
      var first, rest := if signals[0].direction == d then [signals[0]] else [], signals[1..];
      assert more[0] == signals[0] && more[1..] == rest + [s];
      VotesOfLast(rest, s, d);
      assert Voting(more, d) == first + Voting(rest + [s], d);
      assert first + (Voting(rest, d) + last) == first + Voting(rest, d) + last;
    }
  }

  /** The majority decides: the direction with more votes wins and a tie is
      neutral; the count is the winner's, and the confidence the mean of its voters'. */
  lemma MajorityDecides(signals: seq<StrategySignal>)
    ensures var m := Merged(signals);
            var (up, down) := (|Supporters(signals, Bullish)|, |Supporters(signals, Bearish)|);
            && (m.direction == Bullish <==> up > down) && (m.direction == Bearish <==> down > up)
            && m.confirmationCount == (if up > down then up else if down > up then down else 0)
            && |m.agreeing| == m.confirmationCount && m.signals == signals
            && m.confidence * m.confirmationCount as real
               == if m.direction.Neutral? then 0.0 else SumOf(Confidences(Voting(signals, m.direction)))
  {
    hide Voting, Confidences, SumOf, Names, Mean, Supporters;
    VotesAreCounted(signals, Bullish);
    VotesAreCounted(signals, Bearish);
    var m := Merged(signals);
    ConfidencesOfAll(Voting(signals, m.direction));
    if !m.direction.Neutral? { MeanTimes(Confidences(Voting(signals, m.direction))); }
  }

  /** Someone named `n` voted for `d`. */
  predicate Voiced(signals: seq<StrategySignal>, d: Direction, n: string) {
    exists s :: s in signals && s.direction == d && s.name == n
  }

  /** The agreeing names are those of the winner's voters, the conflicting ones those of the votes against it. */
  lemma VotersAreNamed(signals: seq<StrategySignal>)
    requires AllValid(signals)
    ensures var m := Merged(signals);
            && (forall n :: n in m.agreeing <==> !m.direction.Neutral? && Voiced(signals, m.direction, n))
            && (forall n :: n in m.conflicting
                  <==> (m.direction != Bullish && Voiced(signals, Bullish, n))
                       || (m.direction != Bearish && Voiced(signals, Bearish, n)))
  {
    hide Voting, Confidences, SumOf, Names, Mean, Voiced;
    NamesOfVoters(signals, Bullish);
    NamesOfVoters(signals, Bearish);
    NamesJoin(Voting(signals, Bullish), Voting(signals, Bearish));
  }

  lemma NamesOfVoters(signals: seq<StrategySignal>, d: Direction)
    requires AllValid(signals)
    ensures forall n :: n in Names(Voting(signals, d)) <==> Voiced(signals, d, n)
  {
    hide Voting;
    VotersVote(signals, d);
    var voters := Voting(signals, d);
    forall s | s in voters ensures s.name in Names(voters) {
      var i :| 0 <= i < |voters| && voters[i] == s;
      assert Names(voters)[i] == s.name;
    }
    forall n | n in Names(voters) ensures Voiced(signals, d, n) {
      var i :| 0 <= i < |voters| && Names(voters)[i] == n;
      assert voters[i] in voters;
    }
  }

  lemma NamesJoin(a: seq<StrategySignal>, b: seq<StrategySignal>)
    ensures Names(a + b) == Names(a) + Names(b)
  {
  }

  lemma ConfidencesOfAll(signals: seq<StrategySignal>)
    ensures |Confidences(signals)| == |signals|
  {
  }

  lemma MeanTimes(values: seq<real>)
    requires values != []
    ensures Mean(values) * |values| as real == SumOf(values)
  {
    hide SumOf;
  }

  // ---------- Averaging ----------

  function Named(signals: seq<StrategySignal>, names: seq<string>): seq<StrategySignal> {
    if signals == [] then []
    else (if signals[0].name in names then [signals[0]] else []) + Named(signals[1..], names)
  }

  function EntriesOf(signals: seq<StrategySignal>): seq<real> {
    if signals == [] then []
    else (if signals[0].entry.Some? then [signals[0].entry.value] else []) + EntriesOf(signals[1..])
  }

  function StopsOf(signals: seq<StrategySignal>): seq<real> {
    if signals == [] then []
    else (if signals[0].stop.Some? then [signals[0].stop.value] else []) + StopsOf(signals[1..])
  }

  /** The signals that carry targets. */
  function Carriers(signals: seq<StrategySignal>): (cs: seq<StrategySignal>)
    ensures forall i | 0 <= i < |cs| :: cs[i].targets != [] && cs[i] in signals
  {
    if signals == [] then [] else (if signals[0].targets != [] then [signals[0]] else []) + Carriers(signals[1..])
  }

  function FewestTargets(carriers: seq<StrategySignal>): (n: nat)
    requires carriers != []
    ensures forall i | 0 <= i < |carriers| :: n <= |carriers[i].targets|
    ensures (forall i | 0 <= i < |carriers| :: carriers[i].targets != []) ==> n > 0
  {
    var n := |carriers[0].targets|;
    if |carriers| == 1 then n
    else
      var m := FewestTargets(carriers[1..]);
      assert forall i | 0 < i < |carriers| :: carriers[i] == carriers[1..][i - 1];
      if n <= m then n else m
  }

  /** Target `i` of every carrier. */
  function Column(carriers: seq<StrategySignal>, i: nat): (c: seq<real>)
    requires forall k | 0 <= k < |carriers| :: i < |carriers[k].targets|
    ensures |c| == |carriers| && forall k | 0 <= k < |c| :: c[k] == carriers[k].targets[i]
  {
    seq(|carriers|, k requires 0 <= k < |carriers| => carriers[k].targets[i])
  }

  function AverageTargets(carriers: seq<StrategySignal>): (ts: seq<real>)
    requires carriers != []
    ensures |ts| == FewestTargets(carriers)
  {
    seq(FewestTargets(carriers), i requires 0 <= i < FewestTargets(carriers) => Mean(Column(carriers, i)))
  }

  datatype Plan = Plan(entry: Option<real>, stop: Option<real>, targets: seq<real>, riskReward: Option<real>)

  const NO_PLAN: Plan := Plan(None, None, [], None)

  function Consolidated(action: Action, agreeing: seq<StrategySignal>): Plan {
    if action.Hold? || agreeing == [] then NO_PLAN
    else
      var entries, stops, carriers := EntriesOf(agreeing), StopsOf(agreeing), Carriers(agreeing);
      if entries == [] || stops == [] || carriers == [] then NO_PLAN
      else
        var entry, stop, targets := Mean(entries), Mean(stops), AverageTargets(carriers);
        var risk := Abs(entry - stop);
        Plan(Some(entry), Some(stop), targets,
             if targets != [] && risk > 0.0 then Some(Abs(targets[0] - entry) / risk) else None)
  }

  function ActionOf(d: Direction): Action {
    match d case Bullish => BuyAction case Bearish => SellAction case Neutral => Hold
  }

  function Recommended(c: ConfluenceResult): Recommendation {
    var action := ActionOf(c.direction);
    var plan := Consolidated(action, Named(c.signals, c.agreeing));
    Recommendation(if !action.Hold? && plan.entry.None? then Hold else action, c.confidence,
                   plan.entry, plan.stop, plan.targets, plan.riskReward, c.confirmationCount, |c.signals|)
  }

  /** The recommendation, or the validator's refusal. */
  function Generate(c: ConfluenceResult): Result<Recommendation> {
    var r := Recommended(c);
    if r.Valid() then Ok(r) else Err(ValidationFailed)
  }

  // ---------- When the average is coherent ----------

  predicate DistinctNames(signals: seq<StrategySignal>) {
    forall i, j | 0 <= i < j < |signals| :: signals[i].name != signals[j].name
  }

  predicate AllValid(signals: seq<StrategySignal>) { forall i | 0 <= i < |signals| :: signals[i].Valid() }

  predicate AllVote(signals: seq<StrategySignal>, d: Direction) {
    forall i | 0 <= i < |signals| :: signals[i].Valid() && signals[i].direction == d
  }

  lemma {:induction false} VotersVote(signals: seq<StrategySignal>, d: Direction)
    requires AllValid(signals)
    ensures AllVote(Voting(signals, d), d)
    ensures forall s :: s in Voting(signals, d) <==> s in signals && s.direction == d
  {
    if signals != [] { VotersVote(signals[1..], d); }
  }

  lemma {:induction false} NamedIsFilter(signals: seq<StrategySignal>, names: seq<string>, d: Direction)
    requires forall i | 0 <= i < |signals| :: signals[i].name in names <==> signals[i].direction == d
    ensures Named(signals, names) == Voting(signals, d)
  {
    if signals != [] { NamedIsFilter(signals[1..], names, d); }
  }

  /** With distinct names, looking the agreeing signals up by name finds exactly the voters. */
  lemma NamesFindTheVoters(signals: seq<StrategySignal>, d: Direction)
    requires AllValid(signals) && DistinctNames(signals)
    ensures Named(signals, Names(Voting(signals, d))) == Voting(signals, d)
  {
    VotersVote(signals, d);
    var voters := Voting(signals, d);
    forall i | 0 <= i < |signals|
      ensures signals[i].name in Names(voters) <==> signals[i].direction == d
    {
      if signals[i].direction == d {
        assert signals[i] in voters;
        var k: nat :| k < |voters| && voters[k] == signals[i];
        assert Names(voters)[k] == signals[i].name;
      }
      if signals[i].name in Names(voters) {
        var k: nat :| k < |voters| && Names(voters)[k] == signals[i].name;
        assert voters[k] in voters;
        var j: nat :| j < |signals| && signals[j] == voters[k];
        assert i == j;
      }
    }
    NamedIsFilter(signals, Names(voters), d);
  }

  /** The condition: averaged over all agreeing signals, the entry is not beyond
      the average entry of those that carry targets. */
  predicate EntriesAgree(long: bool, agreeing: seq<StrategySignal>) {
    var all, carried := EntriesOf(agreeing), EntriesOf(Carriers(agreeing));
    all != [] && carried != [] ==> if long then Mean(all) <= Mean(carried) else Mean(all) >= Mean(carried)
  }

  lemma {:induction false} SumBelow(a: seq<real>, b: seq<real>)
    requires |a| == |b| && a != [] && forall i | 0 <= i < |a| :: a[i] < b[i]
    ensures SumOf(a) < SumOf(b)
  {
    if |a| > 1 { SumBelow(a[1..], b[1..]); }
  }

  lemma {:induction false} SumAtMost(a: seq<real>, b: seq<real>)
    requires |a| == |b| && forall i | 0 <= i < |a| :: a[i] <= b[i]
    ensures SumOf(a) <= SumOf(b)
  {
    if a != [] { SumAtMost(a[1..], b[1..]); }
  }

  lemma DivideBelow(x: real, y: real, n: real)
    requires n > 0.0
    ensures x < y ==> x / n < y / n
    ensures x <= y ==> x / n <= y / n
  {
    if x < y {
      assert y / n - x / n == (y - x) / n;
      assert (y - x) / n > 0.0;
    }
  }

  lemma MeanBelow(a: seq<real>, b: seq<real>)
    requires |a| == |b| && a != [] && forall i | 0 <= i < |a| :: a[i] < b[i]
    ensures Mean(a) < Mean(b)
  {
    SumBelow(a, b);
    DivideBelow(SumOf(a), SumOf(b), |a| as real);
  }

  lemma MeanAtMost(a: seq<real>, b: seq<real>)
    requires |a| == |b| && a != [] && forall i | 0 <= i < |a| :: a[i] <= b[i]
    ensures Mean(a) <= Mean(b)
  {
    SumAtMost(a, b);
    DivideBelow(SumOf(a), SumOf(b), |a| as real);
  }

  lemma {:induction false} SumOfRepeated(x: real, n: nat)
    ensures SumOf(seq(n, _ => x)) == n as real * x
  {
    if n > 0 {
      SumOfRepeated(x, n - 1);
      var s, rest := seq(n, _ => x), seq(n - 1, _ => x);
      assert s[0] == x && s[1..] == rest;
      assert SumOf(s) == x + SumOf(rest);
      assert x + (n - 1) as real * x == n as real * x;
    }
  }

  lemma MeanOfRepeated(x: real, n: nat)
    requires n > 0
    ensures Mean(seq(n, _ => x)) == x
  {
    SumOfRepeated(x, n);
  }

  /** A mean lies between any bounds on its terms. */
  lemma MeanBetween(a: seq<real>, low: real, high: real)
    requires a != [] && forall i | 0 <= i < |a| :: low <= a[i] <= high
    ensures low <= Mean(a) <= high
  {
    MeanOfRepeated(low, |a|);
    MeanOfRepeated(high, |a|);
    MeanAtMost(seq(|a|, _ => low), a);
    MeanAtMost(a, seq(|a|, _ => high));
  }

  lemma {:induction false} EntriesAndStops(signals: seq<StrategySignal>, d: Direction)
    requires AllVote(signals, d) && !d.Neutral?
    ensures |EntriesOf(signals)| == |StopsOf(signals)| == |signals|
    ensures forall i | 0 <= i < |signals| ::
              EntriesOf(signals)[i] == signals[i].entry.value && StopsOf(signals)[i] == signals[i].stop.value
  {
    if signals != [] { EntriesAndStops(signals[1..], d); }
  }

  /** Averaged targets are in order, and the first lies beyond the average entry of their carriers. */
  lemma TargetsAreOrdered(carriers: seq<StrategySignal>, d: Direction)
    requires AllVote(carriers, d) && !d.Neutral? && carriers != []
    ensures var ts, entry := AverageTargets(carriers), Mean(EntriesOf(carriers));
            && (if d.Bullish? then Ascending(ts) else Descending(ts))
            && (ts != [] ==> if d.Bullish? then ts[0] > entry else ts[0] < entry)
  {
    hide Mean;
    EntriesAndStops(carriers, d);
    var entries, targets := EntriesOf(carriers), AverageTargets(carriers);
    if targets != [] {
      var first := Column(carriers, 0);
      if d.Bullish? { MeanBelow(entries, first); } else { MeanBelow(first, entries); }
    }
    forall i | 0 < i < |targets|
      ensures if d.Bullish? then targets[i - 1] <= targets[i] else targets[i - 1] >= targets[i]
    {
      var earlier, column := Column(carriers, i - 1), Column(carriers, i);
      if d.Bullish? { MeanAtMost(earlier, column); } else { MeanAtMost(column, earlier); }
    }
  }

  /** Ordered targets lie beyond a price when the first does. */
  lemma {:induction false} FirstDecides(long: bool, ts: seq<real>, entry: real, i: nat)
    requires (if long then Ascending(ts) else Descending(ts)) && i < |ts|
    requires if long then ts[0] > entry else ts[0] < entry
    ensures if long then ts[i] > entry else ts[i] < entry
  {
    if i > 0 { FirstDecides(long, ts, entry, i - 1); }
  }

  /** The first target of the carriers, averaged, lies beyond the entry averaged over all agreeing signals. */
  predicate TargetsClear(long: bool, agreeing: seq<StrategySignal>) {
    var carriers, entries := Carriers(agreeing), EntriesOf(agreeing);
    carriers != [] && entries != [] ==>
      if long then Mean(Column(carriers, 0)) > Mean(entries) else Mean(Column(carriers, 0)) < Mean(entries)
  }

  /** The averaged plan is coherent, with its stop, entry and all targets on the
      right sides and in order, if and only if its first target clears its entry. */
  lemma AverageIsCoherent(agreeing: seq<StrategySignal>, d: Direction)
    requires AllVote(agreeing, d) && !d.Neutral? && Carriers(agreeing) != []
    ensures var p := Consolidated(ActionOf(d), agreeing);
            && p.entry.Some? && p.stop.Some? && p.entry.value > 0.0 && p.stop.value > 0.0 && p.targets != []
            && (Coherent(d.Bullish?, p.entry.value, p.stop.value, p.targets) <==> TargetsClear(d.Bullish?, agreeing))
  {
    hide Mean, EntriesOf, StopsOf, Ascending, Descending;
    var carriers := Carriers(agreeing);
    assert agreeing != [] by { assert carriers[0] in agreeing; }
    EntriesAndStops(agreeing, d);
    CarriersVote(agreeing, d);
    MeanIsPositive(EntriesOf(agreeing));
    MeanIsPositive(StopsOf(agreeing));
    if d.Bullish? { MeanBelow(StopsOf(agreeing), EntriesOf(agreeing)); }
    else { MeanBelow(EntriesOf(agreeing), StopsOf(agreeing)); }
    TargetsAreOrdered(carriers, d);
    var entry, targets := Mean(EntriesOf(agreeing)), AverageTargets(carriers);
    assert targets[0] == Mean(Column(carriers, 0));
    if TargetsClear(d.Bullish?, agreeing) {
      forall i: nat | i < |targets| ensures if d.Bullish? then targets[i] > entry else targets[i] < entry {
        FirstDecides(d.Bullish?, targets, entry, i);
      }
    }
  }

  /** Entry and stop are the means over all agreeing signals, and the targets those of the carriers. */
  lemma PlanIsAverage(agreeing: seq<StrategySignal>, d: Direction)
    requires AllVote(agreeing, d) && !d.Neutral? && Carriers(agreeing) != []
    ensures var p := Consolidated(ActionOf(d), agreeing);
            && p.entry.Some? && p.entry.value * |agreeing| as real == SumOf(EntriesOf(agreeing))
            && p.stop.Some? && p.stop.value * |agreeing| as real == SumOf(StopsOf(agreeing))
            && p.targets == AverageTargets(Carriers(agreeing))
            && forall s :: s in Carriers(agreeing) <==> s in agreeing && s.targets != []
  {
    hide Consolidated, Mean, EntriesOf, StopsOf, SumOf, AverageTargets, Carriers, AllVote;
    PlanIsMean(agreeing, d);
    CarriersAreAll(agreeing);
    MeanTimes(EntriesOf(agreeing));
    MeanTimes(StopsOf(agreeing));
  }

  lemma PlanIsMean(agreeing: seq<StrategySignal>, d: Direction)
    requires AllVote(agreeing, d) && !d.Neutral? && Carriers(agreeing) != []
    ensures var (p, entries, stops) := (Consolidated(ActionOf(d), agreeing), EntriesOf(agreeing), StopsOf(agreeing));
            && |entries| == |stops| == |agreeing| > 0
            && p.entry == Some(Mean(entries)) && p.stop == Some(Mean(stops))
            && p.targets == AverageTargets(Carriers(agreeing))
  {
    hide Mean, EntriesOf, StopsOf, AverageTargets;
    assert agreeing != [] by { assert Carriers(agreeing)[0] in agreeing; }
    EntriesAndStops(agreeing, d);
  }

  /** The fewest targets of a list are some carrier's. */
  lemma {:induction false} FewestIsReached(carriers: seq<StrategySignal>) returns (i: nat)
    requires carriers != []
    ensures i < |carriers| && |carriers[i].targets| == FewestTargets(carriers)
  {
    i := 0;
    if |carriers| > 1 {
      var j := FewestIsReached(carriers[1..]);
      if |carriers[0].targets| > FewestTargets(carriers[1..]) { i := j + 1; }
    }
  }

  lemma {:induction false} CarriersAreAll(signals: seq<StrategySignal>)
    ensures forall s :: s in Carriers(signals) <==> s in signals && s.targets != []
  {
    if signals != [] {
      CarriersAreAll(signals[1..]);
      assert signals == [signals[0]] + signals[1..];
    }
  }

  /** Target `i` is the mean of the carriers' targets `i`, as far as every carrier has one. */
  lemma TargetsAreMeans(carriers: seq<StrategySignal>)
    requires carriers != []
    ensures var ts := AverageTargets(carriers);
            && |ts| == FewestTargets(carriers)
            && (forall k | 0 <= k < |carriers| :: |ts| <= |carriers[k].targets|)
            && (exists k :: 0 <= k < |carriers| && |ts| == |carriers[k].targets|)
            && forall i: nat | i < |ts| :: ts[i] * |carriers| as real == SumOf(Column(carriers, i))
  {
    hide Mean, SumOf;
    var shortest := FewestIsReached(carriers);
    forall i: nat | i < FewestTargets(carriers)
      ensures Mean(Column(carriers, i)) * |carriers| as real == SumOf(Column(carriers, i))
    {
      MeanTimes(Column(carriers, i));
    }
  }

  /** The risk-reward ratio is the distance to the first target over that to the stop. */
  lemma RewardOverRisk(agreeing: seq<StrategySignal>, d: Direction)
    requires AllVote(agreeing, d) && !d.Neutral? && Carriers(agreeing) != []
    ensures var p := Consolidated(ActionOf(d), agreeing);
            && p.entry.Some? && p.stop.Some? && p.targets != [] && p.riskReward.Some?
            && p.riskReward.value * Abs(p.entry.value - p.stop.value) == Abs(p.targets[0] - p.entry.value)
  {
    hide Mean, EntriesOf, StopsOf, SumOf, Abs, AverageTargets;
    assert agreeing != [] by { assert Carriers(agreeing)[0] in agreeing; }
    EntriesAndStops(agreeing, d);
    if d.Bullish? { MeanBelow(StopsOf(agreeing), EntriesOf(agreeing)); }
    else { MeanBelow(EntriesOf(agreeing), StopsOf(agreeing)); }
    var (entry, stop) := (Mean(EntriesOf(agreeing)), Mean(StopsOf(agreeing)));
    RatioOfDistances(Abs(AverageTargets(Carriers(agreeing))[0] - entry), entry, stop);
  }

  lemma RatioOfDistances(reward: real, entry: real, stop: real)
    requires entry != stop
    ensures Abs(entry - stop) > 0.0 && reward / Abs(entry - stop) * Abs(entry - stop) == reward
  {
  }

  /** Agreeing entries are enough: then the first target, beyond the carriers' entry, clears the common one. */
  lemma AgreeingEntriesClear(agreeing: seq<StrategySignal>, d: Direction)
    requires AllVote(agreeing, d) && !d.Neutral? && EntriesAgree(d.Bullish?, agreeing)
    ensures TargetsClear(d.Bullish?, agreeing)
  {
    hide Mean;
    var carriers := Carriers(agreeing);
    if carriers != [] {
      CarriersVote(agreeing, d);
      EntriesAndStops(carriers, d);
      TargetsAreOrdered(carriers, d);
      assert AverageTargets(carriers)[0] == Mean(Column(carriers, 0));
    }
  }

  lemma CarriersVote(agreeing: seq<StrategySignal>, d: Direction)
    requires AllVote(agreeing, d)
    ensures AllVote(Carriers(agreeing), d)
  {
    forall i | 0 <= i < |Carriers(agreeing)|
      ensures Carriers(agreeing)[i].Valid() && Carriers(agreeing)[i].direction == d
    {
      var k: nat :| k < |agreeing| && agreeing[k] == Carriers(agreeing)[i];
    }
  }

  lemma MeanIsPositive(a: seq<real>)
    requires a != [] && forall i | 0 <= i < |a| :: a[i] > 0.0
    ensures Mean(a) > 0.0
  {
    MeanOfRepeated(0.0, |a|);
    MeanBelow(seq(|a|, _ => 0.0), a);
  }

  lemma RiskRewardIsNonNegative(action: Action, agreeing: seq<StrategySignal>)
    ensures var r := Consolidated(action, agreeing).riskReward; r.Some? ==> r.value >= 0.0
  {
    hide Mean, AverageTargets, EntriesOf, StopsOf, Carriers;
    var p := Consolidated(action, agreeing);
    if p.riskReward.Some? {
      QuotientIsNonNegative(Abs(p.targets[0] - p.entry.value), Abs(p.entry.value - p.stop.value));
    }
  }

  lemma QuotientIsNonNegative(x: real, y: real)
    requires x >= 0.0 && y > 0.0
    ensures x / y >= 0.0
  {
  }

  lemma MergedConfidence(signals: seq<StrategySignal>)
    requires AllValid(signals)
    ensures 0.0 <= Merged(signals).confidence <= 100.0
  {
    hide Mean;
    var m := Merged(signals);
    if !m.direction.Neutral? {
      VotersVote(signals, m.direction);
      MeanBetween(Confidences(Voting(signals, m.direction)), 0.0, 100.0);
    }
  }

  /** The recommendation validator, exactly.  For any non-empty list of valid
      signals with distinct names it accepts the recommendation if and only if
      the averaged first target clears the averaged entry of the winning votes,
      or there is nothing to clear: a neutral vote, or no targets at all. */
  lemma RecommendationExactlyWhenTargetsClear(signals: seq<StrategySignal>)
    requires signals != [] && AllValid(signals) && DistinctNames(signals)
    ensures var c := Merged(signals); var r := Generate(c); var voters := Voting(signals, c.direction);
            && (r.Ok? <==> c.direction.Neutral? || TargetsClear(c.direction.Bullish?, voters))
            && (r.Ok? ==>
                  && (r.value.action.Hold? <==> c.direction.Neutral? || Carriers(voters) == [])
                  && (!r.value.action.Hold? ==> r.value.action == ActionOf(c.direction) && r.value.targets != []))
  {
    hide Mean, Names, Voting, Named, EntriesOf, StopsOf, AverageTargets, Coherent, AllVote, AllValid, DistinctNames,
         Confidences, TargetsClear;
    var c := Merged(signals);
    MergedConfidence(signals);
    RiskRewardIsNonNegative(ActionOf(c.direction), Named(c.signals, c.agreeing));
    if !c.direction.Neutral? {
      var voters := Voting(signals, c.direction);
      NamesFindTheVoters(signals, c.direction);
      VotersVote(signals, c.direction);
      if Carriers(voters) == [] { NothingToClear(c.direction.Bullish?, voters); }
      else { AverageIsCoherent(voters, c.direction); }
    }
  }

  lemma NothingToClear(long: bool, agreeing: seq<StrategySignal>)
    requires Carriers(agreeing) == []
    ensures TargetsClear(long, agreeing)
  {
  }

  /** Where the winning entries agree the validator never fires. */
  lemma RecommendationIsValid(signals: seq<StrategySignal>)
    requires signals != [] && AllValid(signals) && DistinctNames(signals)
    requires var d := Merged(signals).direction; EntriesAgree(d.Bullish?, Voting(signals, d))
    ensures Generate(Merged(signals)).Ok?
  {
    hide Merged, Generate, EntriesAgree, TargetsClear, Voting, AllValid, DistinctNames, AllVote;
    var d := Merged(signals).direction;
    RecommendationExactlyWhenTargetsClear(signals);
    VotersVote(signals, d);
    if !d.Neutral? { AgreeingEntriesClear(Voting(signals, d), d); }
  }

  /** The two cases the strategies meet: every agreeing signal carries targets, or they share one entry. */
  lemma UsualSignalsAgree(agreeing: seq<StrategySignal>, d: Direction, long: bool)
    requires AllVote(agreeing, d) && !d.Neutral?
    requires (forall i | 0 <= i < |agreeing| :: agreeing[i].targets != [])
             || exists e: real :: forall i | 0 <= i < |agreeing| :: agreeing[i].entry == Some(e)
    ensures EntriesAgree(long, agreeing)
  {
    hide Mean;
    var carriers := Carriers(agreeing);
    EntriesAndStops(agreeing, d);
    EntriesAndStops(carriers, d);
    if forall i | 0 <= i < |agreeing| :: agreeing[i].targets != [] {
      AllCarry(agreeing);
    } else if carriers != [] {
      var e: real :| forall i | 0 <= i < |agreeing| :: agreeing[i].entry == Some(e);
      MeanBetween(EntriesOf(agreeing), e, e);
      MeanBetween(EntriesOf(carriers), e, e);
    }
  }

  lemma {:induction false} AllCarry(signals: seq<StrategySignal>)
    requires forall i | 0 <= i < |signals| :: signals[i].targets != []
    ensures Carriers(signals) == signals
  {
    if signals != [] { AllCarry(signals[1..]); }
  }

  // ---------- Entries that disagree ----------

  /** The same signal, its targets (if it votes `d` and has any) drawn in to one at distance `gap`. */
  function Retargeted(s: StrategySignal, d: Direction, gap: real): StrategySignal {
    if s.direction == d && s.targets != [] && s.entry.Some? then
      s.(targets := [if d.Bullish? then s.entry.value + gap else s.entry.value - gap])
    else s
  }

  function RetargetAll(signals: seq<StrategySignal>, d: Direction, gap: real): (rs: seq<StrategySignal>) {
    if signals == [] then [] else [Retargeted(signals[0], d, gap)] + RetargetAll(signals[1..], d, gap)
  }

  lemma {:induction false} RetargetedOneByOne(signals: seq<StrategySignal>, d: Direction, gap: real)
    ensures |RetargetAll(signals, d, gap)| == |signals|
    ensures forall i | 0 <= i < |signals| :: RetargetAll(signals, d, gap)[i] == Retargeted(signals[i], d, gap)
  {
    if signals != [] { RetargetedOneByOne(signals[1..], d, gap); }
  }

  lemma {:induction false} RetargetingKeepsVotes(signals: seq<StrategySignal>, d: Direction, e: Direction, gap: real)
    ensures Voting(RetargetAll(signals, d, gap), e) == RetargetAll(Voting(signals, e), d, gap)
  {
    if signals != [] {
      var s, rest := signals[0], signals[1..];
      RetargetingKeepsVotes(rest, d, e, gap);
      assert RetargetAll(signals, d, gap)[1..] == RetargetAll(rest, d, gap);
      if s.direction == e {
        assert ([s] + Voting(rest, e))[1..] == Voting(rest, e);
      } else {
        assert [] + Voting(rest, e) == Voting(rest, e);
      }
    }
  }

  lemma RetargetedIsValid(s: StrategySignal, d: Direction, gap: real)
    requires s.Valid() && gap > 0.0 && !d.Neutral?
    ensures Retargeted(s, d, gap).Valid()
  {
  }

  lemma RetargetingKeepsTexts(signals: seq<StrategySignal>, d: Direction, gap: real)
    ensures Names(RetargetAll(signals, d, gap)) == Names(signals)
    ensures Confidences(RetargetAll(signals, d, gap)) == Confidences(signals)
  {
    RetargetedOneByOne(signals, d, gap);
  }

  lemma RetargetingKeepsMerge(signals: seq<StrategySignal>, d: Direction, gap: real)
    ensures var m, r := Merged(signals), Merged(RetargetAll(signals, d, gap));
            r.direction == m.direction && r.agreeing == m.agreeing && r.confidence == m.confidence
  {
    hide Names, Confidences, Voting, RetargetAll, Mean;
    RetargetingKeepsVotes(signals, d, Bullish, gap);
    RetargetingKeepsVotes(signals, d, Bearish, gap);
    RetargetingKeepsTexts(Voting(signals, Bullish), d, gap);
    RetargetingKeepsTexts(Voting(signals, Bearish), d, gap);
    RetargetedOneByOne(Voting(signals, Bullish), d, gap);
    RetargetedOneByOne(Voting(signals, Bearish), d, gap);
  }

  lemma {:induction false} RetargetingKeepsEntries(voters: seq<StrategySignal>, d: Direction, gap: real)
    requires AllVote(voters, d) && !d.Neutral?
    ensures EntriesOf(RetargetAll(voters, d, gap)) == EntriesOf(voters)
    ensures Carriers(RetargetAll(voters, d, gap)) == RetargetAll(Carriers(voters), d, gap)
  {
    if voters != [] {
      var s, rest := voters[0], voters[1..];
      RetargetingKeepsEntries(rest, d, gap);
      assert RetargetAll(voters, d, gap)[1..] == RetargetAll(rest, d, gap);
      if s.targets != [] {
        assert ([s] + Carriers(rest))[1..] == Carriers(rest);
      } else {
        assert [] + Carriers(rest) == Carriers(rest);
      }
    }
  }

  lemma {:induction false} SumShifted(a: seq<real>, b: seq<real>, shift: real)
    requires |a| == |b| && forall i | 0 <= i < |a| :: b[i] == a[i] + shift
    ensures SumOf(b) == SumOf(a) + |a| as real * shift
  {
    if a != [] { SumShifted(a[1..], b[1..], shift); }
  }

  lemma MeanShifted(a: seq<real>, b: seq<real>, shift: real)
    requires a != [] && |a| == |b| && forall i | 0 <= i < |a| :: b[i] == a[i] + shift
    ensures Mean(b) == Mean(a) + shift
  {
    SumShifted(a, b, shift);
    var n := |a| as real;
    assert (SumOf(a) + n * shift) / n == SumOf(a) / n + shift;
  }

  /** After retargeting, the first averaged target is the carriers' mean entry moved by the gap. */
  lemma RetargetedAverage(carriers: seq<StrategySignal>, d: Direction, gap: real)
    requires AllVote(carriers, d) && !d.Neutral? && carriers != []
    requires forall i | 0 <= i < |carriers| :: carriers[i].targets != []
    ensures var r := RetargetAll(carriers, d, gap);
            && r != [] && AverageTargets(r) != []
            && AverageTargets(r)[0] == Mean(EntriesOf(carriers)) + (if d.Bullish? then gap else -gap)
  {
    hide Mean;
    var r := RetargetAll(carriers, d, gap);
    RetargetedOneByOne(carriers, d, gap);
    EntriesAndStops(carriers, d);
    forall i | 0 <= i < |r| ensures |r[i].targets| == 1 {
      assert r[i] == Retargeted(carriers[i], d, gap);
    }
    MeanShifted(EntriesOf(carriers), Column(r, 0), if d.Bullish? then gap else -gap);
  }

  /** Of conditions on the entries alone agreement is the weakest: when the
      entries of agreeing signals disagree with those of the signals that carry
      targets, the same signals with targets closer to their entries, still each
      valid, make the recommendation validator fire. */
  lemma DisagreeingEntriesCanFail(signals: seq<StrategySignal>)
    requires AllValid(signals) && DistinctNames(signals)
    requires var d := Merged(signals).direction; !d.Neutral? && !EntriesAgree(d.Bullish?, Voting(signals, d))
    ensures exists gap: real ::
              var closer := RetargetAll(signals, Merged(signals).direction, gap);
              && AllValid(closer) && Names(closer) == Names(signals)
              && Generate(Merged(closer)).Err?
  {
    hide Mean, Names, Confidences, Voting, RetargetAll, EntriesOf, Named, Carriers, StopsOf, AverageTargets;
    var d := Merged(signals).direction;
    var voters := Voting(signals, d);
    VotersVote(signals, d);
    NoEntries();
    var all, carried := Mean(EntriesOf(voters)), Mean(EntriesOf(Carriers(voters)));
    var gap := if d.Bullish? then all - carried else carried - all;
    var closer := RetargetAll(signals, d, gap);
    RetargetedOneByOne(signals, d, gap);
    forall i | 0 <= i < |closer| ensures closer[i].Valid() {
      RetargetedIsValid(signals[i], d, gap);
    }
    assert DistinctNames(closer) by {
      assert forall i | 0 <= i < |closer| :: closer[i].name == signals[i].name;
    }
    RetargetingKeepsTexts(signals, d, gap);
    RetargetingKeepsMerge(signals, d, gap);
    RetargetingKeepsVotes(signals, d, d, gap);
    RetargetingKeepsEntries(voters, d, gap);
    RetargetingKeepsTexts(voters, d, gap);
    CloserFails(closer, RetargetAll(voters, d, gap), d, voters, gap);
  }

  lemma CloserFails(closer: seq<StrategySignal>, agreeing: seq<StrategySignal>, d: Direction,
                    voters: seq<StrategySignal>, gap: real)
    requires AllValid(closer) && DistinctNames(closer) && !d.Neutral? && Merged(closer).direction == d
    requires agreeing == Voting(closer, d) && AllVote(voters, d)
    requires EntriesOf(agreeing) == EntriesOf(voters) != [] && Carriers(voters) != []
    requires EntriesOf(Carriers(voters)) != []
    requires Carriers(agreeing) == RetargetAll(Carriers(voters), d, gap)
    requires gap == if d.Bullish? then Mean(EntriesOf(voters)) - Mean(EntriesOf(Carriers(voters)))
                    else Mean(EntriesOf(Carriers(voters))) - Mean(EntriesOf(voters))
    ensures Generate(Merged(closer)).Err?
  {
    hide Mean, Names, Confidences, RetargetAll, EntriesOf, Carriers, AverageTargets, DistinctNames, StopsOf, Named,
         Voting;
    CarriersVote(voters, d);
    RetargetedAverage(Carriers(voters), d, gap);
    NamesFindTheVoters(closer, d);
    VotersVote(closer, d);
    EntriesAndStops(agreeing, d);
    var p := Consolidated(ActionOf(d), agreeing);
    assert p.targets[0] == p.entry.value;
  }

  lemma NoEntries()
    ensures EntriesOf([]) == []
  {
  }

  lemma PairVotes(a: StrategySignal, b: StrategySignal)
    requires a.direction == b.direction == Bullish
    ensures Voting([a, b], Bullish) == [a, b] && Voting([a, b], Bearish) == []
  {
    assert [a, b][1..] == [b] && [b][1..] == [];
    assert Voting([b], Bullish) == [b] && Voting([b], Bearish) == [];
  }

  lemma PairEntries(a: StrategySignal, b: StrategySignal, x: real, y: real)
    requires a.entry == Some(x) && b.entry == Some(y) && a.targets == [] && b.targets != []
    ensures EntriesOf([a, b]) == [x, y] && Carriers([a, b]) == [b] && EntriesOf([b]) == [y]
  {
    assert [a, b][1..] == [b] && [b][1..] == [];
    assert EntriesOf([b]) == [y] + EntriesOf([]);
    assert EntriesOf([a, b]) == [x] + EntriesOf([b]);
    assert Carriers([b]) == [b] + Carriers([]);
    assert Carriers([a, b]) == [] + Carriers([b]);
  }

  lemma PairMeans(x: real, y: real)
    ensures Mean([x, y]) == (x + y) / 2.0 && Mean([y]) == y
  {
    assert [x, y][1..] == [y] && [y][1..] == [];
    assert SumOf([y]) == y && SumOf([x, y]) == x + y;
  }

  /** Two valid bullish signals that make the validator fire: the one without
      targets pulls the entry to 7, above the other's target. */
  lemma DisagreeingEntriesExist()
    ensures var a := StrategySignal("A", Bullish, Some(10.0), Some(5.0), [], 50.0);
            var b := StrategySignal("B", Bullish, Some(4.0), Some(2.0), [5.0], 50.0);
            && AllValid([a, b]) && DistinctNames([a, b]) && Merged([a, b]).direction == Bullish
            && Generate(Merged([a, b])).Err?
  {
    hide Voting, EntriesOf, Carriers, Mean, Generate;
    var a := StrategySignal("A", Bullish, Some(10.0), Some(5.0), [], 50.0);
    var b := StrategySignal("B", Bullish, Some(4.0), Some(2.0), [5.0], 50.0);
    PairVotes(a, b);
    PairEntries(a, b, 10.0, 4.0);
    PairMeans(10.0, 4.0);
    PairMeans(0.0, 5.0);
    assert Column([b], 0) == [5.0];
    assert [a, b] != [] && AllValid([a, b]) && DistinctNames([a, b]);
    RecommendationExactlyWhenTargetsClear([a, b]);
  }

  /** A recommendation reports the vote it stems from. */
  lemma RecommendationReportsTheVote(signals: seq<StrategySignal>)
    requires Generate(Merged(signals)).Ok?
    ensures var r := Generate(Merged(signals)).value;
            var (up, down) := (|Supporters(signals, Bullish)|, |Supporters(signals, Bearish)|);
            && r.strategyCount == |signals| && r.confidence == Merged(signals).confidence
            && r.confirmationCount == (if up > down then up else if down > up then down else 0)
            && (r.action == BuyAction ==> up > down) && (r.action == SellAction ==> down > up)
  {
    hide Consolidated, Merged, Supporters;
    MajorityDecides(signals);
  }
}
