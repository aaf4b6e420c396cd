/** The entry gate of automatic trading: day counters, loss streak and cooldown,
    and what they guarantee about the log of everything traded since the start. */
module AutoRisk {
  import opened Domain
  import opened Calendar

  datatype AutoConfig = AutoConfig(
    exchange: Exchange, confidenceThreshold: real, minConfirmations: int, maxOpenPositions: int, maxDailyTrades: int,
    maxDailyLoss: real, capitalFraction: real, cooldownAfterLosses: int, cooldown: int, squareOffTime: int)
  {
    predicate Valid() {
      && 0.0 <= confidenceThreshold <= 100.0 && minConfirmations >= 1 && maxOpenPositions > 0 && maxDailyTrades > 0
      && maxDailyLoss > 0.0 && 0.0 < capitalFraction <= 1.0 && cooldownAfterLosses > 0 && cooldown > 0
    }
  }

  datatype Risk = Risk(day: Option<int>, trades: int, pnl: real, streak: int, cooldownUntil: Option<int>)

  const FRESH: Risk := Risk(None, 0, 0.0, 0, None)

  function Rolled(r: Risk, now: int): Risk {
    if r.day != Some(DayOf(now)) then r.(day := Some(DayOf(now)), trades := 0, pnl := 0.0) else r
  }

  /** Asked of a rolled state. */
  predicate EntryAllowed(cfg: AutoConfig, r: Risk, open: int, now: int) {
    && (r.cooldownUntil.Some? ==> now >= r.cooldownUntil.value)
    && open < cfg.maxOpenPositions && r.trades < cfg.maxDailyTrades && r.pnl > -cfg.maxDailyLoss
  }

  function AfterOpening(r: Risk, now: int): Risk {
    var rolled := Rolled(r, now);
    rolled.(trades := rolled.trades + 1)
  }

  function AfterClosing(cfg: AutoConfig, r: Risk, pnl: real, now: int): Risk {
    var rolled := Rolled(r, now);
    var booked := rolled.(pnl := rolled.pnl + pnl);
    if pnl < 0.0 then
      booked.(streak := r.streak + 1,
              cooldownUntil := if r.streak + 1 >= cfg.cooldownAfterLosses then Some(now + cfg.cooldown)
                               else r.cooldownUntil)
    else booked.(streak := 0)
  }

  class AutoRiskManager {
    const config: AutoConfig
    var day: Option<int>
    var tradesToday: int
    var dailyPnl: real
    var consecutiveLosses: int
    var cooldownUntil: Option<int>

    ghost function View(): Risk
      reads this
    {
      Risk(day, tradesToday, dailyPnl, consecutiveLosses, cooldownUntil)
    }

    constructor (config: AutoConfig)
      ensures this.config == config && View() == FRESH
    {
      this.config := config;
      day, tradesToday, dailyPnl, consecutiveLosses, cooldownUntil := None, 0, 0.0, 0, None;
    }

    method CheckEntryAllowed(open: int, now: int) returns (allowed: bool)
      modifies this
      ensures View() == Rolled(old(View()), now) && allowed == EntryAllowed(config, View(), open, now)
    {
      RollDayIfNeeded(now);
      if cooldownUntil.Some? && now < cooldownUntil.value { return false; }
      if open >= config.maxOpenPositions { return false; }
      if tradesToday >= config.maxDailyTrades { return false; }
      if dailyPnl <= -config.maxDailyLoss { return false; }
      return true;
    }

    method RecordTradeOpened(now: int)
      modifies this
      ensures View() == AfterOpening(old(View()), now)
    {
      RollDayIfNeeded(now);
      tradesToday := tradesToday + 1;
    }

    method RecordTradeClosed(pnl: real, now: int)
      modifies this
      ensures View() == AfterClosing(config, old(View()), pnl, now)
    {
      RollDayIfNeeded(now);
      dailyPnl := dailyPnl + pnl;
      if pnl < 0.0 {
        consecutiveLosses := consecutiveLosses + 1;
        if consecutiveLosses >= config.cooldownAfterLosses {
          cooldownUntil := Some(now + config.cooldown);
        }
      } else {
        consecutiveLosses := 0;
      }
    }

    method Reset()
      modifies this
      ensures View() == FRESH
    {
      day, tradesToday, dailyPnl, consecutiveLosses, cooldownUntil := None, 0, 0.0, 0, None;
    }

    method RollDayIfNeeded(now: int)
      modifies this
      ensures View() == Rolled(old(View()), now)
    {
      if day != Some(DayOf(now)) {
        day, tradesToday, dailyPnl := Some(DayOf(now)), 0, 0.0;
      }
    }
  }

  // ---------- The log ----------

  /** What the trading loop did, with the clock reading and the cycle it did it in. */
  datatype Event =
    | Opened(key: Key, at: int, cycle: nat)
    | Closed(key: Key, pnl: real, at: int, cycle: nat)

  function OpensOn(log: seq<Event>, day: int): nat {
    if log == [] then 0
    else
      var last := log[|log| - 1];
      OpensOn(log[..|log| - 1], day) + if last.Opened? && DayOf(last.at) == day then 1 else 0
  }

  function PnlOn(log: seq<Event>, day: int): real {
    if log == [] then 0.0
    else
      var last := log[|log| - 1];
      PnlOn(log[..|log| - 1], day) + if last.Closed? && DayOf(last.at) == day then last.pnl else 0.0
  }

  /** Losing closes since the last close that was none. */
  function LossStreak(log: seq<Event>): nat {
    if log == [] then 0
    else
      var last, before := log[|log| - 1], LossStreak(log[..|log| - 1]);
      if last.Opened? then before else if last.pnl < 0.0 then before + 1 else 0
  }

  /** Event `i` is a loss that brings the streak to its limit. */
  predicate Penalty(cfg: AutoConfig, log: seq<Event>, i: nat)
    requires i < |log|
  {
    log[i].Closed? && log[i].pnl < 0.0 && LossStreak(log[..i + 1]) >= cfg.cooldownAfterLosses
  }

  /** Entries in one day never exceed the daily limit. */
  ghost predicate DailyLimitHolds(cfg: AutoConfig, log: seq<Event>) {
    forall day :: OpensOn(log, day) <= cfg.maxDailyTrades
  }

  /** No entry comes within the cooldown after a loss that reached the streak limit. */
  ghost predicate CooldownHolds(cfg: AutoConfig, log: seq<Event>) {
    forall i: nat, j: nat | i < j < |log| && Penalty(cfg, log, i) && log[j].Opened? ::
      log[j].at >= log[i].at + cfg.cooldown
  }

  /** At entry `j` the day's realized loss had not reached the limit. */
  predicate WithinLoss(cfg: AutoConfig, log: seq<Event>, j: nat)
    requires j < |log|
  {
    log[j].Opened? ==> PnlOn(log[..j], DayOf(log[j].at)) > -cfg.maxDailyLoss
  }

  ghost predicate LossLimitHolds(cfg: AutoConfig, log: seq<Event>) {
    forall j: nat | j < |log| :: WithinLoss(cfg, log, j)
  }

  /** Nothing is exited and entered again in one cycle. */
  ghost predicate NoWhipsaw(log: seq<Event>) {
    forall i: nat, j: nat | i < j < |log| && log[i].Closed? && log[j].Opened? && log[i].key == log[j].key ::
      log[i].cycle != log[j].cycle
  }

  /** The promises about everything traded since the start. */
  ghost predicate CapsHold(cfg: AutoConfig, log: seq<Event>) {
    DailyLimitHolds(cfg, log) && CooldownHolds(cfg, log) && LossLimitHolds(cfg, log) && NoWhipsaw(log)
  }

  /** Every penalty so far is covered by the cooldown in force. */
  ghost predicate Penalized(cfg: AutoConfig, cooldownUntil: Option<int>, log: seq<Event>) {
    forall i: nat | i < |log| && Penalty(cfg, log, i) ::
      cooldownUntil.Some? && cooldownUntil.value >= log[i].at + cfg.cooldown
  }

  /** The cooldown in force stems from a penalty. */
  ghost predicate Earned(cfg: AutoConfig, cooldownUntil: Option<int>, log: seq<Event>) {
    cooldownUntil.Some? ==>
      exists i: nat :: i < |log| && Penalty(cfg, log, i) && cooldownUntil.value == log[i].at + cfg.cooldown
  }

  /** The gate's counters are what the log says, as of clock reading `t`. */
  ghost predicate Tracks(cfg: AutoConfig, r: Risk, log: seq<Event>, t: int) {
    && (forall i | 0 <= i < |log| :: log[i].at <= t)
    && r.streak == LossStreak(log)
    && (r.day.None? ==> log == [])
    && (r.day.Some? ==>
          && r.day.value <= DayOf(t)
          && r.trades == OpensOn(log, r.day.value) && r.pnl == PnlOn(log, r.day.value)
          && forall i | 0 <= i < |log| :: DayOf(log[i].at) <= r.day.value)
    && Penalized(cfg, r.cooldownUntil, log) && Earned(cfg, r.cooldownUntil, log)
    && (r.cooldownUntil.Some? ==> r.cooldownUntil.value <= t + cfg.cooldown)
  }

  lemma {:induction false} NothingOnLaterDays(log: seq<Event>, day: int)
    requires forall i | 0 <= i < |log| :: DayOf(log[i].at) < day
    ensures OpensOn(log, day) == 0 && PnlOn(log, day) == 0.0
  {
    if log != [] { NothingOnLaterDays(log[..|log| - 1], day); }
  }

  /** Rolling to the current day is right whether or not anything happened today. */
  lemma RollingTracks(cfg: AutoConfig, r: Risk, log: seq<Event>, t: int, now: int)
    requires Tracks(cfg, r, log, t) && t <= now
    ensures Tracks(cfg, Rolled(r, now), log, now)
    ensures Rolled(r, now).trades == OpensOn(log, DayOf(now)) && Rolled(r, now).pnl == PnlOn(log, DayOf(now))
  {
    DaysAscend(t, now);
    if r.day != Some(DayOf(now)) { NothingOnLaterDays(log, DayOf(now)); }
  }

  lemma CountsGrow(log: seq<Event>, e: Event)
    ensures forall day ::
              OpensOn(log + [e], day) == OpensOn(log, day) + if e.Opened? && DayOf(e.at) == day then 1 else 0
    ensures forall day ::
              PnlOn(log + [e], day) == PnlOn(log, day) + if e.Closed? && DayOf(e.at) == day then e.pnl else 0.0
    ensures LossStreak(log + [e])
         == if e.Opened? then LossStreak(log) else if e.pnl < 0.0 then LossStreak(log) + 1 else 0
  {
    assert (log + [e])[..|log|] == log;
  }

  lemma PastStays(cfg: AutoConfig, log: seq<Event>, e: Event, i: nat)
    requires i < |log|
    ensures Penalty(cfg, log + [e], i) <==> Penalty(cfg, log, i)
    ensures WithinLoss(cfg, log + [e], i) <==> WithinLoss(cfg, log, i)
  {
    assert (log + [e])[..i + 1] == log[..i + 1];
    assert (log + [e])[..i] == log[..i];
  }

  lemma CooldownGrows(cfg: AutoConfig, log: seq<Event>, e: Event, before: Option<int>)
    requires CooldownHolds(cfg, log) && Penalized(cfg, before, log)
    requires e.Opened? && before.Some? ==> e.at >= before.value
    ensures CooldownHolds(cfg, log + [e])
  {
    hide Penalty;
    var more := log + [e];
    forall i: nat, j: nat | i < j < |more| && Penalty(cfg, more, i) && more[j].Opened?
      ensures more[j].at >= more[i].at + cfg.cooldown
    {
      PastStays(cfg, log, e, i);
      assert more[i] == log[i];
    }
  }

  lemma LossLimitGrows(cfg: AutoConfig, log: seq<Event>, e: Event)
    requires LossLimitHolds(cfg, log)
    requires e.Opened? ==> PnlOn(log, DayOf(e.at)) > -cfg.maxDailyLoss
    ensures LossLimitHolds(cfg, log + [e])
  {
    var more := log + [e];
    forall j: nat | j < |more| ensures WithinLoss(cfg, more, j) {
      if j < |log| { PastStays(cfg, log, e, j); } else { assert more[..j] == log; }
    }
  }

  lemma WhipsawGrows(log: seq<Event>, e: Event)
    requires NoWhipsaw(log)
    requires e.Opened? ==> forall i | 0 <= i < |log| && log[i].Closed? && log[i].cycle == e.cycle :: log[i].key != e.key
    ensures NoWhipsaw(log + [e])
  {
  }

  lemma PenaltiesGrow(cfg: AutoConfig, log: seq<Event>, e: Event, before: Option<int>, after: Option<int>)
    requires Penalized(cfg, before, log)
    requires before.Some? ==> after.Some? && after.value >= before.value
    requires e.Closed? && e.pnl < 0.0 && LossStreak(log + [e]) >= cfg.cooldownAfterLosses ==>
               after.Some? && after.value >= e.at + cfg.cooldown
    ensures Penalized(cfg, after, log + [e])
  {
    var more := log + [e];
    forall i: nat | i < |more| && Penalty(cfg, more, i)
      ensures after.Some? && after.value >= more[i].at + cfg.cooldown
    {
      if i < |log| {
        PastStays(cfg, log, e, i);
      } else {
        assert more[..i + 1] == more;
      }
    }
  }

  lemma EarnedStays(cfg: AutoConfig, log: seq<Event>, e: Event, cooldownUntil: Option<int>)
    requires Earned(cfg, cooldownUntil, log)
    ensures Earned(cfg, cooldownUntil, log + [e])
  {
    if cooldownUntil.Some? {
      var i: nat :| i < |log| && Penalty(cfg, log, i) && cooldownUntil.value == log[i].at + cfg.cooldown;
      PastStays(cfg, log, e, i);
      assert (log + [e])[i] == log[i];
    }
  }

  lemma EarnedNow(cfg: AutoConfig, log: seq<Event>, e: Event)
    requires e.Closed? && e.pnl < 0.0 && LossStreak(log + [e]) >= cfg.cooldownAfterLosses
    ensures Earned(cfg, Some(e.at + cfg.cooldown), log + [e])
  {
    var more, n: nat := log + [e], |log|;
    assert more[..n + 1] == more && Penalty(cfg, more, n);
  }

  /** What the gate allows, read off the log: an entry is allowed if and only if
      there is room for a position, the day's entries and its realized loss are
      below their limits, and no loss that completed a streak is closer than
      the cooldown. */
  lemma AllowedExactly(cfg: AutoConfig, r: Risk, log: seq<Event>, open: int, t: int, now: int)
    requires Tracks(cfg, r, log, t) && t <= now
    ensures EntryAllowed(cfg, Rolled(r, now), open, now)
            <==> && open < cfg.maxOpenPositions && OpensOn(log, DayOf(now)) < cfg.maxDailyTrades
                 && PnlOn(log, DayOf(now)) > -cfg.maxDailyLoss
                 && forall i: nat | i < |log| && Penalty(cfg, log, i) :: now >= log[i].at + cfg.cooldown
  {
    hide OpensOn, PnlOn, LossStreak, DayOf, Penalty;
    RollingTracks(cfg, r, log, t, now);
  }

  /** An entry the gate allows keeps every promise. */
  lemma OpeningKeepsCaps(cfg: AutoConfig, r: Risk, log: seq<Event>, open: int, key: Key, now: int, cycle: nat)
    requires Tracks(cfg, r, log, now) && CapsHold(cfg, log)
    requires r.day == Some(DayOf(now)) && EntryAllowed(cfg, r, open, now)
    requires forall i | 0 <= i < |log| && log[i].Closed? && log[i].cycle == cycle :: log[i].key != key
    ensures var more := log + [Opened(key, now, cycle)];
            CapsHold(cfg, more) && Tracks(cfg, AfterOpening(r, now), more, now)
  {
    hide OpensOn, PnlOn, LossStreak, DayOf, CooldownHolds, LossLimitHolds, NoWhipsaw, Penalized, Earned;
    var e := Opened(key, now, cycle);
    EarnedStays(cfg, log, e, r.cooldownUntil);
    CountsGrow(log, e);
    CooldownGrows(cfg, log, e, r.cooldownUntil);
    LossLimitGrows(cfg, log, e);
    WhipsawGrows(log, e);
    PenaltiesGrow(cfg, log, e, r.cooldownUntil, r.cooldownUntil);
  }

  /** Booking a close keeps every promise and the counters in step. */
  lemma ClosingKeepsCaps(cfg: AutoConfig, r: Risk, log: seq<Event>, key: Key, pnl: real, t: int, now: int, cycle: nat)
    requires Tracks(cfg, r, log, t) && CapsHold(cfg, log) && t <= now && cfg.cooldown > 0
    ensures var more := log + [Closed(key, pnl, now, cycle)];
            CapsHold(cfg, more) && Tracks(cfg, AfterClosing(cfg, r, pnl, now), more, now)
  {
    hide OpensOn, PnlOn, LossStreak, DayOf, CooldownHolds, LossLimitHolds, NoWhipsaw, Penalized, Earned;
    var e := Closed(key, pnl, now, cycle);
    EarnedStays(cfg, log, e, r.cooldownUntil);
    RollingTracks(cfg, r, log, t, now);
    CountsGrow(log, e);
    if pnl < 0.0 && r.streak + 1 >= cfg.cooldownAfterLosses { EarnedNow(cfg, log, e); }
    CooldownGrows(cfg, log, e, r.cooldownUntil);
    LossLimitGrows(cfg, log, e);
    WhipsawGrows(log, e);
    PenaltiesGrow(cfg, log, e, r.cooldownUntil, AfterClosing(cfg, r, pnl, now).cooldownUntil);
  }
}
