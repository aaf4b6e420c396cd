/** When a resting order fires at a price, and how a price ratchets it. */
module Matching {
  import opened Domain

  predicate Marketable(o: PaperOrder, price: real)
    requires o.price.Some?
  {
    if o.side.Buy? then price <= o.price.value else price >= o.price.value
  }

  predicate Triggered(o: PaperOrder, price: real)
    requires o.trigger.Some?
  {
    if o.side.Buy? then price >= o.trigger.value else price <= o.trigger.value
  }

  function TrailingOffset(amount: Option<real>, percent: Option<real>, price: real): real {
    if amount.Some? then amount.value else price * percent.GetOr(0.0) / 100.0
  }

  function InitialTrailingTrigger(side: Side, price: real, amount: Option<real>, percent: Option<real>): real {
    var offset := TrailingOffset(amount, percent, price);
    if side.Sell? then price - offset else price + offset
  }

  /** The trigger after seeing `price`: it only ever follows a favourable move. */
  function RatchetedTrigger(o: PaperOrder, price: real): real
    requires o.trigger.Some?
  {
    var offset := TrailingOffset(o.trailingAmount, o.trailingPercent, price);
    if o.side.Sell? then Max(o.trigger.value, price - offset) else Min(o.trigger.value, price + offset)
  }

  lemma RatchetStaysPositive(o: Order, price: real)
    requires o.orderType.TrailingStop? && price > 0.0
    ensures RatchetedTrigger(o, price) > 0.0
  {
    if o.trailingAmount.None? {
      assert o.trailingPercent.value > 0.0;
      assert price * o.trailingPercent.value > 0.0;
    }
  }

  /** What one price does to a resting order before any settlement. */
  datatype Decision = Rest(order: Order) | Fill(order: Order)

  function Decide(o: Order, price: real, now: int): (d: Decision)
    requires o.Resting() && price > 0.0
    ensures d.order.Resting()
    ensures d.Fill? ==> d.order.WithinLimit(price)
  {
    match o.orderType
    case Market => Fill(o)
    case Limit => if Marketable(o, price) then Fill(o) else Rest(o)
    case Stop => if Triggered(o, price) then Fill(o) else Rest(o)
    case StopLimit =>
      if o.status.TriggerPending? then
        if Triggered(o, price) then
          var woken: Order := o.(status := Open, updatedAt := now);
          if Marketable(woken, price) then Fill(woken) else Rest(woken)
        else Rest(o)
      else if Marketable(o, price) then Fill(o) else Rest(o)
    case TrailingStop =>
      RatchetStaysPositive(o, price);
      var trigger := RatchetedTrigger(o, price);
      var working: Order := if Some(trigger) != o.trigger then o.(trigger := Some(trigger), updatedAt := now) else o;
      if Triggered(working, price) then Fill(working) else Rest(working)
  }

  /** A price no longer moves the order. */
  ghost predicate Quiet(o: Order, price: real)
    requires price > 0.0
  {
    o.Resting() ==> forall now: int :: Decide(o, price, now) == Rest(o)
  }

  /** Looking at the same price twice is looking at it once. */
  lemma RestedIsQuiet(o: Order, price: real, now: int)
    requires o.Resting() && price > 0.0
    requires Decide(o, price, now).Rest?
    ensures Quiet(Decide(o, price, now).order, price)
  {
  }
}
