/** Shared vocabulary of the paper exchange: enumerations, records and the
    validity predicates that the original attaches to its frozen models. */
module Domain {

  datatype Option<+T> = None | Some(value: T) {
    function GetOr(default: T): T {
      match this
      case Some(v) => v
      case None => default
    }
  }

  /** What the original raises. */
  datatype Error =
    | InvalidArgument
    | InsufficientCash(requested: real, available: real)
    | OverRelease(amount: real, reserved: real)
    | OrderNotFound
    | InvalidOrderState
    | ValidationFailed
    | DivisionByZero
    | QuoteUnavailable
    | RiskLimitExceeded
    | PositionNotFound

  datatype Result<+T> = Ok(value: T) | Err(error: Error) {
    predicate IsFailure() { Err? }
    function PropagateFailure<U>(): Result<U>
      requires Err?
    {
      Err(error)
    }
    function Extract(): T
      requires Ok?
    {
      value
    }
  }

  /** The result of an operation that either returns nothing or raises. */
  datatype Outcome = Pass | Fail(error: Error) {
    predicate IsFailure() { Fail? }
    function PropagateFailure<U>(): Result<U>
      requires Fail?
    {
      Err(error)
    }
  }

  /** Slack of every cash comparison. */
  const EPSILON: real := 0.000001

  datatype Exchange = NSE | BSE | NFO | BFO | MCX | CDS

  /** Positions and matching are per instrument: an exchange and a symbol. */
  datatype Key = Key(exchange: Exchange, symbol: string)

  datatype Side = Buy | Sell {
    function Opposite(): Side { if Buy? then Sell else Buy }
    function Sign(): int { if Buy? then 1 else -1 }
  }

  datatype OrderType = Market | Limit | Stop | StopLimit | TrailingStop {
    predicate WaitsForTrigger() { Stop? || StopLimit? || TrailingStop? }
    predicate HasLimit() { Limit? || StopLimit? }
  }

  datatype Status = Open | TriggerPending | Complete | Cancelled | Rejected {
    predicate Resting() { Open? || TriggerPending? }
  }

  function Abs(x: real): real { if x < 0.0 then -x else x }

  function Max(x: real, y: real): real { if x < y then y else x }

  function Min(x: real, y: real): real { if y < x then y else x }

  /** Price times quantity. */
  function Cost(quantity: int, price: real): real { quantity as real * price }

  predicate PositiveIfSet(x: Option<real>) { x.Some? ==> x.value > 0.0 }

  /** A request to place an order. */
  datatype PaperOrderRequest = PaperOrderRequest(
    key: Key, side: Side, orderType: OrderType, quantity: int,
    price: Option<real>, trigger: Option<real>,
    trailingAmount: Option<real>, trailingPercent: Option<real>,
    stopLoss: Option<real>, target: Option<real>)
  {
    predicate Valid() {
      && quantity > 0
      && PositiveIfSet(price) && PositiveIfSet(trigger)
      && PositiveIfSet(trailingAmount) && PositiveIfSet(trailingPercent)
      && (trailingPercent.Some? ==> trailingPercent.value <= 100.0)
      && PositiveIfSet(stopLoss) && PositiveIfSet(target)
      && (orderType.HasLimit() ==> price.Some?)
      && (orderType.Stop? || orderType.StopLimit? ==> trigger.Some?)
      && (orderType.TrailingStop? ==> trailingAmount.Some? != trailingPercent.Some?)
      && (price.Some? && stopLoss.Some? ==>
            if side.Buy? then stopLoss.value < price.value else stopLoss.value > price.value)
      && (price.Some? && target.Some? ==>
            if side.Buy? then target.value > price.value else target.value < price.value)
    }
  }

  /** A PATCH-style modification: only the fields that are set change. */
  datatype OrderModification = OrderModification(
    orderId: nat, quantity: Option<int>, price: Option<real>, trigger: Option<real>)
  {
    predicate Valid() {
      (quantity.Some? ==> quantity.value > 0) && PositiveIfSet(price) && PositiveIfSet(trigger)
    }
  }

  /** The life-cycle record of one order.  Its id is its position in the
      insertion-ordered order dictionary, so it is not a field. */
  datatype PaperOrder = PaperOrder(
    key: Key, side: Side, orderType: OrderType,
    quantity: int, filledQuantity: int,
    price: Option<real>, trigger: Option<real>,
    trailingAmount: Option<real>, trailingPercent: Option<real>,
    averageFillPrice: Option<real>, status: Status,
    stopLoss: Option<real>, target: Option<real>,
    parent: Option<nat>, ocoGroup: Option<nat>,
    createdAt: int, updatedAt: int)
  {
    /** The validator of the original's order model. */
    predicate Valid() {
      && quantity > 0 && 0 <= filledQuantity <= quantity
      && PositiveIfSet(price) && PositiveIfSet(trigger)
      && PositiveIfSet(trailingAmount) && PositiveIfSet(trailingPercent)
      && (trailingPercent.Some? ==> trailingPercent.value <= 100.0)
      && PositiveIfSet(averageFillPrice) && PositiveIfSet(stopLoss) && PositiveIfSet(target)
      && (status.Complete? ==> filledQuantity == quantity && averageFillPrice.Some?)
    }

    predicate Resting() { status.Resting() }

    /** The prices the order's type needs are there. */
    predicate Priced() {
      && (orderType.HasLimit() ==> price.Some?)
      && (orderType.WaitsForTrigger() ==> trigger.Some?)
      && (orderType.TrailingStop? ==> trailingAmount.Some? != trailingPercent.Some?)
    }

    /** `fill` is no worse than the order's limit, if it has one. */
    predicate WithinLimit(fill: real) {
      orderType.HasLimit() && price.Some? ==>
        if side.Buy? then fill <= price.value else fill >= price.value
    }

    /** The per-unit amount a resting BUY order reserves. */
    function WorstCase(): Option<real> { if price.Some? then price else trigger }

    /** A resting order of this kind holds a cash reservation. */
    predicate Reserves() { Resting() && side.Buy? && !orderType.Market? }
  }

  /** What holds of every order the exchange ever stores. */
  predicate WellFormed(o: PaperOrder) {
    && o.Valid() && o.Priced()
    && (o.status.TriggerPending? ==> o.orderType.WaitsForTrigger())
    && (o.status.Open? ==> !o.orderType.Stop? && !o.orderType.TrailingStop?)
    && (o.status.Complete? <==> o.averageFillPrice.Some?)
    && (!o.status.Complete? ==> o.filledQuantity == 0)
    && (o.status.Complete? ==> o.WithinLimit(o.averageFillPrice.value))
    && (o.parent.Some? <==> o.ocoGroup.Some?)
    && (o.parent.Some? ==> (o.orderType.Stop? || o.orderType.Limit?) && o.stopLoss.None? && o.target.None?)
  }

  /** A stored order: the type makes each rewrite of an order prove it stays well formed. */
  type Order = o: PaperOrder | WellFormed(o)
    witness PaperOrder(Key(NSE, "S"), Buy, Market, 1, 0, None, None, None, None, None,
                       Open, None, None, None, None, 0, 0)

  /** One round trip, or part of one. */
  datatype ClosedTrade = ClosedTrade(
    key: Key, side: Side, quantity: int, entryPrice: real, exitPrice: real,
    stopLoss: Option<real>, target: Option<real>, pnl: real,
    entryOrder: nat, exitOrder: nat, entryTime: int, exitTime: int)
  {
    predicate Valid() {
      && quantity > 0 && entryPrice > 0.0 && exitPrice > 0.0
      && PositiveIfSet(stopLoss) && PositiveIfSet(target)
      && exitTime >= entryTime
      && var expected := if side.Buy? then Cost(quantity, exitPrice - entryPrice)
                         else Cost(quantity, entryPrice - exitPrice);
         Abs(pnl - expected) <= EPSILON
    }
  }

  /** The visible net position in one instrument; negative is short. */
  datatype PaperPosition = PaperPosition(
    key: Key, quantity: int, averagePrice: real, lastPrice: real,
    realizedPnl: real, unrealizedPnl: real, openedAt: int, updatedAt: int)
  {
    predicate Valid() {
      && averagePrice >= 0.0 && lastPrice > 0.0
      && (quantity != 0 ==> averagePrice > 0.0)
      && Abs(unrealizedPnl - Cost(quantity, lastPrice - averagePrice)) <= EPSILON
    }
  }
}
