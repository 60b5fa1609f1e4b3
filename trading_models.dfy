/**
 * The records of the trading app: a Position (one futures position opened
 * for a Signal) and an Order (one order placed on the exchange for a
 * Position), with their closed choice sets and declared defaults.
 */
module TradingModels {
  import opened Wrappers

  datatype PositionStatus = Pending | Open | PartiallyClosed | Closed | Failed | Cancelled

  datatype OrderSide = OpenLong | OpenShort | CloseLong | CloseShort

  datatype OrderStatus = Pending | Submitted | Filled | PartiallyFilled | Cancelled | Failed

  function PositionStatusCode(s: PositionStatus): string {
    match s
    case Pending => "pending"
    case Open => "open"
    case PartiallyClosed => "partially_closed"
    case Closed => "closed"
    case Failed => "failed"
    case Cancelled => "cancelled"
  }

  /** The position status stored under `s`, if any: the six codes and nothing else. */
  function PositionStatusFromCode(s: string): (r: Option<PositionStatus>)
    ensures r.Some? ==> PositionStatusCode(r.value) == s
    ensures r.None? ==> forall st :: PositionStatusCode(st) != s
  {
    if s == "pending" then Some(PositionStatus.Pending)
    else if s == "open" then Some(PositionStatus.Open)
    else if s == "partially_closed" then Some(PositionStatus.PartiallyClosed)
    else if s == "closed" then Some(PositionStatus.Closed)
    else if s == "failed" then Some(PositionStatus.Failed)
    else if s == "cancelled" then Some(PositionStatus.Cancelled)
    else None
  }

  /** The string an order side is stored and sent to the exchange as. */
  function SideCode(s: OrderSide): string {
    match s
    case OpenLong => "open_long"
    case OpenShort => "open_short"
    case CloseLong => "close_long"
    case CloseShort => "close_short"
  }

  /** The order side stored under `s`, if any: the four codes and nothing else. */
  function SideFromCode(s: string): (r: Option<OrderSide>)
    ensures r.Some? ==> SideCode(r.value) == s
    ensures r.None? ==> forall d :: SideCode(d) != s
  {
    if s == "open_long" then Some(OpenLong)
    else if s == "open_short" then Some(OpenShort)
    else if s == "close_long" then Some(CloseLong)
    else if s == "close_short" then Some(CloseShort)
    else None
  }

  function OrderStatusCode(s: OrderStatus): string {
    match s
    case Pending => "pending"
    case Submitted => "submitted"
    case Filled => "filled"
    case PartiallyFilled => "partially_filled"
    case Cancelled => "cancelled"
    case Failed => "failed"
  }

  /** The order status stored under `s`, if any: the six codes and nothing else. */
  function OrderStatusFromCode(s: string): (r: Option<OrderStatus>)
    ensures r.Some? ==> OrderStatusCode(r.value) == s
    ensures r.None? ==> forall st :: OrderStatusCode(st) != s
  {
    if s == "pending" then Some(OrderStatus.Pending)
    else if s == "submitted" then Some(OrderStatus.Submitted)
    else if s == "filled" then Some(OrderStatus.Filled)
    else if s == "partially_filled" then Some(OrderStatus.PartiallyFilled)
    else if s == "cancelled" then Some(OrderStatus.Cancelled)
    else if s == "failed" then Some(OrderStatus.Failed)
    else None
  }

  /** Every choice reads back from its code. */
  lemma TradingCodesRoundTrip(p: PositionStatus, d: OrderSide, o: OrderStatus)
    ensures PositionStatusFromCode(PositionStatusCode(p)) == Some(p)
    ensures SideFromCode(SideCode(d)) == Some(d)
    ensures OrderStatusFromCode(OrderStatusCode(o)) == Some(o)
  {
  }

  /** The sides that reduce a position. */
  predicate IsCloseSide(s: OrderSide) {
    s == CloseLong || s == CloseShort
  }

  /**
   * One Position row. `signal` is the index of its Signal; `side` is the
   * direction text it was opened with; times are instants on an abstract clock.
   */
  datatype Position = Position(
    signal: nat,
    symbol: string,
    side: string,
    leverage: int,
    marginType: string,
    entryPrice: Option<real>,
    quantity: real,
    remainingQuantity: real,
    marginUsed: real,
    currentStopLoss: Option<real>,
    currentTp: Option<real>,
    realizedPnl: real,
    unrealizedPnl: real,
    status: PositionStatus,
    openedAt: Option<int>,
    closedAt: Option<int>,
    createdAt: int)

  /** A Position built from its required columns only: every other column takes its declared default. */
  function DefaultPosition(signal: nat, symbol: string, side: string, now: int): (p: Position)
    ensures p.status == PositionStatus.Pending
    ensures p.quantity == 0.0 && p.remainingQuantity == 0.0 && p.marginUsed == 0.0
    ensures p.realizedPnl == 0.0 && p.unrealizedPnl == 0.0
    ensures p.leverage == 8 && p.marginType == "isolated"
    ensures p.entryPrice.None? && p.currentStopLoss.None? && p.currentTp.None?
    ensures p.openedAt.None? && p.closedAt.None?
    ensures p.signal == signal && p.symbol == symbol && p.side == side && p.createdAt == now
  {
    Position(signal, symbol, side, 8, "isolated", None, 0.0, 0.0, 0.0, None, None, 0.0, 0.0,
             PositionStatus.Pending, None, None, now)
  }

  /** One Order row; `position` is the index of its Position. */
  datatype Order = Order(
    position: nat,
    lbankOrderId: string,
    side: OrderSide,
    orderType: string,
    price: Option<real>,
    quantity: real,
    filledQuantity: real,
    filledPrice: Option<real>,
    status: OrderStatus,
    errorMessage: string,
    createdAt: int)

  /** An Order built from its required columns only: every other column takes its declared default. */
  function DefaultOrder(position: nat, side: OrderSide, quantity: real, now: int): (o: Order)
    ensures o.status == OrderStatus.Pending && o.orderType == "limit"
    ensures o.lbankOrderId == "" && o.errorMessage == ""
    ensures o.filledQuantity == 0.0 && o.price.None? && o.filledPrice.None?
    ensures o.position == position && o.side == side && o.quantity == quantity && o.createdAt == now
  {
    Order(position, "", side, "limit", None, quantity, 0.0, None, OrderStatus.Pending, "", now)
  }
}
