/**
 * The position manager: turns a parsed signal into exchange calls and
 * records, and applies follow-up updates (stop-loss moves, partial and full
 * closes) to the position opened for the matching signal.
 *
 * Each entry point is a method of `PositionManager` that works step by step
 * on the database and the exchange; each is proved equal to an effect
 * function (`NewSignalEffect`, `UpdateEffect`, one per handler) that says,
 * from the tables before the call and the exchange's answers, what the
 * outcome, the tables after the call and the calls made are.
 */
module Manager {
  import opened Wrappers
  import opened Text
  import opened Search
  import opened SignalModels
  import opened TradingModels
  import opened LBankClient
  import opened Exchange
  import opened Database

  /**
   * The settings the manager reads (`MAX_OPEN_POSITIONS`,
   * `DEFAULT_RISK_PERCENT`) and the decimal rendering `str()` gives a price or
   * a quantity.
   */
  datatype Config = Config(maxOpenPositions: int, defaultRiskPercent: real, decimalText: real -> string)

  /**
   * The JSON object the parser produced, restricted to the keys the manager
   * reads. Each key is absent, null or present (`parsed.get` tells null from
   * absent by returning None rather than the default).
   */
  datatype Parsed = Parsed(
    messageType: Field<string>,
    symbol: Field<string>,
    direction: Field<string>,
    entryPriceLow: Field<real>,
    entryPriceHigh: Field<real>,
    stopLoss: Field<real>,
    takeProfits: Field<seq<real>>,
    riskPercent: Field<real>,
    leverage: Field<int>,
    marginType: Field<string>,
    confidence: Field<real>,
    tpNumber: Field<int>,
    newStopLoss: Field<real>,
    closePercentage: Field<real>,
    profitPercent: Field<real>)

  /** The Telegram message a signal or update came from. */
  datatype TelegramMessage = TelegramMessage(id: int, chatId: int, text: Option<string>)

  /** What an entry point did: its outcome, the tables it left and the exchange calls it made, in order. */
  datatype Run<O> = Run(outcome: O, tables: Tables, calls: seq<Endpoint>)

  /** `handle_new_signal` returns None, raises, or returns the Signal it inserted. */
  datatype NewSignalOutcome = Refused | Escaped | Returned(signal: nat)

  /** `handle_update` finds no signal, has no handler, raises, or ran a handler to the end. */
  datatype UpdateOutcome = NoActiveSignal | Unhandled | UpdateEscaped | Dispatched

  /** Whether a handler ran to the end or raised. */
  datatype Flow = Finished | HandlerEscaped

  /** Python truthiness of an optional string: present and non-empty. */
  predicate TruthyText(o: Option<string>) {
    o.Some? && o.value != ""
  }

  /** Python truthiness of an optional number: present and non-zero. */
  predicate TruthyNumber(o: Option<real>) {
    o.Some? && o.value != 0.0
  }

  // ---------------------------------------------------------------------------
  // Pure pieces: normalisation, rounding, sizing, look-ups.

  /** `s.replace("/", "").upper()`: the exchange's spelling of a pair ("eth/usdt" gives "ETHUSDT"). */
  function Normalize(s: string): string {
    Upper(ReplaceAll(s, "/", ""))
  }

  /** Python's `round(d, 4)` on a Decimal: the nearest multiple of 1/10000, a tie going to the even multiple. */
  function Round4(x: real): (r: real)
    ensures (r * 10000.0).Floor as real == r * 10000.0
    ensures -0.00005 <= r - x <= 0.00005
  {
    var y := x * 10000.0;
    var f := y.Floor;
    var d := y - f as real;
    var n := if d < 0.5 then f else if d > 0.5 then f + 1 else if f % 2 == 0 then f else f + 1;
    n as real / 10000.0
  }

  function Abs(x: real): (r: real)
    ensures r >= 0.0 && (r == x || r == -x)
  {
    if x < 0.0 then -x else x
  }

  /**
   * The sizing rule: the amount at risk is balance × risk% / 100 and the size
   * is that amount × leverage over the distance from entry to stop; there is
   * no size when the stop sits on the entry.
   */
  function PositionSize(balance: real, riskPercent: real, leverage: int, entry: real, stop: real): (r: Option<real>)
    ensures r.None? <==> entry == stop
    ensures r.Some? ==> r.value * Abs(entry - stop) == balance * riskPercent / 100.0 * leverage as real
  {
    var riskAmount := balance * riskPercent / 100.0;
    var distance := Abs(entry - stop);
    if distance == 0.0 then None else Some(riskAmount * leverage as real / distance)
  }

  /** A Signal an update can attach to: NEW or ACTIVE. */
  predicate Live(s: Signal) {
    s.status == SignalStatus.Active || s.status == SignalStatus.New
  }

  /** The pair spelling an exact match is tried against ("ETHUSDT" gives "ETH/USDT"). */
  function ExactPattern(symbol: string): string {
    ReplaceAll(symbol, "USDT", "/USDT")
  }

  /** The base currency a loose match searches for ("ETHUSDT" gives "ETH"). */
  function LoosePattern(symbol: string): string {
    ReplaceAll(symbol, "USDT", "")
  }

  predicate ExactMatch(s: Signal, symbol: string) {
    Live(s) && EqualsIgnoreCase(s.symbol, ExactPattern(symbol))
  }

  predicate LooseMatch(s: Signal, symbol: string) {
    Live(s) && ContainsIgnoreCase(s.symbol, LoosePattern(symbol))
  }

  /**
   * `_find_active_signal`: the most recent live Signal whose symbol equals the
   * pair up to case; failing that, the most recent one whose symbol contains
   * the base currency; with no symbol, the most recent live Signal.
   */
  function FindActiveSignal(signals: seq<Signal>, symbol: Option<string>): (r: Option<nat>)
    ensures r.Some? ==> r.value < |signals| && Live(signals[r.value])
    ensures !TruthyText(symbol) ==>
      (r.None? <==> forall j :: 0 <= j < |signals| ==> !Live(signals[j]))
      && (r.Some? ==> forall j :: r.value < j < |signals| ==> !Live(signals[j]))
    ensures TruthyText(symbol) && (exists j :: 0 <= j < |signals| && ExactMatch(signals[j], symbol.value)) ==>
      r.Some? && ExactMatch(signals[r.value], symbol.value)
      && forall j :: r.value < j < |signals| ==> !ExactMatch(signals[j], symbol.value)
    ensures TruthyText(symbol) && (forall j :: 0 <= j < |signals| ==> !ExactMatch(signals[j], symbol.value)) ==>
      (r.None? <==> forall j :: 0 <= j < |signals| ==> !LooseMatch(signals[j], symbol.value))
      && (r.Some? ==> LooseMatch(signals[r.value], symbol.value)
                      && forall j :: r.value < j < |signals| ==> !LooseMatch(signals[j], symbol.value))
  {
    if TruthyText(symbol) then
      var exact := LatestWhere(signals, (s: Signal) => ExactMatch(s, symbol.value));
      if exact.Some? then exact
      else LatestWhere(signals, (s: Signal) => LooseMatch(s, symbol.value))
    else LatestWhere(signals, Live)
  }

  /** The statuses a handler acts on: OPEN or PENDING, and PARTIALLY_CLOSED as well for a full close. */
  predicate Eligible(st: PositionStatus, withPartial: bool) {
    st == PositionStatus.Open || st == PositionStatus.Pending || (withPartial && st == PositionStatus.PartiallyClosed)
  }

  /** The most recent eligible Position of Signal `si`. */
  function PositionFor(positions: seq<Position>, si: nat, withPartial: bool): (r: Option<nat>)
    ensures r.Some? ==> r.value < |positions| && positions[r.value].signal == si
                        && Eligible(positions[r.value].status, withPartial)
    ensures r.Some? ==> forall j :: r.value < j < |positions| ==>
                          !(positions[j].signal == si && Eligible(positions[j].status, withPartial))
    ensures r.None? ==> forall j :: 0 <= j < |positions| ==>
                          !(positions[j].signal == si && Eligible(positions[j].status, withPartial))
  {
    LatestWhere(positions, (q: Position) => q.signal == si && Eligible(q.status, withPartial))
  }

  /** The side that closes a position opened in direction `d`. */
  function CloseSide(d: SignalDirection): (s: OrderSide)
    ensures IsCloseSide(s)
    ensures s == CloseLong <==> d == Long
  {
    if DirectionCode(d) == "long" then CloseLong else CloseShort
  }

  // ---------------------------------------------------------------------------
  // handle_new_signal

  /** The four fields without which a signal is refused: symbol, direction, entry and stop, all truthy. */
  predicate Complete(p: Parsed) {
    TruthyText(p.symbol.GetWithDefault(""))
    && TruthyText(p.direction.GetWithDefault(""))
    && TruthyNumber(p.entryPriceLow.Get())
    && TruthyNumber(p.stopLoss.Get())
  }

  /** The `i`-th take-profit, when the list is long enough. */
  function TakeProfit(tps: seq<real>, i: nat): Option<real> {
    if |tps| > i then Some(tps[i]) else None
  }

  /**
   * The Signal row a complete signal inserts, or None when building it
   * raises: a null `take_profits` or `risk_percent` fails before the insert,
   * and a null `leverage`, `margin_type` or `confidence` breaks a NOT NULL
   * column.
   */
  function SignalRecord(p: Parsed, m: TelegramMessage, defaultRisk: real, now: int): (r: Option<Signal>)
    requires Complete(p)
    ensures r.None? <==>
      p.takeProfits.Null? || p.riskPercent.Null? || p.leverage.Null? || p.marginType.Null? || p.confidence.Null?
    ensures r.Some? ==>
      r.value.status == SignalStatus.New && r.value.telegramMsgId == m.id && r.value.telegramChannelId == m.chatId
      && r.value.symbol == p.symbol.value
      && (r.value.direction == Long <==> p.direction.value == "long")
      && r.value.entryPriceLow == p.entryPriceLow.value && r.value.stopLoss == p.stopLoss.value
      && (r.value.entryPriceHigh.Some? <==> TruthyNumber(p.entryPriceHigh.Get()))
  {
    var tps := p.takeProfits.GetWithDefault([]);
    var risk := p.riskPercent.GetWithDefault(defaultRisk);
    var leverage := p.leverage.GetWithDefault(8);
    var marginType := p.marginType.GetWithDefault("isolated");
    var confidence := p.confidence.GetWithDefault(0.0);
    if tps.None? || risk.None? || leverage.None? || marginType.None? || confidence.None? then None
    else
      var high := p.entryPriceHigh.Get();
      Some(Signal(
        m.id, m.chatId, m.text.GetOr(""), "", p.symbol.value,
        if p.direction.value == "long" then Long else Short,
        p.entryPriceLow.value, if TruthyNumber(high) then high else None, p.stopLoss.value,
        TakeProfit(tps.value, 0), TakeProfit(tps.value, 1), TakeProfit(tps.value, 2),
        risk.value, leverage.value, marginType.value, SignalStatus.New, confidence.value, now, None))
  }

  /** What the execution of a signal works from: the normalised pair and the values as parsed. */
  datatype Ticket = Ticket(
    symbol: string,
    direction: string,
    entryLow: real,
    stopLoss: real,
    riskPercent: real,
    leverage: int,
    marginType: string)

  function TicketOf(p: Parsed, s: Signal): Ticket
    requires Complete(p)
  {
    Ticket(Normalize(p.symbol.value), p.direction.value, p.entryPriceLow.value, p.stopLoss.value,
           s.riskPercent, s.leverage, s.marginType)
  }

  /** The Position recorded once the entry order is accepted. */
  function EntryPosition(si: nat, x: Ticket, size: real, now: int): Position {
    Position(si, x.symbol, x.direction, x.leverage, x.marginType, None, size, size, 0.0,
             Some(x.stopLoss), None, 0.0, 0.0, PositionStatus.Pending, None, None, now)
  }

  /** The entry Order recorded beside it. */
  function EntryOrder(pi: nat, orderId: string, side: OrderSide, x: Ticket, size: real, now: int): Order {
    Order(pi, orderId, side, "limit", Some(x.entryLow), size, 0.0, None, OrderStatus.Submitted, "", now)
  }

  /** The side of the entry order: open_long for "long", open_short for anything else. */
  function EntrySide(direction: string): OrderSide {
    if direction == "long" then OpenLong else OpenShort
  }

  /** The calls made, the Signal's final status and the Position and Order recorded, if any. */
  datatype Execution = Execution(calls: seq<Endpoint>, status: SignalStatus, created: Option<Opened>)

  /** The Position and entry Order an accepted entry order leaves. */
  datatype Opened = Opened(position: Position, order: Order)

  /** The body of the `try` block of `handle_new_signal`, for Signal `si` and next position id `pi`. */
  function Execute(decimalText: real -> string, answer: Endpoint -> Reply, x: Ticket, si: nat, pi: nat, now: int): Execution {
    var e1 := SetLeverage(x.symbol, x.leverage);
    var e2 := SetMarginType(x.symbol, x.marginType);
    var e3 := GetAccount("USDT");
    if answer(e1).Failed? then Execution([e1], SignalStatus.Cancelled, None)
    else if answer(e2).Failed? then Execution([e1, e2], SignalStatus.Cancelled, None)
    else if answer(e3).Failed? then Execution([e1, e2, e3], SignalStatus.Cancelled, None)
    else
      var balance := answer(e3).data.availableBalance.GetOr(0.0);
      var size := PositionSize(balance, x.riskPercent, x.leverage, x.entryLow, x.stopLoss);
      if size.None? then Execution([e1, e2, e3], SignalStatus.New, None)
      else
        var side := EntrySide(x.direction);
        var e4 := PlaceOrder(x.symbol, SideCode(side), decimalText(Round4(size.value)),
                             Some(decimalText(x.entryLow)), "limit");
        if answer(e4).Failed? then Execution([e1, e2, e3, e4], SignalStatus.Cancelled, None)
        else
          var created := Opened(EntryPosition(si, x, size.value, now),
                               EntryOrder(pi, answer(e4).data.orderId.GetOr(""), side, x, size.value, now));
          var e5 := SetStopLoss(x.symbol, x.direction, decimalText(x.stopLoss));
          Execution([e1, e2, e3, e4, e5],
                    if answer(e5).Failed? then SignalStatus.Cancelled else SignalStatus.Active,
                    Some(created))
  }

  /** The tables after Signal `si` (just inserted) takes its final status and the records of an execution are added. */
  function Record(t: Tables, si: nat, e: Execution): Tables
    requires si < |t.signals|
  {
    var signals := t.signals[si := t.signals[si].(status := e.status)];
    match e.created
    case None => t.(signals := signals)
    case Some(o) => t.(signals := signals, positions := t.positions + [o.position], orders := t.orders + [o.order])
  }

  /** Everything `handle_new_signal` does, from the tables before it and the exchange's answers. */
  function NewSignalEffect(cfg: Config, answer: Endpoint -> Reply, t: Tables, p: Parsed, m: TelegramMessage, now: int): Run<NewSignalOutcome> {
    if !Complete(p) || OpenCount(t.positions) >= cfg.maxOpenPositions then Run(Refused, t, [])
    else
      var s := SignalRecord(p, m, cfg.defaultRiskPercent, now);
      if s.None? || SignalIdTaken(t.signals, m.id) then Run(Escaped, t, [])
      else
        var e := Execute(cfg.decimalText, answer, TicketOf(p, s.value), |t.signals|, |t.positions|, now);
        Run(Returned(|t.signals|), Record(t.(signals := t.signals + [s.value]), |t.signals|, e), e.calls)
  }

  // ---------------------------------------------------------------------------
  // handle_update and its handlers

  /** The handler table: the seven kinds that have a handler; `info` and anything else have none. */
  function HandlerKind(msgType: Option<string>): (r: Option<UpdateType>)
    ensures r.Some? ==> msgType.Some? && UpdateTypeCode(r.value) == msgType.value && r.value != Info
    ensures r.None? ==> msgType.None? || msgType.value == "info" || forall u :: UpdateTypeCode(u) != msgType.value
  {
    if msgType.None? || msgType.value == "info" then None else UpdateTypeFromCode(msgType.value)
  }

  /** The SignalUpdate row recorded for a handled update. */
  function UpdateRecord(si: nat, p: Parsed, m: TelegramMessage, kind: UpdateType, now: int): SignalUpdate {
    var newSl := p.newStopLoss.Get();
    SignalUpdate(si, m.id, m.text.GetOr(""), kind, p.tpNumber.Get(),
                 if TruthyNumber(newSl) then newSl else None,
                 p.closePercentage.Get(), p.profitPercent.Get(), now)
  }

  /** The part of `remaining` that closing `pct` percent of it closes. */
  function CloseQuantity(remaining: real, pct: real): (c: real)
    ensures pct == 100.0 ==> c == remaining
    ensures pct == 0.0 ==> c == 0.0
  {
    remaining * pct / 100.0
  }

  /** A close order as the close handlers record it: SUBMITTED, market, no price. */
  function CloseOrder(pi: nat, orderId: string, side: OrderSide, quantity: real, now: int): Order {
    Order(pi, orderId, side, "market", None, quantity, 0.0, None, OrderStatus.Submitted, "", now)
  }

  /** A position after `c` of it was closed: CLOSED once nothing remains, PARTIALLY_CLOSED otherwise. */
  function AfterPartialClose(q: Position, c: real, now: int): (r: Position)
    ensures r.remainingQuantity == q.remainingQuantity - c
    ensures r.status == PositionStatus.Closed <==> r.remainingQuantity <= 0.0
    ensures r.status == PositionStatus.Closed || r.status == PositionStatus.PartiallyClosed
    ensures r.closedAt == if r.remainingQuantity <= 0.0 then Some(now) else q.closedAt
    ensures r.(remainingQuantity := q.remainingQuantity, status := q.status, closedAt := q.closedAt) == q
  {
    var remaining := q.remainingQuantity - c;
    if remaining <= 0.0 then q.(remainingQuantity := remaining, status := PositionStatus.Closed, closedAt := Some(now))
    else q.(remainingQuantity := remaining, status := PositionStatus.PartiallyClosed)
  }

  /** A position after a full close: nothing remains, CLOSED, closed now. */
  function AfterFullClose(q: Position, now: int): Position {
    q.(remainingQuantity := 0.0, status := PositionStatus.Closed, closedAt := Some(now))
  }

  /** A position with a new stop loss. */
  function WithStopLoss(q: Position, sl: real): Position {
    q.(currentStopLoss := Some(sl))
  }

  /** `_handle_risk_free`: the stop of the position moves to the signal's entry price. */
  function RiskFreeEffect(cfg: Config, answer: Endpoint -> Reply, t: Tables, si: nat): Run<Flow>
    requires si < |t.signals|
  {
    var signal := t.signals[si];
    var target := PositionFor(t.positions, si, false);
    if target.None? then Run(Finished, t, [])
    else
      var pi := target.value;
      var e := SetStopLoss(Normalize(signal.symbol), DirectionCode(signal.direction), cfg.decimalText(signal.entryPriceLow));
      if answer(e).Failed? then Run(Finished, t, [e])
      else Run(Finished, t.(positions := t.positions[pi := WithStopLoss(t.positions[pi], signal.entryPriceLow)]), [e])
  }

  /** `_handle_sl_modified`: the stop of the position moves to the new stop loss, when there is one. */
  function SlModifiedEffect(cfg: Config, answer: Endpoint -> Reply, t: Tables, si: nat, p: Parsed): Run<Flow>
    requires si < |t.signals|
  {
    var signal := t.signals[si];
    var newSl := p.newStopLoss.Get();
    var target := PositionFor(t.positions, si, false);
    if !TruthyNumber(newSl) || target.None? then Run(Finished, t, [])
    else
      var pi := target.value;
      var e := SetStopLoss(Normalize(signal.symbol), DirectionCode(signal.direction), cfg.decimalText(newSl.value));
      if answer(e).Failed? then Run(Finished, t, [e])
      else Run(Finished, t.(positions := t.positions[pi := WithStopLoss(t.positions[pi], newSl.value)]), [e])
  }

  /**
   * `_handle_partial_close`: `close_percentage` (50 when absent) of what
   * remains is closed at market; a null percentage raises once a position
   * is found.
   */
  function PartialCloseEffect(cfg: Config, answer: Endpoint -> Reply, t: Tables, si: nat, p: Parsed, now: int): Run<Flow>
    requires si < |t.signals|
  {
    var signal := t.signals[si];
    var pct := p.closePercentage.GetWithDefault(50.0);
    var target := PositionFor(t.positions, si, false);
    if target.None? then Run(Finished, t, [])
    else if pct.None? then Run(HandlerEscaped, t, [])
    else
      var pi := target.value;
      var q := t.positions[pi];
      var closeQty := CloseQuantity(q.remainingQuantity, pct.value);
      var side := CloseSide(signal.direction);
      var e := PlaceOrder(Normalize(signal.symbol), SideCode(side), cfg.decimalText(Round4(closeQty)), None, "market");
      if answer(e).Failed? then Run(Finished, t, [e])
      else
        var order := CloseOrder(pi, answer(e).data.orderId.GetOr(""), side, closeQty, now);
        Run(Finished, t.(positions := t.positions[pi := AfterPartialClose(q, closeQty, now)], orders := t.orders + [order]), [e])
  }

  /** `_handle_full_close`: all that remains is closed at market, and the position and signal are CLOSED. */
  function FullCloseEffect(cfg: Config, answer: Endpoint -> Reply, t: Tables, si: nat, now: int): Run<Flow>
    requires si < |t.signals|
  {
    var signal := t.signals[si];
    var target := PositionFor(t.positions, si, true);
    if target.None? then Run(Finished, t, [])
    else
      var pi := target.value;
      var q := t.positions[pi];
      var side := CloseSide(signal.direction);
      var e := PlaceOrder(Normalize(signal.symbol), SideCode(side), cfg.decimalText(Round4(q.remainingQuantity)), None, "market");
      if answer(e).Failed? then Run(Finished, t, [e])
      else
        var order := CloseOrder(pi, answer(e).data.orderId.GetOr(""), side, q.remainingQuantity, now);
        Run(Finished, Tables(t.signals[si := signal.(status := SignalStatus.Closed)], t.updates,
                             t.positions[pi := AfterFullClose(q, now)], t.orders + [order]), [e])
  }

  /** The handler an update kind runs; entry and take-profit hits do nothing (info never gets here). */
  function Dispatch(cfg: Config, answer: Endpoint -> Reply, t: Tables, si: nat, kind: UpdateType, p: Parsed, now: int): Run<Flow>
    requires si < |t.signals|
  {
    match kind
    case EntryHit => Run(Finished, t, [])
    case TpHit => Run(Finished, t, [])
    case Info => Run(Finished, t, [])
    case RiskFree => RiskFreeEffect(cfg, answer, t, si)
    case PartialClose => PartialCloseEffect(cfg, answer, t, si, p, now)
    case FullClose => FullCloseEffect(cfg, answer, t, si, now)
    case PositionClosed => FullCloseEffect(cfg, answer, t, si, now)
    case SlModified => SlModifiedEffect(cfg, answer, t, si, p)
  }

  /** The symbol an update is matched on: normalised when truthy, none otherwise. */
  function UpdateSymbol(p: Parsed): Option<string> {
    var raw := p.symbol.GetWithDefault("");
    if TruthyText(raw) then Some(Normalize(raw.value)) else None
  }

  /** Everything `handle_update` does, from the tables before it and the exchange's answers. */
  function UpdateEffect(cfg: Config, answer: Endpoint -> Reply, t: Tables, p: Parsed, m: TelegramMessage, now: int): Run<UpdateOutcome> {
    var found := FindActiveSignal(t.signals, UpdateSymbol(p));
    var kind := HandlerKind(p.messageType.GetWithDefault(""));
    if found.None? then Run(NoActiveSignal, t, [])
    else if kind.None? then Run(Unhandled, t, [])
    else if UpdateIdTaken(t.updates, m.id) then Run(UpdateEscaped, t, [])
    else
      var si := found.value;
      var h := Dispatch(cfg, answer, t.(updates := t.updates + [UpdateRecord(si, p, m, kind.value, now)]), si, kind.value, p, now);
      Run(if h.outcome == HandlerEscaped then UpdateEscaped else Dispatched, h.tables, h.calls)
  }

  // ---------------------------------------------------------------------------
  // The manager.

  class PositionManager {
    const config: Config
    const db: Store
    const venue: Venue

    constructor (config: Config, db: Store, venue: Venue)
      ensures this.config == config && this.db == db && this.venue == venue
    {
      this.config := config;
      this.db := db;
      this.venue := venue;
    }

    /** Refuses, records and executes a new signal. */
    method HandleNewSignal(p: Parsed, m: TelegramMessage, now: int) returns (outcome: NewSignalOutcome)
      modifies db, venue
      ensures var r := NewSignalEffect(config, venue.answer, old(db.Snapshot()), p, m, now);
        outcome == r.outcome && db.Snapshot() == r.tables && venue.log == old(venue.log) + r.calls
    {
      var symbolRaw := p.symbol.GetWithDefault("");
      var direction := p.direction.GetWithDefault("");
      var entryLow := p.entryPriceLow.Get();
      var stopLoss := p.stopLoss.Get();
      if !(TruthyText(symbolRaw) && TruthyText(direction) && TruthyNumber(entryLow) && TruthyNumber(stopLoss)) {
        return Refused;
      }
      if OpenCount(db.positions) >= config.maxOpenPositions {
        return Refused;
      }
      var record := SignalRecord(p, m, config.defaultRiskPercent, now);
      if record.None? {
        return Escaped;
      }
      var s := record.value;
      var inserted := db.InsertSignal(s);
      if inserted.None? {
        return Escaped;
      }
      outcome := Returned(inserted.value);
      ExecuteSignal(inserted.value, TicketOf(p, s), now);
    }

    /** The `try` block of `handle_new_signal`, for the Signal `si` just inserted. */
    method ExecuteSignal(si: nat, x: Ticket, now: int)
      requires si < |db.signals| && db.signals[si].status == SignalStatus.New
      modifies db, venue
      ensures var e := Execute(config.decimalText, venue.answer, x, si, old(|db.positions|), now);
        db.Snapshot() == Record(old(db.Snapshot()), si, e) && venue.log == old(venue.log) + e.calls
    {
      var s := db.signals[si];
      var r1 := venue.Call(SetLeverage(x.symbol, x.leverage));
      if r1.Failed? {
        db.SaveSignal(si, s.(status := SignalStatus.Cancelled));
        return;
      }
      var r2 := venue.Call(SetMarginType(x.symbol, x.marginType));
      if r2.Failed? {
        db.SaveSignal(si, s.(status := SignalStatus.Cancelled));
        return;
      }
      var r3 := venue.Call(GetAccount("USDT"));
      if r3.Failed? {
        db.SaveSignal(si, s.(status := SignalStatus.Cancelled));
        return;
      }
      var size := PositionSize(r3.data.availableBalance.GetOr(0.0), x.riskPercent, x.leverage, x.entryLow, x.stopLoss);
      if size.None? {
        assert db.signals[si := s.(status := SignalStatus.New)] == db.signals;
        return;
      }
      var side := EntrySide(x.direction);
      var r4 := venue.Call(PlaceOrder(x.symbol, SideCode(side), config.decimalText(Round4(size.value)),
                                      Some(config.decimalText(x.entryLow)), "limit"));
      if r4.Failed? {
        db.SaveSignal(si, s.(status := SignalStatus.Cancelled));
        return;
      }
      var positionId := db.InsertPosition(EntryPosition(si, x, size.value, now));
      var _ := db.InsertOrder(EntryOrder(positionId, r4.data.orderId.GetOr(""), side, x, size.value, now));
      var r5 := venue.Call(SetStopLoss(x.symbol, x.direction, config.decimalText(x.stopLoss)));
      db.SaveSignal(si, s.(status := if r5.Failed? then SignalStatus.Cancelled else SignalStatus.Active));
    }

    /** Matches an update to a live signal, records it and runs its handler. */
    method HandleUpdate(p: Parsed, m: TelegramMessage, now: int) returns (outcome: UpdateOutcome)
      modifies db, venue
      ensures var r := UpdateEffect(config, venue.answer, old(db.Snapshot()), p, m, now);
        outcome == r.outcome && db.Snapshot() == r.tables && venue.log == old(venue.log) + r.calls
    {
      var msgType := p.messageType.GetWithDefault("");
      var symbolRaw := p.symbol.GetWithDefault("");
      var symbol := if TruthyText(symbolRaw) then Some(Normalize(symbolRaw.value)) else None;
      var found := FindActiveSignal(db.signals, symbol);
      if found.None? {
        return NoActiveSignal;
      }
      var si := found.value;
      var kind := HandlerKind(msgType);
      if kind.None? {
        return Unhandled;
      }
      var ok := db.InsertUpdate(UpdateRecord(si, p, m, kind.value, now));
      if !ok {
        return UpdateEscaped;
      }
      var flow := Finished;
      match kind.value {
        case EntryHit =>
        case TpHit =>
        case Info =>
        case RiskFree => RiskFree(si);
        case PartialClose => flow := PartialClose(si, p, now);
        case FullClose => FullClose(si, now);
        case PositionClosed => FullClose(si, now);
        case SlModified => SlModified(si, p);
      }
      outcome := if flow == HandlerEscaped then UpdateEscaped else Dispatched;
    }

    method RiskFree(si: nat)
      requires si < |db.signals|
      modifies db, venue
      ensures var r := RiskFreeEffect(config, venue.answer, old(db.Snapshot()), si);
        r.outcome == Finished && db.Snapshot() == r.tables && venue.log == old(venue.log) + r.calls
    {
      var signal := db.signals[si];
      var target := PositionFor(db.positions, si, false);
      if target.None? {
        return;
      }
      var pi := target.value;
      var r := venue.Call(SetStopLoss(Normalize(signal.symbol), DirectionCode(signal.direction),
                                      config.decimalText(signal.entryPriceLow)));
      if r.Ok? {
        db.SavePosition(pi, WithStopLoss(db.positions[pi], signal.entryPriceLow));
      }
    }

    method SlModified(si: nat, p: Parsed)
      requires si < |db.signals|
      modifies db, venue
      ensures var r := SlModifiedEffect(config, venue.answer, old(db.Snapshot()), si, p);
        r.outcome == Finished && db.Snapshot() == r.tables && venue.log == old(venue.log) + r.calls
    {
      var newSl := p.newStopLoss.Get();
      if !TruthyNumber(newSl) {
        return;
      }
      var signal := db.signals[si];
      var target := PositionFor(db.positions, si, false);
      if target.None? {
        return;
      }
      var pi := target.value;
      var r := venue.Call(SetStopLoss(Normalize(signal.symbol), DirectionCode(signal.direction),
                                      config.decimalText(newSl.value)));
      if r.Ok? {
        db.SavePosition(pi, WithStopLoss(db.positions[pi], newSl.value));
      }
    }

    method PartialClose(si: nat, p: Parsed, now: int) returns (flow: Flow)
      requires si < |db.signals|
      modifies db, venue
      ensures var r := PartialCloseEffect(config, venue.answer, old(db.Snapshot()), si, p, now);
        flow == r.outcome && db.Snapshot() == r.tables && venue.log == old(venue.log) + r.calls
    {
      var pct := p.closePercentage.GetWithDefault(50.0);
      var signal := db.signals[si];
      var target := PositionFor(db.positions, si, false);
      if target.None? {
        return Finished;
      }
      if pct.None? {
        return HandlerEscaped;
      }
      flow := Finished;
      var pi := target.value;
      var q := db.positions[pi];
      var closeQty := CloseQuantity(q.remainingQuantity, pct.value);
      var side := CloseSide(signal.direction);
      var r := venue.Call(PlaceOrder(Normalize(signal.symbol), SideCode(side), config.decimalText(Round4(closeQty)),
                                     None, "market"));
      if r.Failed? {
        return;
      }
      var _ := db.InsertOrder(CloseOrder(pi, r.data.orderId.GetOr(""), side, closeQty, now));
      db.SavePosition(pi, AfterPartialClose(q, closeQty, now));
    }

    method FullClose(si: nat, now: int)
      requires si < |db.signals|
      modifies db, venue
      ensures var r := FullCloseEffect(config, venue.answer, old(db.Snapshot()), si, now);
        r.outcome == Finished && db.Snapshot() == r.tables && venue.log == old(venue.log) + r.calls
    {
      var signal := db.signals[si];
      var target := PositionFor(db.positions, si, true);
      if target.None? {
        return;
      }
      var pi := target.value;
      var q := db.positions[pi];
      var side := CloseSide(signal.direction);
      var r := venue.Call(PlaceOrder(Normalize(signal.symbol), SideCode(side), config.decimalText(Round4(q.remainingQuantity)),
                                     None, "market"));
      if r.Failed? {
        return;
      }
      var _ := db.InsertOrder(CloseOrder(pi, r.data.orderId.GetOr(""), side, q.remainingQuantity, now));
      db.SavePosition(pi, AfterFullClose(q, now));
      db.SaveSignal(si, signal.(status := SignalStatus.Closed));
    }
  }
}
