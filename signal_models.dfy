/**
 * The records of the signals app: a Signal (one parsed trading idea) and a
 * SignalUpdate (a follow-up message about one Signal), with their closed
 * choice sets, the codes they are stored under, and the uniqueness of the
 * Telegram message id on both tables.
 */
module SignalModels {
  import opened Wrappers

  datatype SignalDirection = Long | Short

  datatype SignalStatus = New | Active | PartiallyClosed | Closed | Cancelled | Expired

  datatype UpdateType =
    | EntryHit | TpHit | SlModified | PartialClose | FullClose | RiskFree | PositionClosed | Info

  function DirectionCode(d: SignalDirection): string {
    match d
    case Long => "long"
    case Short => "short"
  }

  /** The choice whose stored code is `s`, if any: the choice set is exactly {long, short}. */
  function DirectionFromCode(s: string): (r: Option<SignalDirection>)
    ensures r.Some? ==> DirectionCode(r.value) == s
    ensures r.None? ==> forall d :: DirectionCode(d) != s
  {
    if s == "long" then Some(Long) else if s == "short" then Some(Short) else None
  }

  function StatusCode(s: SignalStatus): string {
    match s
    case New => "new"
    case Active => "active"
    case PartiallyClosed => "partially_closed"
    case Closed => "closed"
    case Cancelled => "cancelled"
    case Expired => "expired"
  }

  /** The status stored under `s`, if any: the six codes and nothing else. */
  function StatusFromCode(s: string): (r: Option<SignalStatus>)
    ensures r.Some? ==> StatusCode(r.value) == s
    ensures r.None? ==> forall st :: StatusCode(st) != s
  {
    if s == "new" then Some(New)
    else if s == "active" then Some(Active)
    else if s == "partially_closed" then Some(PartiallyClosed)
    else if s == "closed" then Some(Closed)
    else if s == "cancelled" then Some(Cancelled)
    else if s == "expired" then Some(Expired)
    else None
  }

  function UpdateTypeCode(u: UpdateType): string {
    match u
    case EntryHit => "entry_hit"
    case TpHit => "tp_hit"
    case SlModified => "sl_modified"
    case PartialClose => "partial_close"
    case FullClose => "full_close"
    case RiskFree => "risk_free"
    case PositionClosed => "position_closed"
    case Info => "info"
  }

  /** The update kind stored under `s`, if any: the eight codes and nothing else. */
  function UpdateTypeFromCode(s: string): (r: Option<UpdateType>)
    ensures r.Some? ==> UpdateTypeCode(r.value) == s
    ensures r.None? ==> forall u :: UpdateTypeCode(u) != s
  {
    if s == "entry_hit" then Some(EntryHit)
    else if s == "tp_hit" then Some(TpHit)
    else if s == "sl_modified" then Some(SlModified)
    else if s == "partial_close" then Some(PartialClose)
    else if s == "full_close" then Some(FullClose)
    else if s == "risk_free" then Some(RiskFree)
    else if s == "position_closed" then Some(PositionClosed)
    else if s == "info" then Some(Info)
    else None
  }

  /** Distinct choices are stored under distinct codes, so each code reads back as its choice. */
  lemma CodesRoundTrip(d: SignalDirection, st: SignalStatus, u: UpdateType)
    ensures DirectionFromCode(DirectionCode(d)) == Some(d)
    ensures StatusFromCode(StatusCode(st)) == Some(st)
    ensures UpdateTypeFromCode(UpdateTypeCode(u)) == Some(u)
  {
  }

  /**
   * One Signal row. `createdAt` is the insertion time; prices are exact
   * decimals (the column precision is not modelled).
   */
  datatype Signal = Signal(
    telegramMsgId: int,
    telegramChannelId: int,
    rawText: string,
    rawImagePath: string,
    symbol: string,
    direction: SignalDirection,
    entryPriceLow: real,
    entryPriceHigh: Option<real>,
    stopLoss: real,
    tp1: Option<real>,
    tp2: Option<real>,
    tp3: Option<real>,
    riskPercent: real,
    leverage: int,
    marginType: string,
    status: SignalStatus,
    confidence: real,
    createdAt: int,
    signalTime: Option<int>)

  /** A Signal built from its required columns only: every other column takes its declared default. */
  function DefaultSignal(msgId: int, channelId: int, symbol: string, direction: SignalDirection,
                         entryLow: real, stopLoss: real, now: int): (s: Signal)
    ensures s.status == New && s.riskPercent == 1.0 && s.leverage == 8
    ensures s.marginType == "isolated" && s.confidence == 0.0
    ensures s.rawText == "" && s.rawImagePath == ""
    ensures s.entryPriceHigh.None? && s.tp1.None? && s.tp2.None? && s.tp3.None? && s.signalTime.None?
    ensures s.telegramMsgId == msgId && s.symbol == symbol && s.direction == direction
    ensures s.entryPriceLow == entryLow && s.stopLoss == stopLoss && s.createdAt == now
  {
    Signal(msgId, channelId, "", "", symbol, direction, entryLow, None, stopLoss, None, None, None,
           1.0, 8, "isolated", New, 0.0, now, None)
  }

  /** One SignalUpdate row; `signal` is the index of the Signal it belongs to. */
  datatype SignalUpdate = SignalUpdate(
    signal: nat,
    telegramMsgId: int,
    rawText: string,
    updateType: UpdateType,
    tpNumber: Option<int>,
    newStopLoss: Option<real>,
    closePercentage: Option<real>,
    profitPercent: Option<real>,
    createdAt: int)

  /** The `unique=True` constraint on `Signal.telegram_msg_id`. */
  ghost predicate UniqueSignalIds(signals: seq<Signal>) {
    forall i, j :: 0 <= i < j < |signals| ==> signals[i].telegramMsgId != signals[j].telegramMsgId
  }

  /** The `unique=True` constraint on `SignalUpdate.telegram_msg_id`. */
  ghost predicate UniqueUpdateIds(updates: seq<SignalUpdate>) {
    forall i, j :: 0 <= i < j < |updates| ==> updates[i].telegramMsgId != updates[j].telegramMsgId
  }

  /** Some Signal already carries message id `id` (an insert with it is refused). */
  predicate SignalIdTaken(signals: seq<Signal>, id: int) {
    exists i :: 0 <= i < |signals| && signals[i].telegramMsgId == id
  }

  /** Some SignalUpdate already carries message id `id` (an insert with it is refused). */
  predicate UpdateIdTaken(updates: seq<SignalUpdate>, id: int) {
    exists i :: 0 <= i < |updates| && updates[i].telegramMsgId == id
  }

  /** Inserting a Signal keeps the ids unique exactly when its id is not taken. */
  lemma AppendSignalUnique(signals: seq<Signal>, s: Signal)
    requires UniqueSignalIds(signals)
    ensures UniqueSignalIds(signals + [s]) <==> !SignalIdTaken(signals, s.telegramMsgId)
  {
    var t := signals + [s];
    if !SignalIdTaken(signals, s.telegramMsgId) {
      forall i, j | 0 <= i < j < |t| ensures t[i].telegramMsgId != t[j].telegramMsgId {
        if j == |signals| {
          assert t[i] == signals[i];
        }
      }
    } else {
      var k :| 0 <= k < |signals| && signals[k].telegramMsgId == s.telegramMsgId;
      assert t[k].telegramMsgId == t[|signals|].telegramMsgId;
    }
  }

  /** Inserting a SignalUpdate keeps the ids unique exactly when its id is not taken. */
  lemma AppendUpdateUnique(updates: seq<SignalUpdate>, u: SignalUpdate)
    requires UniqueUpdateIds(updates)
    ensures UniqueUpdateIds(updates + [u]) <==> !UpdateIdTaken(updates, u.telegramMsgId)
  {
    var t := updates + [u];
    if !UpdateIdTaken(updates, u.telegramMsgId) {
      forall i, j | 0 <= i < j < |t| ensures t[i].telegramMsgId != t[j].telegramMsgId {
        if j == |updates| {
          assert t[i] == updates[i];
        }
      }
    } else {
      var k :| 0 <= k < |updates| && updates[k].telegramMsgId == u.telegramMsgId;
      assert t[k].telegramMsgId == t[|updates|].telegramMsgId;
    }
  }

  /** Changing the status of a Signal never touches the message ids. */
  lemma StatusChangeKeepsUnique(signals: seq<Signal>, i: nat, st: SignalStatus)
    requires i < |signals| && UniqueSignalIds(signals)
    ensures UniqueSignalIds(signals[i := signals[i].(status := st)])
  {
    var t := signals[i := signals[i].(status := st)];
    assert forall k :: 0 <= k < |t| ==> t[k].telegramMsgId == signals[k].telegramMsgId;
  }
}
