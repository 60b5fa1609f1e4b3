/**
 * What the position manager promises, stated over its effect functions:
 * when a signal is refused, what a signal leaves behind on each path, what
 * each update handler changes, and that the database invariant (valid
 * references, unique message ids, the cap on concurrent positions, the
 * close ledger) survives every entry point.
 */
module ManagerProperties {
  import opened Wrappers
  import opened Text
  import opened Search
  import opened SignalModels
  import opened TradingModels
  import opened LBankClient
  import opened Exchange
  import opened Database
  import opened Manager

  // ---------------------------------------------------------------------------
  // Normalisation and rounding

  /** Normalising deletes every "/" and upper-cases what is left. */
  lemma NormalizeDeletesSlashesAndUpperCases(s: string)
    ensures Normalize(s) == Upper(Without(s, '/'))
    ensures forall i :: 0 <= i < |Normalize(s)| ==> Normalize(s)[i] != '/' && !IsLowerAscii(Normalize(s)[i])
  {
    assert "/" == ['/'];
    ReplaceCharByNothing(s, '/');
    UpperKeepsNonLetters(Without(s, '/'), '/');
  }

  /** A normalised symbol normalises to itself. */
  lemma NormalizeIdempotent(s: string)
    ensures Normalize(Normalize(s)) == Normalize(s)
  {
    var r := Normalize(s);
    NormalizeDeletesSlashesAndUpperCases(s);
    NormalizeDeletesSlashesAndUpperCases(r);
    WithoutAbsent(r, '/');
    assert Upper(r) == r;
  }

  /** A value that already has at most four decimal places is left as it is. */
  lemma Round4OnGrid(n: int)
    ensures Round4(n as real / 10000.0) == n as real / 10000.0
  {
    var y := (n as real / 10000.0) * 10000.0;
    assert y == n as real;
    assert y.Floor == n;
  }

  /** Rounding twice is rounding once. */
  lemma Round4Idempotent(x: real)
    ensures Round4(Round4(x)) == Round4(x)
  {
    var r := Round4(x);
    var n := (r * 10000.0).Floor;
    assert r == n as real / 10000.0;
    Round4OnGrid(n);
  }

  /** A value exactly halfway between two multiples of 1/10000 goes to the even one. */
  lemma Round4TiesToEven(k: int)
    ensures Round4((2 * k + 1) as real / 20000.0) == (if k % 2 == 0 then k else k + 1) as real / 10000.0
  {
    var y := ((2 * k + 1) as real / 20000.0) * 10000.0;
    assert y == k as real + 0.5;
    assert y.Floor == k;
  }

  /** Closing a percentage between 0 and 100 of a non-negative remainder closes between nothing and all of it. */
  lemma CloseQuantityWithinRemaining(remaining: real, pct: real)
    requires 0.0 <= pct <= 100.0 && remaining >= 0.0
    ensures 0.0 <= CloseQuantity(remaining, pct) <= remaining
  {
    assert remaining * pct <= remaining * 100.0 by {
      assert remaining * (100.0 - pct) >= 0.0;
    }
    assert remaining * pct >= 0.0;
  }

  // ---------------------------------------------------------------------------
  // handle_new_signal

  /** The new-signal effect's Signal record, when the signal gets that far. */
  function RecordOf(cfg: Config, t: Tables, p: Parsed, m: TelegramMessage, now: int): Option<Signal> {
    if !Complete(p) || OpenCount(t.positions) >= cfg.maxOpenPositions then None
    else SignalRecord(p, m, cfg.defaultRiskPercent, now)
  }

  /**
   * A signal is refused (None, nothing written, no call made) exactly when one
   * of symbol, direction, entry and stop is falsy or the OPEN and PENDING
   * positions already reach the cap.
   */
  lemma NewSignalRefusal(cfg: Config, answer: Endpoint -> Reply, t: Tables, p: Parsed, m: TelegramMessage, now: int)
    ensures var r := NewSignalEffect(cfg, answer, t, p, m, now);
      (r.outcome == Refused <==> !Complete(p) || OpenCount(t.positions) >= cfg.maxOpenPositions)
      && (r.outcome == Refused ==> r.tables == t && r.calls == [])
  {
  }

  /**
   * A complete signal under the cap raises before anything is written exactly
   * when a null `take_profits`, `risk_percent`, `leverage`, `margin_type` or
   * `confidence` breaks the Signal insert, or its message id is taken.
   */
  lemma NewSignalEscape(cfg: Config, answer: Endpoint -> Reply, t: Tables, p: Parsed, m: TelegramMessage, now: int)
    ensures var r := NewSignalEffect(cfg, answer, t, p, m, now);
      (r.outcome == Escaped <==>
         Complete(p) && OpenCount(t.positions) < cfg.maxOpenPositions
         && (p.takeProfits.Null? || p.riskPercent.Null? || p.leverage.Null? || p.marginType.Null?
             || p.confidence.Null? || SignalIdTaken(t.signals, m.id)))
      && (r.outcome == Escaped ==> r.tables == t && r.calls == [])
  {
  }

  /** The first three calls of an execution, and its possible final statuses. */
  lemma ExecuteCalls(d: real -> string, answer: Endpoint -> Reply, x: Ticket, si: nat, pi: nat, now: int)
    ensures var e := Execute(d, answer, x, si, pi, now);
      1 <= |e.calls| <= 5
      && e.calls[0] == SetLeverage(x.symbol, x.leverage)
      && (|e.calls| > 1 ==> e.calls[1] == SetMarginType(x.symbol, x.marginType))
      && (|e.calls| > 2 ==> e.calls[2] == GetAccount("USDT"))
      && (forall i :: 0 <= i < |e.calls| - 1 ==> answer(e.calls[i]).Ok?)
      && (e.status == SignalStatus.Active <==> |e.calls| == 5 && answer(e.calls[4]).Ok?)
      && (e.status == SignalStatus.New <==>
            |e.calls| == 3 && answer(e.calls[2]).Ok? && x.entryLow == x.stopLoss)
      && (e.status == SignalStatus.Cancelled <==> answer(e.calls[|e.calls| - 1]).Failed?)
      && (e.created.Some? <==> |e.calls| == 5)
  {
  }

  /**
   * The Position and entry Order an execution records: a PENDING position
   * with nothing closed, sized so that size × stop distance is the amount at
   * risk × leverage, and a SUBMITTED limit order for the same quantity at the
   * entry price, on the open side of the signal's direction; the volume sent
   * is that size rounded to four places, and the stop is set at the signal's
   * stop.
   */
  lemma ExecuteCreates(d: real -> string, answer: Endpoint -> Reply, x: Ticket, si: nat, pi: nat, now: int)
    ensures var e := Execute(d, answer, x, si, pi, now);
      e.created.Some? ==>
        var q := e.created.value.position;
        var o := e.created.value.order;
        var balance := answer(e.calls[2]).data.availableBalance.GetOr(0.0);
        q.signal == si && q.symbol == x.symbol && q.side == x.direction
        && q.status == PositionStatus.Pending && q.entryPrice.None?
        && q.quantity == q.remainingQuantity && q.currentStopLoss == Some(x.stopLoss)
        && q.quantity * Abs(x.entryLow - x.stopLoss) == balance * x.riskPercent / 100.0 * x.leverage as real
        && o.position == pi && o.status == OrderStatus.Submitted && o.orderType == "limit"
        && o.price == Some(x.entryLow) && o.quantity == q.quantity && !IsCloseSide(o.side)
        && (o.side == OpenLong <==> x.direction == "long")
        && e.calls[3] == PlaceOrder(x.symbol, SideCode(o.side), d(Round4(q.quantity)), Some(d(x.entryLow)), "limit")
        && e.calls[4] == SetStopLoss(x.symbol, x.direction, d(x.stopLoss))
  {
  }

  /**
   * A signal that gets past the checks is inserted as the newest Signal, and
   * ends ACTIVE when every call succeeded, NEW when the stop sits on the
   * entry, CANCELLED when a call failed; the Position and Order exist exactly
   * when the entry order was accepted, so a failure at the stop-loss call
   * leaves them behind, and no earlier failure does.
   */
  lemma NewSignalReturned(cfg: Config, answer: Endpoint -> Reply, t: Tables, p: Parsed, m: TelegramMessage, now: int)
    ensures var r := NewSignalEffect(cfg, answer, t, p, m, now);
      r.outcome.Returned? ==>
        var si := |t.signals|;
        var s := RecordOf(cfg, t, p, m, now);
        var st := r.tables.signals[si].status;
        r.outcome.signal == si && s.Some?
        && r.tables.signals == t.signals + [s.value.(status := st)]
        && r.tables.updates == t.updates
        && (st == SignalStatus.Active <==> |r.calls| == 5 && forall i :: 0 <= i < 5 ==> answer(r.calls[i]).Ok?)
        && (st == SignalStatus.New <==>
              |r.calls| == 3 && (forall i :: 0 <= i < 3 ==> answer(r.calls[i]).Ok?)
              && p.entryPriceLow.value == p.stopLoss.value)
        && (st == SignalStatus.Cancelled <==> exists i :: 0 <= i < |r.calls| && answer(r.calls[i]).Failed?)
        && (|r.calls| == 5 ==> |r.tables.positions| == |t.positions| + 1 && |r.tables.orders| == |t.orders| + 1
                               && r.tables.positions[..|t.positions|] == t.positions
                               && r.tables.orders[..|t.orders|] == t.orders)
        && (|r.calls| < 5 ==> r.tables.positions == t.positions && r.tables.orders == t.orders)
  {
    var r := NewSignalEffect(cfg, answer, t, p, m, now);
    if r.outcome.Returned? {
      var s := SignalRecord(p, m, cfg.defaultRiskPercent, now).value;
      var x := TicketOf(p, s);
      var e := Execute(cfg.decimalText, answer, x, |t.signals|, |t.positions|, now);
      ExecuteCalls(cfg.decimalText, answer, x, |t.signals|, |t.positions|, now);
      assert r.calls == e.calls;
      assert r.tables == Record(t.(signals := t.signals + [s]), |t.signals|, e);
      RecordAppends(t, s, e);
      StatusByCalls(answer, e.calls, e.status, x.entryLow == x.stopLoss);
    }
  }

  /** Recording an execution for a just-appended Signal: its status is set and the rows it created are appended. */
  lemma RecordAppends(t: Tables, s: Signal, e: Execution)
    ensures var r := Record(t.(signals := t.signals + [s]), |t.signals|, e);
      r.signals == t.signals + [s.(status := e.status)] && r.updates == t.updates
      && (e.created.Some? ==> r.positions == t.positions + [e.created.value.position]
                              && r.orders == t.orders + [e.created.value.order])
      && (e.created.None? ==> r.positions == t.positions && r.orders == t.orders)
  {
    assert (t.signals + [s])[|t.signals| := s.(status := e.status)] == t.signals + [s.(status := e.status)];
  }

  /** The final status of an execution read off its calls: every call but the last succeeded. */
  lemma StatusByCalls(answer: Endpoint -> Reply, calls: seq<Endpoint>, status: SignalStatus, entryIsStop: bool)
    requires 1 <= |calls| <= 5
    requires forall i :: 0 <= i < |calls| - 1 ==> answer(calls[i]).Ok?
    requires status == SignalStatus.Active <==> |calls| == 5 && answer(calls[4]).Ok?
    requires status == SignalStatus.New <==> |calls| == 3 && answer(calls[2]).Ok? && entryIsStop
    requires status == SignalStatus.Cancelled <==> answer(calls[|calls| - 1]).Failed?
    ensures status == SignalStatus.Active <==> |calls| == 5 && forall i :: 0 <= i < 5 ==> answer(calls[i]).Ok?
    ensures status == SignalStatus.New <==>
              |calls| == 3 && (forall i :: 0 <= i < 3 ==> answer(calls[i]).Ok?) && entryIsStop
    ensures status == SignalStatus.Cancelled <==> exists i :: 0 <= i < |calls| && answer(calls[i]).Failed?
  {
    if status == SignalStatus.Cancelled {
      assert answer(calls[|calls| - 1]).Failed?;
    }
  }

  /** A signal leaves the database consistent: the cap, the ledger and the unique message ids hold after it. */
  lemma NewSignalKeepsConsistent(cfg: Config, answer: Endpoint -> Reply, t: Tables, p: Parsed, m: TelegramMessage, now: int)
    requires Consistent(t, cfg.maxOpenPositions)
    ensures Consistent(NewSignalEffect(cfg, answer, t, p, m, now).tables, cfg.maxOpenPositions)
  {
    var r := NewSignalEffect(cfg, answer, t, p, m, now);
    if r.outcome.Returned? {
      var cap := cfg.maxOpenPositions;
      var s := SignalRecord(p, m, cfg.defaultRiskPercent, now).value;
      var x := TicketOf(p, s);
      var si := |t.signals|;
      var e := Execute(cfg.decimalText, answer, x, si, |t.positions|, now);
      var t1 := t.(signals := t.signals + [s]);
      AppendSignalKeepsConsistent(t, cap, s);
      ExecuteCreates(cfg.decimalText, answer, x, si, |t.positions|, now);
      var t2 := t1.(signals := t1.signals[si := t1.signals[si].(status := e.status)]);
      SignalStatusKeepsConsistent(t1, cap, si, e.status);
      if e.created.Some? {
        OpenPositionKeepsConsistent(t2, cap, e.created.value.position, e.created.value.order);
      }
      assert r.tables == Record(t1, si, e);
    }
  }

  // ---------------------------------------------------------------------------
  // handle_update

  /**
   * An update with no live signal to attach to, or of a kind with no handler
   * (info included), writes nothing and calls nothing; otherwise exactly one
   * SignalUpdate is appended for the matched signal, before its handler runs
   * and whatever the handler does, unless the message id is taken, in which
   * case the insert raises and nothing is written.
   */
  lemma UpdateRecording(cfg: Config, answer: Endpoint -> Reply, t: Tables, p: Parsed, m: TelegramMessage, now: int)
    ensures var r := UpdateEffect(cfg, answer, t, p, m, now);
      var found := FindActiveSignal(t.signals, UpdateSymbol(p));
      var kind := HandlerKind(p.messageType.GetWithDefault(""));
      (r.outcome == NoActiveSignal <==> found.None?)
      && (r.outcome == Unhandled <==> found.Some? && kind.None?)
      && (found.None? || kind.None? ==> r.tables == t && r.calls == [])
      && (found.Some? && kind.Some? && UpdateIdTaken(t.updates, m.id) ==> r == Run(UpdateEscaped, t, []))
      && (found.Some? && kind.Some? && !UpdateIdTaken(t.updates, m.id) ==>
            |r.tables.updates| == |t.updates| + 1 && r.tables.updates[..|t.updates|] == t.updates
            && var u := r.tables.updates[|t.updates|];
               u.signal == found.value && u.updateType == kind.value && u.telegramMsgId == m.id
               && (u.newStopLoss.Some? <==> TruthyNumber(p.newStopLoss.Get())))
  {
    var found := FindActiveSignal(t.signals, UpdateSymbol(p));
    var kind := HandlerKind(p.messageType.GetWithDefault(""));
    if found.Some? && kind.Some? && !UpdateIdTaken(t.updates, m.id) {
      var u := UpdateRecord(found.value, p, m, kind.value, now);
      var t1 := t.(updates := t.updates + [u]);
      DispatchKeepsUpdates(cfg, answer, t1, found.value, kind.value, p, now);
      assert (t.updates + [u])[..|t.updates|] == t.updates;
    }
  }

  /** No handler touches the update records. */
  lemma DispatchKeepsUpdates(cfg: Config, answer: Endpoint -> Reply, t: Tables, si: nat, kind: UpdateType, p: Parsed, now: int)
    requires si < |t.signals|
    ensures Dispatch(cfg, answer, t, si, kind, p, now).tables.updates == t.updates
  {
  }

  /** An entry hit or a take-profit hit is recorded and changes nothing else. */
  lemma HitsChangeNothing(cfg: Config, answer: Endpoint -> Reply, t: Tables, p: Parsed, m: TelegramMessage, now: int)
    requires FindActiveSignal(t.signals, UpdateSymbol(p)).Some?
    requires HandlerKind(p.messageType.GetWithDefault("")) in [Some(EntryHit), Some(TpHit)]
    requires !UpdateIdTaken(t.updates, m.id)
    ensures var r := UpdateEffect(cfg, answer, t, p, m, now);
      r.outcome == Dispatched && r.calls == []
      && r.tables.signals == t.signals && r.tables.positions == t.positions && r.tables.orders == t.orders
      && |r.tables.updates| == |t.updates| + 1
  {
  }

  /**
   * `risk_free` acts on the newest OPEN or PENDING position of the signal:
   * one stop-loss call at the signal's entry price and, once it succeeds,
   * that position's stop becomes the entry price; nothing else changes.
   */
  lemma RiskFreeMovesStopToEntry(cfg: Config, answer: Endpoint -> Reply, t: Tables, si: nat)
    requires si < |t.signals|
    ensures var r := RiskFreeEffect(cfg, answer, t, si);
      var target := PositionFor(t.positions, si, false);
      var signal := t.signals[si];
      r.outcome == Finished
      && (target.None? ==> r.tables == t && r.calls == [])
      && (target.Some? ==>
            r.calls == [SetStopLoss(Normalize(signal.symbol), DirectionCode(signal.direction),
                                    cfg.decimalText(signal.entryPriceLow))]
            && (answer(r.calls[0]).Failed? ==> r.tables == t)
            && (answer(r.calls[0]).Ok? ==>
                  r.tables == t.(positions := t.positions[target.value :=
                                   t.positions[target.value].(currentStopLoss := Some(signal.entryPriceLow))])))
  {
  }

  /**
   * `sl_modified` does nothing when the new stop is falsy; otherwise it acts
   * on the newest OPEN or PENDING position of the signal, and once the
   * stop-loss call succeeds that position's stop becomes the new stop.
   */
  lemma SlModifiedMovesStop(cfg: Config, answer: Endpoint -> Reply, t: Tables, si: nat, p: Parsed)
    requires si < |t.signals|
    ensures var r := SlModifiedEffect(cfg, answer, t, si, p);
      var target := PositionFor(t.positions, si, false);
      var newSl := p.newStopLoss.Get();
      var signal := t.signals[si];
      r.outcome == Finished
      && (!TruthyNumber(newSl) || target.None? ==> r.tables == t && r.calls == [])
      && (TruthyNumber(newSl) && target.Some? ==>
            r.calls == [SetStopLoss(Normalize(signal.symbol), DirectionCode(signal.direction), cfg.decimalText(newSl.value))]
            && (answer(r.calls[0]).Failed? ==> r.tables == t)
            && (answer(r.calls[0]).Ok? ==>
                  r.tables == t.(positions := t.positions[target.value :=
                                   t.positions[target.value].(currentStopLoss := Some(newSl.value))])))
  {
  }

  /**
   * `partial_close` acts on the newest OPEN or PENDING position of the
   * signal. It closes `close_percentage` (50 when absent) of what remains
   * with one market order on the close side of the signal's direction; once
   * the order is accepted, the remainder drops by exactly the closed
   * quantity, one SUBMITTED close order for that quantity is recorded, and
   * the position is CLOSED (with its closing time) when nothing remains and
   * PARTIALLY_CLOSED otherwise. For a percentage between 0 and 100 the
   * remainder stays between zero and what it was. A failed call changes
   * nothing; a null percentage raises before any call.
   */
  lemma PartialCloseEffects(cfg: Config, answer: Endpoint -> Reply, t: Tables, si: nat, p: Parsed, now: int)
    requires si < |t.signals|
    ensures var r := PartialCloseEffect(cfg, answer, t, si, p, now);
      var target := PositionFor(t.positions, si, false);
      var pct := p.closePercentage.GetWithDefault(50.0);
      var signal := t.signals[si];
      r.tables.signals == t.signals && r.tables.updates == t.updates
      && (target.None? ==> r == Run(Finished, t, []))
      && (target.Some? && pct.None? ==> r == Run(HandlerEscaped, t, []))
      && (target.Some? && pct.Some? ==>
            var pi := target.value;
            var q := t.positions[pi];
            var c := CloseQuantity(q.remainingQuantity, pct.value);
            var q' := r.tables.positions[pi];
            r.outcome == Finished
            && r.calls == [PlaceOrder(Normalize(signal.symbol), SideCode(CloseSide(signal.direction)),
                                      cfg.decimalText(Round4(c)), None, "market")]
            && (answer(r.calls[0]).Failed? ==> r.tables == t)
            && (answer(r.calls[0]).Ok? ==>
                  |r.tables.positions| == |t.positions|
                  && (forall j :: 0 <= j < |t.positions| && j != pi ==> r.tables.positions[j] == t.positions[j])
                  && q'.remainingQuantity == q.remainingQuantity - c
                  && q'.quantity == q.quantity && q'.signal == q.signal
                  && (q'.status == PositionStatus.Closed <==> q'.remainingQuantity <= 0.0)
                  && (q'.status == PositionStatus.Closed ==> q'.closedAt == Some(now))
                  && (q'.status != PositionStatus.Closed ==> q'.status == PositionStatus.PartiallyClosed)
                  && |r.tables.orders| == |t.orders| + 1 && r.tables.orders[..|t.orders|] == t.orders
                  && r.tables.orders[|t.orders|].position == pi
                  && r.tables.orders[|t.orders|].side == CloseSide(signal.direction)
                  && r.tables.orders[|t.orders|].orderType == "market"
                  && r.tables.orders[|t.orders|].status == OrderStatus.Submitted
                  && r.tables.orders[|t.orders|].quantity == c
                  && (0.0 <= pct.value <= 100.0 && q.remainingQuantity >= 0.0 ==>
                        0.0 <= q'.remainingQuantity <= q.remainingQuantity)))
  {
    var target := PositionFor(t.positions, si, false);
    var pct := p.closePercentage.GetWithDefault(50.0);
    if target.Some? && pct.Some? {
      var q := t.positions[target.value];
      if 0.0 <= pct.value <= 100.0 && q.remainingQuantity >= 0.0 {
        CloseQuantityWithinRemaining(q.remainingQuantity, pct.value);
      }
    }
  }

  /** No close handler ever touches a position that is not the one it targets, so a PARTIALLY_CLOSED position is left alone by a partial close. */
  lemma PartialCloseSkipsPartiallyClosed(cfg: Config, answer: Endpoint -> Reply, t: Tables, si: nat, p: Parsed, now: int, j: nat)
    requires si < |t.signals| && j < |t.positions|
    requires t.positions[j].status == PositionStatus.PartiallyClosed
    ensures var r := PartialCloseEffect(cfg, answer, t, si, p, now);
      j < |r.tables.positions| && r.tables.positions[j] == t.positions[j]
  {
  }

  /**
   * `full_close` / `position_closed` acts on the newest OPEN, PENDING or
   * PARTIALLY_CLOSED position of the signal: one market order for all that
   * remains, and once it is accepted a SUBMITTED close order for that
   * quantity is recorded, the position has nothing left and is CLOSED with
   * its closing time, and the signal is CLOSED. A failed call changes nothing.
   */
  lemma FullCloseEffects(cfg: Config, answer: Endpoint -> Reply, t: Tables, si: nat, now: int)
    requires si < |t.signals|
    ensures var r := FullCloseEffect(cfg, answer, t, si, now);
      var target := PositionFor(t.positions, si, true);
      var signal := t.signals[si];
      r.outcome == Finished && r.tables.updates == t.updates
      && (target.None? ==> r.tables == t && r.calls == [])
      && (target.Some? ==>
            var pi := target.value;
            var q := t.positions[pi];
            var q' := r.tables.positions[pi];
            r.calls == [PlaceOrder(Normalize(signal.symbol), SideCode(CloseSide(signal.direction)),
                                   cfg.decimalText(Round4(q.remainingQuantity)), None, "market")]
            && (answer(r.calls[0]).Failed? ==> r.tables == t)
            && (answer(r.calls[0]).Ok? ==>
                  |r.tables.positions| == |t.positions|
                  && (forall j :: 0 <= j < |t.positions| && j != pi ==> r.tables.positions[j] == t.positions[j])
                  && q'.remainingQuantity == 0.0 && q'.quantity == q.quantity
                  && q'.status == PositionStatus.Closed && q'.closedAt == Some(now)
                  && r.tables.signals == t.signals[si := signal.(status := SignalStatus.Closed)]
                  && |r.tables.orders| == |t.orders| + 1 && r.tables.orders[..|t.orders|] == t.orders
                  && r.tables.orders[|t.orders|].position == pi
                  && r.tables.orders[|t.orders|].side == CloseSide(signal.direction)
                  && r.tables.orders[|t.orders|].status == OrderStatus.Submitted
                  && r.tables.orders[|t.orders|].quantity == q.remainingQuantity))
  {
  }

  /** Every handler leaves the database consistent. */
  lemma DispatchKeepsConsistent(cfg: Config, answer: Endpoint -> Reply, t: Tables, si: nat, kind: UpdateType, p: Parsed, now: int)
    requires si < |t.signals| && Consistent(t, cfg.maxOpenPositions)
    ensures Consistent(Dispatch(cfg, answer, t, si, kind, p, now).tables, cfg.maxOpenPositions)
  {
    match kind
    case RiskFree => RiskFreeKeepsConsistent(cfg, answer, t, si);
    case SlModified => SlModifiedKeepsConsistent(cfg, answer, t, si, p);
    case PartialClose => PartialCloseKeepsConsistent(cfg, answer, t, si, p, now);
    case FullClose => FullCloseKeepsConsistent(cfg, answer, t, si, now);
    case PositionClosed => FullCloseKeepsConsistent(cfg, answer, t, si, now);
    case EntryHit =>
    case TpHit =>
    case Info =>
  }

  lemma RiskFreeKeepsConsistent(cfg: Config, answer: Endpoint -> Reply, t: Tables, si: nat)
    requires si < |t.signals| && Consistent(t, cfg.maxOpenPositions)
    ensures Consistent(RiskFreeEffect(cfg, answer, t, si).tables, cfg.maxOpenPositions)
  {
    var target := PositionFor(t.positions, si, false);
    if target.Some? {
      var pi := target.value;
      PositionStepKeepsConsistent(t, cfg.maxOpenPositions, pi, WithStopLoss(t.positions[pi], t.signals[si].entryPriceLow), None);
      assert t.orders + [] == t.orders;
    }
  }

  lemma SlModifiedKeepsConsistent(cfg: Config, answer: Endpoint -> Reply, t: Tables, si: nat, p: Parsed)
    requires si < |t.signals| && Consistent(t, cfg.maxOpenPositions)
    ensures Consistent(SlModifiedEffect(cfg, answer, t, si, p).tables, cfg.maxOpenPositions)
  {
    var target := PositionFor(t.positions, si, false);
    var newSl := p.newStopLoss.Get();
    if target.Some? && TruthyNumber(newSl) {
      var pi := target.value;
      PositionStepKeepsConsistent(t, cfg.maxOpenPositions, pi, WithStopLoss(t.positions[pi], newSl.value), None);
      assert t.orders + [] == t.orders;
    }
  }

  lemma PartialCloseKeepsConsistent(cfg: Config, answer: Endpoint -> Reply, t: Tables, si: nat, p: Parsed, now: int)
    requires si < |t.signals| && Consistent(t, cfg.maxOpenPositions)
    ensures Consistent(PartialCloseEffect(cfg, answer, t, si, p, now).tables, cfg.maxOpenPositions)
  {
    var r := PartialCloseEffect(cfg, answer, t, si, p, now);
    var target := PositionFor(t.positions, si, false);
    var pct := p.closePercentage.GetWithDefault(50.0);
    if target.Some? && pct.Some? && answer(r.calls[0]).Ok? {
      var pi := target.value;
      var q := t.positions[pi];
      var c := CloseQuantity(q.remainingQuantity, pct.value);
      var o := CloseOrder(pi, answer(r.calls[0]).data.orderId.GetOr(""), CloseSide(t.signals[si].direction), c, now);
      PositionStepKeepsConsistent(t, cfg.maxOpenPositions, pi, AfterPartialClose(q, c, now), Some(o));
    }
  }

  lemma FullCloseKeepsConsistent(cfg: Config, answer: Endpoint -> Reply, t: Tables, si: nat, now: int)
    requires si < |t.signals| && Consistent(t, cfg.maxOpenPositions)
    ensures Consistent(FullCloseEffect(cfg, answer, t, si, now).tables, cfg.maxOpenPositions)
  {
    var cap := cfg.maxOpenPositions;
    var signal := t.signals[si];
    var r := FullCloseEffect(cfg, answer, t, si, now);
    var target := PositionFor(t.positions, si, true);
    if target.Some? && answer(r.calls[0]).Ok? {
      var pi := target.value;
      var q := t.positions[pi];
      var o := CloseOrder(pi, answer(r.calls[0]).data.orderId.GetOr(""), CloseSide(signal.direction), q.remainingQuantity, now);
      PositionStepKeepsConsistent(t, cap, pi, AfterFullClose(q, now), Some(o));
      var t2 := t.(positions := t.positions[pi := AfterFullClose(q, now)], orders := t.orders + [o]);
      SignalStatusKeepsConsistent(t2, cap, si, SignalStatus.Closed);
    }
  }

  /** An update leaves the database consistent: the cap, the ledger and the unique message ids hold after it. */
  lemma UpdateKeepsConsistent(cfg: Config, answer: Endpoint -> Reply, t: Tables, p: Parsed, m: TelegramMessage, now: int)
    requires Consistent(t, cfg.maxOpenPositions)
    ensures Consistent(UpdateEffect(cfg, answer, t, p, m, now).tables, cfg.maxOpenPositions)
  {
    var found := FindActiveSignal(t.signals, UpdateSymbol(p));
    var kind := HandlerKind(p.messageType.GetWithDefault(""));
    if found.Some? && kind.Some? && !UpdateIdTaken(t.updates, m.id) {
      var u := UpdateRecord(found.value, p, m, kind.value, now);
      AppendUpdateKeepsConsistent(t, cfg.maxOpenPositions, u);
      DispatchKeepsConsistent(cfg, answer, t.(updates := t.updates + [u]), found.value, kind.value, p, now);
    }
  }
}
