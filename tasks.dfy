/**
 * The two periodic sweeps. The order sweep asks the exchange about every
 * SUBMITTED or PARTIALLY_FILLED order, records fills and cancellations, and
 * opens the PENDING position of a filled order. The PnL sweep copies the
 * unrealised PnL the exchange reports onto every OPEN or PARTIALLY_CLOSED
 * position.
 *
 * Both sweeps read all their rows before the first request, and the order
 * sweep loads each order's position with it. Every row they write back is
 * therefore the row as it was when the sweep started, with some columns
 * changed; `t0` below is that starting state.
 */
module Tasks {
  import opened Wrappers
  import opened Text
  import opened Search
  import opened TradingModels
  import opened LBankClient
  import opened Exchange
  import opened Database

  /**
   * What a sweep may change: no signal or update, no row added or removed,
   * no order's position, side or quantity, and no position's signal,
   * quantities or standing against the cap.
   */
  predicate SweepFrame(t0: Tables, t: Tables) {
    t.signals == t0.signals && t.updates == t0.updates
    && |t.orders| == |t0.orders| && |t.positions| == |t0.positions|
    && (forall i :: 0 <= i < |t.orders| ==> SameShape(t0.orders[i], t.orders[i]))
    && (forall j :: 0 <= j < |t.positions| ==> Steady(t0.positions[j], t.positions[j]))
  }

  predicate Steady(q: Position, q': Position) {
    q'.signal == q.signal && q'.quantity == q.quantity && q'.remainingQuantity == q.remainingQuantity
    && Counted(q') == Counted(q)
  }

  /** Whatever a sweep changes within its frame, the database stays consistent. */
  lemma FrameKeepsConsistent(t0: Tables, t: Tables, cap: int)
    requires Consistent(t0, cap) && SweepFrame(t0, t)
    ensures Consistent(t, cap)
  {
    CountWhereMonotone(t0.positions, t.positions, Counted);
    forall pi | 0 <= pi < |t.positions|
      ensures t.positions[pi].quantity - t.positions[pi].remainingQuantity == CloseVolume(t.orders, pi)
    {
      CloseVolumeSameShape(t0.orders, t.orders, pi);
    }
  }

  // ---------------------------------------------------------------------------
  // _sync_orders

  /** An order still waiting on the exchange: SUBMITTED or PARTIALLY_FILLED. */
  predicate Syncable(o: Order) {
    o.status == OrderStatus.Submitted || o.status == OrderStatus.PartiallyFilled
  }

  /** The request for order `oi`: its exchange id, on the symbol of its position. */
  function OrderQuery(t0: Tables, oi: nat): Endpoint
    requires oi < |t0.orders| && t0.orders[oi].position < |t0.positions|
  {
    GetOrder(t0.positions[t0.orders[oi].position].symbol, t0.orders[oi].lbankOrderId)
  }

  /** The exchange says the order is done: status "filled" or "completed". */
  predicate ReportsFilled(reply: Reply) {
    reply.Ok? && (reply.data.status.GetOr("") == "filled" || reply.data.status.GetOr("") == "completed")
  }

  /** The exchange says the order was cancelled. */
  predicate ReportsCancelled(reply: Reply) {
    reply.Ok? && reply.data.status.GetOr("") == "cancelled"
  }

  /** The order row after the exchange's `reply`. */
  function SyncedOrder(o: Order, reply: Reply): Order {
    if ReportsFilled(reply) then
      o.(status := OrderStatus.Filled, filledQuantity := o.quantity,
         filledPrice := if reply.data.avgPrice.Some? then reply.data.avgPrice else o.price)
    else if ReportsCancelled(reply) then o.(status := OrderStatus.Cancelled)
    else o
  }

  /** A PENDING position whose entry order filled at `price`. */
  function Promoted(q: Position, price: Option<real>, now: int): Position {
    q.(status := PositionStatus.Open, entryPrice := price, openedAt := Some(now))
  }

  /** One iteration of the order sweep, for order `oi`, on the current tables `t`. */
  function SyncOrderStep(answer: Endpoint -> Reply, t0: Tables, t: Tables, oi: nat, now: int): Tables
    requires oi < |t0.orders| && t0.orders[oi].position < |t0.positions|
    requires |t.orders| == |t0.orders| && |t.positions| == |t0.positions|
  {
    var o := t0.orders[oi];
    var snap := t0.positions[o.position];
    var reply := answer(OrderQuery(t0, oi));
    if ReportsFilled(reply) then
      var o' := SyncedOrder(o, reply);
      var t1 := t.(orders := t.orders[oi := o']);
      if snap.status == PositionStatus.Pending then
        t1.(positions := t.positions[o.position := Promoted(snap, o'.filledPrice, now)])
      else t1
    else if ReportsCancelled(reply) then
      t.(orders := t.orders[oi := SyncedOrder(o, reply)])
    else t
  }

  /** Whether `x` is among the first `n` of `ids`. */
  predicate InPrefix(ids: seq<nat>, n: nat, x: nat) {
    exists k :: 0 <= k < n && k < |ids| && ids[k] == x
  }

  /** The order sweep over the first `n` orders of `ids`, in that order. */
  function SweepOrders(answer: Endpoint -> Reply, t0: Tables, ids: seq<nat>, n: nat, now: int): (t: Tables)
    requires RefsValid(t0) && n <= |ids|
    requires forall k :: 0 <= k < |ids| ==> ids[k] < |t0.orders|
    ensures t.signals == t0.signals && t.updates == t0.updates
    ensures |t.orders| == |t0.orders| && |t.positions| == |t0.positions|
    decreases n
  {
    if n == 0 then t0
    else SyncOrderStep(answer, t0, SweepOrders(answer, t0, ids, n - 1, now), ids[n - 1], now)
  }

  /** The requests the order sweep sends for the first `n` orders of `ids`, one per order. */
  function OrderQueries(t0: Tables, ids: seq<nat>, n: nat): (calls: seq<Endpoint>)
    requires RefsValid(t0) && n <= |ids|
    requires forall k :: 0 <= k < |ids| ==> ids[k] < |t0.orders|
    ensures |calls| == n
    ensures forall k :: 0 <= k < n ==> calls[k] == OrderQuery(t0, ids[k])
    decreases n
  {
    if n == 0 then [] else OrderQueries(t0, ids, n - 1) + [OrderQuery(t0, ids[n - 1])]
  }

  /**
   * `_sync_orders`: every waiting order, newest first, is looked up on the
   * exchange. A filled order becomes FILLED for its whole quantity at the
   * average price reported (its limit price when none is), and opens its
   * position at that price if the position was PENDING; a cancelled order
   * becomes CANCELLED; a failed request skips the order.
   */
  method SyncOrders(db: Store, venue: Venue, now: int)
    requires RefsValid(db.Snapshot())
    modifies db, venue
    ensures var ids := NewestFirst(old(db.orders), Syncable);
      db.Snapshot() == SweepOrders(venue.answer, old(db.Snapshot()), ids, |ids|, now)
      && venue.log == old(venue.log) + OrderQueries(old(db.Snapshot()), ids, |ids|)
  {
    var ids := NewestFirst(db.orders, Syncable);
    SyncEachOrder(db, venue, ids, now);
  }

  /** The loop of the order sweep, over the orders `ids` as they are when it starts. */
  method SyncEachOrder(db: Store, venue: Venue, ids: seq<nat>, now: int)
    requires RefsValid(db.Snapshot())
    requires forall k :: 0 <= k < |ids| ==> ids[k] < |db.orders|
    modifies db, venue
    ensures db.Snapshot() == SweepOrders(venue.answer, old(db.Snapshot()), ids, |ids|, now)
    ensures venue.log == old(venue.log) + OrderQueries(old(db.Snapshot()), ids, |ids|)
  {
    var t0 := db.Snapshot();
    var k := 0;
    while k < |ids|
      invariant 0 <= k <= |ids|
      invariant db.Snapshot() == SweepOrders(venue.answer, t0, ids, k, now)
      invariant venue.log == old(venue.log) + OrderQueries(t0, ids, k)
    {
      SyncOrder(db, venue, t0, ids[k], now);
      k := k + 1;
    }
  }

  /** The body of the order sweep's loop, for order `oi` as loaded in `t0`. */
  method SyncOrder(db: Store, venue: Venue, t0: Tables, oi: nat, now: int)
    requires oi < |t0.orders| && t0.orders[oi].position < |t0.positions|
    requires |db.orders| == |t0.orders| && |db.positions| == |t0.positions|
    modifies db, venue
    ensures db.Snapshot() == SyncOrderStep(venue.answer, t0, old(db.Snapshot()), oi, now)
    ensures venue.log == old(venue.log) + [OrderQuery(t0, oi)]
  {
    var o := t0.orders[oi];
    var snap := t0.positions[o.position];
    var reply := venue.Call(GetOrder(snap.symbol, o.lbankOrderId));
    if reply.Ok? {
      var status := reply.data.status.GetOr("");
      if status == "filled" || status == "completed" {
        var filled := SyncedOrder(o, reply);
        db.SaveOrder(oi, filled);
        if snap.status == PositionStatus.Pending {
          db.SavePosition(o.position, Promoted(snap, filled.filledPrice, now));
        }
      } else if status == "cancelled" {
        db.SaveOrder(oi, SyncedOrder(o, reply));
      }
    }
  }

  /** The order sweep stays within its frame. */
  lemma {:induction false} SweepOrdersFrame(answer: Endpoint -> Reply, t0: Tables, ids: seq<nat>, n: nat, now: int)
    requires RefsValid(t0) && n <= |ids|
    requires forall k :: 0 <= k < |ids| ==> ids[k] < |t0.orders|
    ensures SweepFrame(t0, SweepOrders(answer, t0, ids, n, now))
    decreases n
  {
    if n > 0 {
      SweepOrdersFrame(answer, t0, ids, n - 1, now);
    }
  }

  /** The order sweep keeps the database consistent. */
  lemma SyncOrdersKeepsConsistent(answer: Endpoint -> Reply, t0: Tables, now: int, cap: int)
    requires Consistent(t0, cap)
    ensures var ids := NewestFirst(t0.orders, Syncable);
      Consistent(SweepOrders(answer, t0, ids, |ids|, now), cap)
  {
    var ids := NewestFirst(t0.orders, Syncable);
    SweepOrdersFrame(answer, t0, ids, |ids|, now);
    FrameKeepsConsistent(t0, SweepOrders(answer, t0, ids, |ids|, now), cap);
  }

  /** After the first `n` orders of `ids`, a visited order holds what the exchange said about it and any other is as it was. */
  lemma {:induction false} SweepOrdersOrderRow(answer: Endpoint -> Reply, t0: Tables, ids: seq<nat>, n: nat, now: int, oi: nat)
    requires RefsValid(t0) && n <= |ids| && oi < |t0.orders|
    requires forall k :: 0 <= k < |ids| ==> ids[k] < |t0.orders|
    ensures SweepOrders(answer, t0, ids, n, now).orders[oi] ==
      if InPrefix(ids, n, oi) then SyncedOrder(t0.orders[oi], answer(OrderQuery(t0, oi))) else t0.orders[oi]
    decreases n
  {
    if n > 0 {
      SweepOrdersOrderRow(answer, t0, ids, n - 1, now, oi);
      if ids[n - 1] != oi {
        assert InPrefix(ids, n, oi) ==> InPrefix(ids, n - 1, oi);
      }
    }
  }

  /** The order row the sweep leaves, for a waiting order: its meaning in terms of the exchange's reply. */
  lemma SyncedOrderMeaning(o: Order, reply: Reply)
    requires Syncable(o)
    ensures var o' := SyncedOrder(o, reply);
      o' == o.(status := o'.status, filledQuantity := o'.filledQuantity, filledPrice := o'.filledPrice)
      && (o'.status == OrderStatus.Filled <==> ReportsFilled(reply))
      && (o'.status == OrderStatus.Cancelled <==> ReportsCancelled(reply))
      && (ReportsFilled(reply) ==>
            o'.filledQuantity == o.quantity
            && o'.filledPrice == (if reply.data.avgPrice.Some? then reply.data.avgPrice else o.price))
      && (!ReportsFilled(reply) && !ReportsCancelled(reply) ==> o' == o)
  {
  }

  /**
   * What the order sweep leaves in each order row: an order that was not
   * waiting is untouched; a waiting one is FILLED exactly when the exchange
   * reported it filled or completed, then for its whole quantity at the
   * reported average price or else its own price, CANCELLED exactly when the
   * exchange reported it cancelled, and untouched otherwise; no other column
   * changes.
   */
  lemma SyncOrdersOrderRow(answer: Endpoint -> Reply, t0: Tables, now: int, oi: nat)
    requires RefsValid(t0) && oi < |t0.orders|
    ensures var ids := NewestFirst(t0.orders, Syncable);
      var o := t0.orders[oi];
      var o' := SweepOrders(answer, t0, ids, |ids|, now).orders[oi];
      var reply := answer(OrderQuery(t0, oi));
      (!Syncable(o) ==> o' == o)
      && (Syncable(o) ==>
            o' == o.(status := o'.status, filledQuantity := o'.filledQuantity, filledPrice := o'.filledPrice)
            && (o'.status == OrderStatus.Filled <==> ReportsFilled(reply))
            && (o'.status == OrderStatus.Cancelled <==> ReportsCancelled(reply))
            && (ReportsFilled(reply) ==>
                  o'.filledQuantity == o.quantity
                  && o'.filledPrice == (if reply.data.avgPrice.Some? then reply.data.avgPrice else o.price))
            && (!ReportsFilled(reply) && !ReportsCancelled(reply) ==> o' == o))
  {
    var ids := NewestFirst(t0.orders, Syncable);
    NewestFirstSpec(t0.orders, Syncable);
    SweepOrdersOrderRow(answer, t0, ids, |ids|, now, oi);
    if Syncable(t0.orders[oi]) {
      var k :| 0 <= k < |ids| && ids[k] == oi;
      assert InPrefix(ids, |ids|, oi);
      SyncedOrderMeaning(t0.orders[oi], answer(OrderQuery(t0, oi)));
    } else {
      assert !InPrefix(ids, |ids|, oi);
    }
  }

  /** Order `oi` filled on the exchange and its position was PENDING when the sweep started. */
  predicate OpensPosition(answer: Endpoint -> Reply, t0: Tables, oi: nat, pi: nat)
    requires oi < |t0.orders| && t0.orders[oi].position < |t0.positions|
  {
    t0.orders[oi].position == pi && ReportsFilled(answer(OrderQuery(t0, oi)))
    && t0.positions[pi].status == PositionStatus.Pending
  }

  /** The entry price order `oi` gives its position when it fills. */
  function FillPrice(answer: Endpoint -> Reply, t0: Tables, oi: nat): Option<real>
    requires oi < |t0.orders| && t0.orders[oi].position < |t0.positions|
  {
    SyncedOrder(t0.orders[oi], answer(OrderQuery(t0, oi))).filledPrice
  }

  /**
   * What the order sweep over the first `n` orders of `ids` leaves in
   * position row `pi`: it is untouched unless one of the visited orders of
   * that position filled while the position was PENDING, and in that case it
   * is OPEN since `now` at the fill price of one of those orders, all its
   * other columns as they were.
   */
  lemma {:induction false} SweepOrdersPositionRow(answer: Endpoint -> Reply, t0: Tables, ids: seq<nat>, n: nat, now: int, pi: nat)
    requires RefsValid(t0) && n <= |ids| && pi < |t0.positions|
    requires forall k :: 0 <= k < |ids| ==> ids[k] < |t0.orders|
    ensures var q' := SweepOrders(answer, t0, ids, n, now).positions[pi];
      ((forall k :: 0 <= k < n ==> !OpensPosition(answer, t0, ids[k], pi)) ==> q' == t0.positions[pi])
      && ((exists k :: 0 <= k < n && OpensPosition(answer, t0, ids[k], pi)) ==>
            exists k :: LastOpener(answer, t0, ids, n, pi, k)
                        && q' == Promoted(t0.positions[pi], FillPrice(answer, t0, ids[k]), now))
    decreases n
  {
    if n > 0 {
      SweepOrdersPositionRow(answer, t0, ids, n - 1, now, pi);
      var prev := SweepOrders(answer, t0, ids, n - 1, now);
      var q' := SweepOrders(answer, t0, ids, n, now).positions[pi];
      StepPositionRow(answer, t0, prev, ids[n - 1], now, pi);
      if OpensPosition(answer, t0, ids[n - 1], pi) {
        LastOpenerHere(answer, t0, ids, n, pi);
      } else {
        assert q' == prev.positions[pi];
        OpenedEarlier(answer, t0, ids, n, pi);
        if exists k :: 0 <= k < n - 1 && OpensPosition(answer, t0, ids[k], pi) {
          var k :| LastOpener(answer, t0, ids, n - 1, pi, k)
                   && prev.positions[pi] == Promoted(t0.positions[pi], FillPrice(answer, t0, ids[k]), now);
          LastOpenerKept(answer, t0, ids, n, pi, k);
        }
      }
    }
  }

  /** Among the first `n` orders of `ids`, the `k`-th is the last visited one that opens position `pi`. */
  predicate LastOpener(answer: Endpoint -> Reply, t0: Tables, ids: seq<nat>, n: nat, pi: nat, k: int)
    requires RefsValid(t0) && n <= |ids|
    requires forall k :: 0 <= k < |ids| ==> ids[k] < |t0.orders|
  {
    0 <= k < n && OpensPosition(answer, t0, ids[k], pi)
    && forall j :: k < j < n ==> !OpensPosition(answer, t0, ids[j], pi)
  }

  /** An order that opens position `pi` is the last opener of a prefix it ends. */
  lemma LastOpenerHere(answer: Endpoint -> Reply, t0: Tables, ids: seq<nat>, n: nat, pi: nat)
    requires RefsValid(t0) && 0 < n <= |ids|
    requires forall k :: 0 <= k < |ids| ==> ids[k] < |t0.orders|
    requires OpensPosition(answer, t0, ids[n - 1], pi)
    ensures LastOpener(answer, t0, ids, n, pi, n - 1)
  {
  }

  /** The last opener of a prefix stays the last opener when the next order does not open the position. */
  lemma LastOpenerKept(answer: Endpoint -> Reply, t0: Tables, ids: seq<nat>, n: nat, pi: nat, k: int)
    requires RefsValid(t0) && 0 < n <= |ids|
    requires forall k :: 0 <= k < |ids| ==> ids[k] < |t0.orders|
    requires LastOpener(answer, t0, ids, n - 1, pi, k)
    requires !OpensPosition(answer, t0, ids[n - 1], pi)
    ensures LastOpener(answer, t0, ids, n, pi, k)
  {
  }

  /**
   * In a newest-first list of the waiting orders, the last one visited that
   * opens position `pi` is the oldest waiting order that does.
   */
  lemma LastOpenerIsOldest(answer: Endpoint -> Reply, t0: Tables, ids: seq<nat>, pi: nat, k: int, oi: nat)
    requires RefsValid(t0)
    requires forall k :: 0 <= k < |ids| ==> ids[k] < |t0.orders|
    requires OnlyMatching(t0.orders, Syncable, ids) && StrictlyDecreasing(ids) && oi in ids
    requires LastOpener(answer, t0, ids, |ids|, pi, k)
    requires OldestOpener(answer, t0, oi, pi)
    ensures ids[k] == oi
  {
    var k0 :| 0 <= k0 < |ids| && ids[k0] == oi;
    assert k0 <= k;
    assert ids[k] <= oi;
    assert Syncable(t0.orders[ids[k]]);
  }

  /** Waiting order `oi` opens position `pi`, and no older waiting order does. */
  predicate OldestOpener(answer: Endpoint -> Reply, t0: Tables, oi: nat, pi: nat)
    requires RefsValid(t0)
  {
    oi < |t0.orders| && Syncable(t0.orders[oi]) && OpensPosition(answer, t0, oi, pi)
    && forall oj :: 0 <= oj < oi && Syncable(t0.orders[oj]) ==> !OpensPosition(answer, t0, oj, pi)
  }

  /**
   * Every fill of a PENDING position's order rewrites the stale snapshot, and
   * the sweep visits orders newest first, so the position ends at the fill
   * price of its OLDEST filled waiting order.
   */
  lemma SyncOrdersEntryPrice(answer: Endpoint -> Reply, t0: Tables, now: int, pi: nat, oi: nat)
    requires RefsValid(t0) && pi < |t0.positions|
    requires OldestOpener(answer, t0, oi, pi)
    ensures var ids := NewestFirst(t0.orders, Syncable);
      SweepOrders(answer, t0, ids, |ids|, now).positions[pi] == Promoted(t0.positions[pi], FillPrice(answer, t0, oi), now)
  {
    var ids := NewestFirst(t0.orders, Syncable);
    NewestFirstSpec(t0.orders, Syncable);
    assert oi in ids;
    var k0 :| 0 <= k0 < |ids| && ids[k0] == oi;
    SweepOrdersPositionRow(answer, t0, ids, |ids|, now, pi);
    var k :| LastOpener(answer, t0, ids, |ids|, pi, k)
             && SweepOrders(answer, t0, ids, |ids|, now).positions[pi] == Promoted(t0.positions[pi], FillPrice(answer, t0, ids[k]), now);
    LastOpenerIsOldest(answer, t0, ids, pi, k, oi);
  }

  /** When the last of the first `n` orders does not open position `pi`, any that does comes earlier. */
  lemma OpenedEarlier(answer: Endpoint -> Reply, t0: Tables, ids: seq<nat>, n: nat, pi: nat)
    requires RefsValid(t0) && 0 < n <= |ids| && pi < |t0.positions|
    requires forall k :: 0 <= k < |ids| ==> ids[k] < |t0.orders|
    requires !OpensPosition(answer, t0, ids[n - 1], pi)
    ensures (exists k :: 0 <= k < n && OpensPosition(answer, t0, ids[k], pi))
        ==> exists k :: 0 <= k < n - 1 && OpensPosition(answer, t0, ids[k], pi)
  {
    if exists k :: 0 <= k < n && OpensPosition(answer, t0, ids[k], pi) {
      var k :| 0 <= k < n && OpensPosition(answer, t0, ids[k], pi);
      assert k != n - 1;
    }
  }

  /** One step of the order sweep changes position row `pi` only when that step opens it. */
  lemma StepPositionRow(answer: Endpoint -> Reply, t0: Tables, t: Tables, oi: nat, now: int, pi: nat)
    requires oi < |t0.orders| && t0.orders[oi].position < |t0.positions| && pi < |t0.positions|
    requires |t.orders| == |t0.orders| && |t.positions| == |t0.positions|
    ensures SyncOrderStep(answer, t0, t, oi, now).positions[pi]
         == if OpensPosition(answer, t0, oi, pi) then Promoted(t0.positions[pi], FillPrice(answer, t0, oi), now)
            else t.positions[pi]
  {
  }

  /**
   * The order sweep only ever takes a position from PENDING to OPEN, a filled
   * order of a PENDING position always does, and the entry price is that of
   * the oldest such order.
   */
  lemma SyncOrdersPositionRow(answer: Endpoint -> Reply, t0: Tables, now: int, pi: nat)
    requires RefsValid(t0) && pi < |t0.positions|
    ensures var ids := NewestFirst(t0.orders, Syncable);
      var q := t0.positions[pi];
      var q' := SweepOrders(answer, t0, ids, |ids|, now).positions[pi];
      (q' == q
       || (q.status == PositionStatus.Pending && q'.status == PositionStatus.Open && q'.openedAt == Some(now)
           && q' == q.(status := q'.status, entryPrice := q'.entryPrice, openedAt := q'.openedAt)))
      && (forall oi :: 0 <= oi < |t0.orders| && Syncable(t0.orders[oi]) && OpensPosition(answer, t0, oi, pi) ==>
            q'.status == PositionStatus.Open)
      && (forall oi :: OldestOpener(answer, t0, oi, pi) ==> q'.entryPrice == FillPrice(answer, t0, oi))
  {
    var ids := NewestFirst(t0.orders, Syncable);
    NewestFirstSpec(t0.orders, Syncable);
    SweepOrdersPositionRow(answer, t0, ids, |ids|, now, pi);
    forall oi | 0 <= oi < |t0.orders| && Syncable(t0.orders[oi]) && OpensPosition(answer, t0, oi, pi)
      ensures exists k :: 0 <= k < |ids| && OpensPosition(answer, t0, ids[k], pi)
    {
      var k :| 0 <= k < |ids| && ids[k] == oi;
    }
    forall oi | OldestOpener(answer, t0, oi, pi)
      ensures SweepOrders(answer, t0, ids, |ids|, now).positions[pi].entryPrice == FillPrice(answer, t0, oi)
    {
      SyncOrdersEntryPrice(answer, t0, now, pi, oi);
    }
  }

  // ---------------------------------------------------------------------------
  // _sync_pnl

  /** A position whose PnL is followed: OPEN or PARTIALLY_CLOSED. */
  predicate Syncing(q: Position) {
    q.status == PositionStatus.Open || q.status == PositionStatus.PartiallyClosed
  }

  /** An entry of the positions query is on `side` once its own side is lower-cased (a missing side reads as ""). */
  predicate SideMatches(e: PositionEntry, side: string) {
    Lower(e.side.GetOr("")) == side
  }

  /** The first entry on `side`, if any. */
  function MatchingEntry(entries: seq<PositionEntry>, side: string): (r: Option<nat>)
    ensures r.Some? ==> r.value < |entries| && SideMatches(entries[r.value], side)
    ensures r.Some? ==> forall j :: 0 <= j < r.value ==> !SideMatches(entries[j], side)
    ensures r.None? ==> forall j :: 0 <= j < |entries| ==> !SideMatches(entries[j], side)
  {
    FirstWhere(entries, (e: PositionEntry) => SideMatches(e, side))
  }

  /** The scan over the entries, stopping at the first one on `side`. */
  method FindEntry(entries: seq<PositionEntry>, side: string) returns (r: Option<nat>)
    ensures r == MatchingEntry(entries, side)
  {
    r := None;
    var j := 0;
    while j < |entries|
      invariant 0 <= j <= |entries| && r.None?
      invariant forall i :: 0 <= i < j ==> !SideMatches(entries[i], side)
    {
      if Lower(entries[j].side.GetOr("")) == side {
        r := Some(j);
        break;
      }
      j := j + 1;
    }
  }

  /** The request for position `pi`: the positions on its symbol. */
  function PnlQuery(t0: Tables, pi: nat): Endpoint
    requires pi < |t0.positions|
  {
    GetPositions(Some(t0.positions[pi].symbol))
  }

  /** One iteration of the PnL sweep, for position `pi`, on the current tables `t`. */
  function SyncPnlStep(answer: Endpoint -> Reply, t0: Tables, t: Tables, pi: nat): Tables
    requires pi < |t0.positions| && |t.positions| == |t0.positions|
  {
    var q := t0.positions[pi];
    match answer(PnlQuery(t0, pi))
    case Failed => t
    case Ok(data) =>
      if |data.entries| == 0 then t
      else match MatchingEntry(data.entries, q.side)
        case None => t
        case Some(j) => t.(positions := t.positions[pi := q.(unrealizedPnl := data.entries[j].unrealizedPnl.GetOr(0.0))])
  }

  /** The PnL sweep over the first `n` positions of `ids`, in that order. */
  function SweepPnl(answer: Endpoint -> Reply, t0: Tables, ids: seq<nat>, n: nat): (t: Tables)
    requires n <= |ids|
    requires forall k :: 0 <= k < |ids| ==> ids[k] < |t0.positions|
    ensures t.signals == t0.signals && t.updates == t0.updates && t.orders == t0.orders
    ensures |t.positions| == |t0.positions|
    decreases n
  {
    if n == 0 then t0
    else SyncPnlStep(answer, t0, SweepPnl(answer, t0, ids, n - 1), ids[n - 1])
  }

  /** The requests the PnL sweep sends for the first `n` positions of `ids`, one per position. */
  function PnlQueries(t0: Tables, ids: seq<nat>, n: nat): (calls: seq<Endpoint>)
    requires n <= |ids|
    requires forall k :: 0 <= k < |ids| ==> ids[k] < |t0.positions|
    ensures |calls| == n
    ensures forall k :: 0 <= k < n ==> calls[k] == PnlQuery(t0, ids[k])
    decreases n
  {
    if n == 0 then [] else PnlQueries(t0, ids, n - 1) + [PnlQuery(t0, ids[n - 1])]
  }

  /**
   * `_sync_pnl`: every OPEN or PARTIALLY_CLOSED position, newest first, asks
   * the exchange for the positions on its symbol and takes the unrealised PnL
   * of the first entry on its side (zero when the entry has none); no entry,
   * no matching entry or a failed request leaves the position as it is.
   */
  method SyncPnl(db: Store, venue: Venue)
    modifies db, venue
    ensures var ids := NewestFirst(old(db.positions), Syncing);
      db.Snapshot() == SweepPnl(venue.answer, old(db.Snapshot()), ids, |ids|)
      && venue.log == old(venue.log) + PnlQueries(old(db.Snapshot()), ids, |ids|)
  {
    var ids := NewestFirst(db.positions, Syncing);
    SyncEachPosition(db, venue, ids);
  }

  /** The loop of the PnL sweep, over the positions `ids` as they are when it starts. */
  method SyncEachPosition(db: Store, venue: Venue, ids: seq<nat>)
    requires forall k :: 0 <= k < |ids| ==> ids[k] < |db.positions|
    modifies db, venue
    ensures db.Snapshot() == SweepPnl(venue.answer, old(db.Snapshot()), ids, |ids|)
    ensures venue.log == old(venue.log) + PnlQueries(old(db.Snapshot()), ids, |ids|)
  {
    var t0 := db.Snapshot();
    var k := 0;
    while k < |ids|
      invariant 0 <= k <= |ids|
      invariant db.Snapshot() == SweepPnl(venue.answer, t0, ids, k)
      invariant venue.log == old(venue.log) + PnlQueries(t0, ids, k)
    {
      SyncPositionPnl(db, venue, t0, ids[k]);
      k := k + 1;
    }
  }

  /** The body of the PnL sweep's loop, for position `pi` as loaded in `t0`. */
  method SyncPositionPnl(db: Store, venue: Venue, t0: Tables, pi: nat)
    requires pi < |t0.positions| && |db.positions| == |t0.positions|
    modifies db, venue
    ensures db.Snapshot() == SyncPnlStep(venue.answer, t0, old(db.Snapshot()), pi)
    ensures venue.log == old(venue.log) + [PnlQuery(t0, pi)]
  {
    var q := t0.positions[pi];
    var reply := venue.Call(GetPositions(Some(q.symbol)));
    if reply.Ok? && |reply.data.entries| > 0 {
      var j := FindEntry(reply.data.entries, q.side);
      if j.Some? {
        db.SavePosition(pi, q.(unrealizedPnl := reply.data.entries[j.value].unrealizedPnl.GetOr(0.0)));
      }
    }
  }

  /** The PnL reported for position `pi`, if the exchange reports one. */
  function ReportedPnl(answer: Endpoint -> Reply, t0: Tables, pi: nat): Option<real>
    requires pi < |t0.positions|
  {
    match answer(PnlQuery(t0, pi))
    case Failed => None
    case Ok(data) =>
      match MatchingEntry(data.entries, t0.positions[pi].side)
      case None => None
      case Some(j) => Some(data.entries[j].unrealizedPnl.GetOr(0.0))
  }

  /** After the first `n` positions of `ids`, a visited position holds the reported PnL, if any, and any other is as it was. */
  lemma {:induction false} SweepPnlRow(answer: Endpoint -> Reply, t0: Tables, ids: seq<nat>, n: nat, pi: nat)
    requires n <= |ids| && pi < |t0.positions|
    requires forall k :: 0 <= k < |ids| ==> ids[k] < |t0.positions|
    ensures SweepPnl(answer, t0, ids, n).positions[pi] ==
      if InPrefix(ids, n, pi) && ReportedPnl(answer, t0, pi).Some?
      then t0.positions[pi].(unrealizedPnl := ReportedPnl(answer, t0, pi).value)
      else t0.positions[pi]
    decreases n
  {
    if n > 0 {
      SweepPnlRow(answer, t0, ids, n - 1, pi);
      if ids[n - 1] != pi {
        assert InPrefix(ids, n, pi) ==> InPrefix(ids, n - 1, pi);
      }
    }
  }

  /**
   * What the PnL sweep leaves in each position row: only the unrealised PnL
   * can change, only for an OPEN or PARTIALLY_CLOSED position, and then it is
   * the PnL of the first entry the exchange reports on the position's side,
   * or zero when that entry carries none.
   */
  lemma SyncPnlRow(answer: Endpoint -> Reply, t0: Tables, pi: nat)
    requires pi < |t0.positions|
    ensures var ids := NewestFirst(t0.positions, Syncing);
      var q := t0.positions[pi];
      var q' := SweepPnl(answer, t0, ids, |ids|).positions[pi];
      var reply := answer(PnlQuery(t0, pi));
      q' == q.(unrealizedPnl := q'.unrealizedPnl)
      && (!Syncing(q) || reply.Failed? ==> q' == q)
      && (Syncing(q) && reply.Ok? ==>
            match MatchingEntry(reply.data.entries, q.side)
            case None => q' == q
            case Some(j) => q'.unrealizedPnl == reply.data.entries[j].unrealizedPnl.GetOr(0.0))
  {
    var ids := NewestFirst(t0.positions, Syncing);
    NewestFirstSpec(t0.positions, Syncing);
    SweepPnlRow(answer, t0, ids, |ids|, pi);
    if Syncing(t0.positions[pi]) {
      var k :| 0 <= k < |ids| && ids[k] == pi;
      assert InPrefix(ids, |ids|, pi);
    } else {
      assert !InPrefix(ids, |ids|, pi);
    }
  }

  /** The PnL sweep keeps the database consistent. */
  lemma SyncPnlKeepsConsistent(answer: Endpoint -> Reply, t0: Tables, cap: int)
    requires Consistent(t0, cap)
    ensures var ids := NewestFirst(t0.positions, Syncing);
      Consistent(SweepPnl(answer, t0, ids, |ids|), cap)
  {
    var ids := NewestFirst(t0.positions, Syncing);
    var t := SweepPnl(answer, t0, ids, |ids|);
    forall pi | 0 <= pi < |t.positions| ensures Steady(t0.positions[pi], t.positions[pi]) {
      SweepPnlRow(answer, t0, ids, |ids|, pi);
    }
    forall i | 0 <= i < |t.orders| ensures SameShape(t0.orders[i], t.orders[i]) {
    }
    FrameKeepsConsistent(t0, t, cap);
  }
}
