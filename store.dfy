/**
 * The database the core reads and writes: four tables kept in creation
 * order (a row's id is its index), the queries the manager runs against
 * them, and the invariant every entry point keeps.
 */
module Database {
  import opened Wrappers
  import opened Search
  import opened SignalModels
  import opened TradingModels

  datatype Tables = Tables(
    signals: seq<Signal>,
    updates: seq<SignalUpdate>,
    positions: seq<Position>,
    orders: seq<Order>)

  /** A position that counts against the cap on concurrent positions: OPEN or PENDING. */
  predicate Counted(q: Position) {
    q.status == PositionStatus.Open || q.status == PositionStatus.Pending
  }

  /** The number of OPEN or PENDING positions (PARTIALLY_CLOSED ones are not counted). */
  function OpenCount(positions: seq<Position>): (n: nat)
    ensures n <= |positions|
  {
    CountWhere(positions, Counted)
  }

  /**
   * The cap query counts exactly the OPEN and PENDING positions: none
   * are live when it is zero.
   */
  lemma OpenCountSpec(positions: seq<Position>)
    ensures OpenCount(positions) == |MatchingIndices(positions, Counted)|
    ensures OpenCount(positions) == 0 <==> forall i :: 0 <= i < |positions| ==> !Counted(positions[i])
  {
    CountWhereSpec(positions, Counted);
  }

  /** Whether order `o` reduces position `pi`. */
  predicate ClosesPosition(o: Order, pi: nat) {
    o.position == pi && IsCloseSide(o.side)
  }

  /** The total quantity of all close orders ever recorded for position `pi`. */
  function CloseVolume(orders: seq<Order>, pi: nat): real
    decreases |orders|
  {
    if |orders| == 0 then 0.0
    else
      var o := orders[|orders| - 1];
      CloseVolume(orders[..|orders| - 1], pi) + (if ClosesPosition(o, pi) then o.quantity else 0.0)
  }

  lemma CloseVolumeAppend(orders: seq<Order>, o: Order, pi: nat)
    ensures CloseVolume(orders + [o], pi) == CloseVolume(orders, pi) + (if ClosesPosition(o, pi) then o.quantity else 0.0)
  {
    assert (orders + [o])[..|orders|] == orders;
  }

  /** A position no order refers to has no close volume. */
  lemma {:induction false} CloseVolumeUnreferenced(orders: seq<Order>, pi: nat)
    requires forall i :: 0 <= i < |orders| ==> orders[i].position != pi
    ensures CloseVolume(orders, pi) == 0.0
    decreases |orders|
  {
    if |orders| > 0 {
      CloseVolumeUnreferenced(orders[..|orders| - 1], pi);
    }
  }

  /** Orders that keep their position, side and quantity keep every close volume. */
  lemma {:induction false} CloseVolumeSameShape(orders: seq<Order>, after: seq<Order>, pi: nat)
    requires |orders| == |after|
    requires forall i :: 0 <= i < |orders| ==> SameShape(orders[i], after[i])
    ensures CloseVolume(after, pi) == CloseVolume(orders, pi)
    decreases |orders|
  {
    if |orders| > 0 {
      CloseVolumeSameShape(orders[..|orders| - 1], after[..|after| - 1], pi);
    }
  }

  /** The columns of an order that the close volume reads. */
  predicate SameShape(o: Order, o': Order) {
    o.position == o'.position && o.side == o'.side && o.quantity == o'.quantity
  }

  /** Every reference points at an existing row. */
  ghost predicate RefsValid(t: Tables) {
    (forall i :: 0 <= i < |t.updates| ==> t.updates[i].signal < |t.signals|)
    && (forall i :: 0 <= i < |t.positions| ==> t.positions[i].signal < |t.signals|)
    && (forall i :: 0 <= i < |t.orders| ==> t.orders[i].position < |t.positions|)
  }

  /**
   * What has been closed of every position is accounted for by its close
   * orders: quantity − remaining_quantity is the total quantity of the close
   * orders recorded for it.
   */
  ghost predicate Ledger(t: Tables) {
    forall pi :: 0 <= pi < |t.positions| ==>
      t.positions[pi].quantity - t.positions[pi].remainingQuantity == CloseVolume(t.orders, pi)
  }

  /**
   * The invariant of the database under the manager and the sweeps: valid
   * references, unique message ids, at most `cap` OPEN or PENDING positions,
   * and the close ledger.
   */
  ghost predicate Consistent(t: Tables, cap: int) {
    RefsValid(t)
    && UniqueSignalIds(t.signals)
    && UniqueUpdateIds(t.updates)
    && OpenCount(t.positions) <= cap
    && Ledger(t)
  }

  /** The empty database is consistent under any non-negative cap. */
  lemma EmptyConsistent(cap: int)
    requires cap >= 0
    ensures Consistent(Tables([], [], [], []), cap)
  {
  }

  /**
   * Rewriting one position (same signal, not newly counted against the cap)
   * and adding at most one order for it keeps the invariant, provided the
   * closed amount grows by exactly the quantity of the order when it is a
   * close order.
   */
  lemma {:induction false} PositionStepKeepsConsistent(t: Tables, cap: int, pi: nat, q: Position, added: Option<Order>)
    requires Consistent(t, cap) && pi < |t.positions|
    requires q.signal == t.positions[pi].signal
    requires Counted(q) ==> Counted(t.positions[pi])
    requires added.Some? ==> added.value.position == pi
    requires q.quantity - q.remainingQuantity ==
      t.positions[pi].quantity - t.positions[pi].remainingQuantity
      + (if added.Some? && IsCloseSide(added.value.side) then added.value.quantity else 0.0)
    ensures Consistent(t.(positions := t.positions[pi := q],
                          orders := t.orders + (if added.Some? then [added.value] else [])), cap)
  {
    var ps := t.positions[pi := q];
    var os := t.orders + (if added.Some? then [added.value] else []);
    var t' := t.(positions := ps, orders := os);
    CountWhereMonotone(t.positions, ps, Counted);
    forall j | 0 <= j < |ps|
      ensures ps[j].quantity - ps[j].remainingQuantity == CloseVolume(os, j)
    {
      if added.Some? {
        CloseVolumeAppend(t.orders, added.value, j);
      } else {
        assert os == t.orders;
      }
      if j != pi {
        assert ps[j] == t.positions[j];
      }
    }
    assert RefsValid(t') by {
      forall i | 0 <= i < |os| ensures os[i].position < |ps| {
        if i < |t.orders| {
          assert os[i] == t.orders[i];
        }
      }
    }
  }

  /** Changing the status of a signal keeps the invariant. */
  lemma SignalStatusKeepsConsistent(t: Tables, cap: int, si: nat, st: SignalStatus)
    requires Consistent(t, cap) && si < |t.signals|
    ensures Consistent(t.(signals := t.signals[si := t.signals[si].(status := st)]), cap)
  {
    StatusChangeKeepsUnique(t.signals, si, st);
  }

  /** Recording an update for an existing signal under a fresh message id keeps the invariant. */
  lemma AppendUpdateKeepsConsistent(t: Tables, cap: int, u: SignalUpdate)
    requires Consistent(t, cap) && u.signal < |t.signals|
    requires !UpdateIdTaken(t.updates, u.telegramMsgId)
    ensures Consistent(t.(updates := t.updates + [u]), cap)
  {
    AppendUpdateUnique(t.updates, u);
    var us := t.updates + [u];
    forall i | 0 <= i < |us| ensures us[i].signal < |t.signals| {
      if i < |t.updates| {
        assert us[i] == t.updates[i];
      }
    }
  }

  /**
   * Opening a position below the cap, with nothing closed yet and an order
   * that is not a close order, keeps the invariant.
   */
  lemma {:induction false} OpenPositionKeepsConsistent(t: Tables, cap: int, q: Position, o: Order)
    requires Consistent(t, cap) && OpenCount(t.positions) < cap
    requires q.signal < |t.signals| && q.quantity == q.remainingQuantity
    requires o.position == |t.positions| && !IsCloseSide(o.side)
    ensures Consistent(t.(positions := t.positions + [q], orders := t.orders + [o]), cap)
  {
    var ps := t.positions + [q];
    var os := t.orders + [o];
    CountWhereAppend(t.positions, q, Counted);
    CloseVolumeUnreferenced(t.orders, |t.positions|);
    forall j | 0 <= j < |ps|
      ensures ps[j].quantity - ps[j].remainingQuantity == CloseVolume(os, j)
    {
      CloseVolumeAppend(t.orders, o, j);
      if j < |t.positions| {
        assert ps[j] == t.positions[j];
      }
    }
    assert RefsValid(t.(positions := ps, orders := os)) by {
      forall i | 0 <= i < |ps| ensures ps[i].signal < |t.signals| {
        if i < |t.positions| {
          assert ps[i] == t.positions[i];
        }
      }
      forall i | 0 <= i < |os| ensures os[i].position < |ps| {
        if i < |t.orders| {
          assert os[i] == t.orders[i];
        }
      }
    }
  }

  /** Inserting a signal under a fresh message id keeps the invariant. */
  lemma AppendSignalKeepsConsistent(t: Tables, cap: int, s: Signal)
    requires Consistent(t, cap) && !SignalIdTaken(t.signals, s.telegramMsgId)
    ensures Consistent(t.(signals := t.signals + [s]), cap)
  {
    AppendSignalUnique(t.signals, s);
  }

  /** The tables, held as sequences that the ORM calls reassign. */
  class Store {
    var signals: seq<Signal>
    var updates: seq<SignalUpdate>
    var positions: seq<Position>
    var orders: seq<Order>

    constructor ()
      ensures Snapshot() == Tables([], [], [], [])
    {
      signals := [];
      updates := [];
      positions := [];
      orders := [];
    }

    function Snapshot(): Tables
      reads this
    {
      Tables(signals, updates, positions, orders)
    }

    /** `Signal.objects.acreate`: refused (None) when the message id is taken. */
    method InsertSignal(s: Signal) returns (id: Option<nat>)
      modifies this
      ensures SignalIdTaken(old(signals), s.telegramMsgId) ==> id.None? && Snapshot() == old(Snapshot())
      ensures !SignalIdTaken(old(signals), s.telegramMsgId) ==>
        id == Some(|old(signals)|) && Snapshot() == old(Snapshot()).(signals := old(signals) + [s])
    {
      if SignalIdTaken(signals, s.telegramMsgId) {
        id := None;
      } else {
        id := Some(|signals|);
        signals := signals + [s];
      }
    }

    /** `SignalUpdate.objects.acreate`: refused (false) when the message id is taken. */
    method InsertUpdate(u: SignalUpdate) returns (ok: bool)
      modifies this
      ensures ok == !UpdateIdTaken(old(updates), u.telegramMsgId)
      ensures Snapshot() == if ok then old(Snapshot()).(updates := old(updates) + [u]) else old(Snapshot())
    {
      ok := !UpdateIdTaken(updates, u.telegramMsgId);
      if ok {
        updates := updates + [u];
      }
    }

    /** `Position.objects.acreate`. */
    method InsertPosition(q: Position) returns (id: nat)
      modifies this
      ensures id == |old(positions)|
      ensures Snapshot() == old(Snapshot()).(positions := old(positions) + [q])
    {
      id := |positions|;
      positions := positions + [q];
    }

    /** `Order.objects.acreate`. */
    method InsertOrder(o: Order) returns (id: nat)
      modifies this
      ensures id == |old(orders)|
      ensures Snapshot() == old(Snapshot()).(orders := old(orders) + [o])
    {
      id := |orders|;
      orders := orders + [o];
    }

    /** `signal.asave()`: the whole row is written. */
    method SaveSignal(i: nat, s: Signal)
      requires i < |signals|
      modifies this
      ensures Snapshot() == old(Snapshot()).(signals := old(signals)[i := s])
    {
      signals := signals[i := s];
    }

    /** `position.asave()`: the whole row is written. */
    method SavePosition(i: nat, q: Position)
      requires i < |positions|
      modifies this
      ensures Snapshot() == old(Snapshot()).(positions := old(positions)[i := q])
    {
      positions := positions[i := q];
    }

    /** `order.asave()`: the whole row is written. */
    method SaveOrder(i: nat, o: Order)
      requires i < |orders|
      modifies this
      ensures Snapshot() == old(Snapshot()).(orders := old(orders)[i := o])
    {
      orders := orders[i := o];
    }
  }
}
