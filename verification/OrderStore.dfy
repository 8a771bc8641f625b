/**
 The order service's tables and the transactions on them.

 Orders are keyed by their id. Apply is documented as row-locked, though its read takes no FOR UPDATE; it is
 one atomic step here.
 */
module OrderStore {
  import opened Base
  import opened Orders
  import Pricing
  import Sorting
  import Groups
  import Idempotency

  /** An order.created row has status PendingPayment. */
  datatype OrderEvent = OrderEvent(order: nat, status: Status)

  datatype Db = Db(
    orders: map<nat, Order>, processed: set<string>, deliveries: set<(nat, string)>, outbox: seq<OrderEvent>)

  const EMPTY := Db(map[], {}, {}, [])

  datatype Reply = Duplicate | NotFound | BadTransition | Done(order: Order)

  predicate Seen(db: Db, eventId: string) {
    eventId != "" && eventId in db.processed
  }

  function Noted(db: Db, eventId: string): Db {
    if eventId == "" then db else db.(processed := db.processed + {eventId})
  }

  /** The order's new status with its outbox row. */
  function Persisted(db: Db, id: nat, o: Order, now: int): Db {
    db.(orders := db.orders[id := o.(updatedAt := now)], outbox := db.outbox + [OrderEvent(id, o.status)])
  }

  // ---- Apply -------------------------------------------------------------------------

  function ApplyReply(db: Db, id: nat, eventId: string, m: Move): Reply {
    if Seen(db, eventId) then Duplicate
    else if id !in db.orders then NotFound
    else match Moved(db.orders[id], m) case None => BadTransition case Some(o) => Done(o)
  }

  function Applied(db: Db, id: nat, eventId: string, m: Move, now: int): Db {
    var r := ApplyReply(db, id, eventId, m);
    if !r.Done? then db
    else if r.order.status == db.orders[id].status then Noted(db, eventId)
    else Persisted(Noted(db, eventId), id, r.order, now)
  }

  // ---- shipments ---------------------------------------------------------------------

  /** Every shop group of the order has a delivery row. */
  ghost predicate AllDelivered(deliveries: set<(nat, string)>, id: nat, o: Order) {
    forall shop :: Groups.HasShop(o.lines, shop) ==> (id, shop) in deliveries
  }

  ghost function Delivered(db: Db, id: nat, shop: string, eventId: string, now: int): Db {
    if Seen(db, eventId) || id !in db.orders then db
    else
      var o := db.orders[id];
      var noted := Noted(db, eventId).(deliveries := db.deliveries + {(id, shop)});
      if o.status == Confirmed && AllDelivered(noted.deliveries, id, o) then
        Persisted(noted, id, o.(status := Fulfilled), now)
      else noted
  }

  // ---- the compensation ledger ---------------------------------------------------------

  predicate Owes(o: Order) {
    (!o.released && o.reservationId.Some?) || (!o.voided && o.paymentId.Some?)
  }

  /** The WHERE clause of the reconciler's query. */
  predicate Pending(db: Db, id: nat, cutoff: int) {
    id in db.orders && db.orders[id].status == Cancelled && Owes(db.orders[id]) && db.orders[id].updatedAt < cutoff
  }

  datatype Owed = Owed(order: nat, reservation: Option<nat>, payment: Option<nat>)

  function OwedBy(id: nat, o: Order): Owed {
    Owed(id, if o.released then None else o.reservationId, if o.voided then None else o.paymentId)
  }

  function MarkedReleased(db: Db, id: nat): Db {
    if id in db.orders then db.(orders := db.orders[id := db.orders[id].(released := true)]) else db
  }

  function MarkedVoided(db: Db, id: nat): Db {
    if id in db.orders then db.(orders := db.orders[id := db.orders[id].(voided := true)]) else db
  }

  // ---- inserts ---------------------------------------------------------------------------

  function InsertedOrder(db: Db, id: nat, o: Order): Db {
    db.(orders := db.orders[id := o], outbox := db.outbox + [OrderEvent(id, o.status)])
  }

  /** The order and its key are written together or not at all. */
  predicate InsertLands(db: Db, keys: Idempotency.Keys, id: nat, key: string, commits: bool) {
    commits && id !in db.orders && (key == "" || Idempotency.CanComplete(keys, key))
  }

  // ---- what each transaction does, in figures ----------------------------------------------------

  /**
   An applied mutation notes its event id and, if the status moved, stamps the order and announces the new status;
   one that is a duplicate, names no order, or is refused, leaves everything as it was.
   */
  lemma AppliedFigures(db: Db, id: nat, eventId: string, m: Move, now: int)
    ensures var r := ApplyReply(db, id, eventId, m);
            var t := Applied(db, id, eventId, m, now);
            && (eventId != "" && eventId in db.processed ==> r == Duplicate)
            && (!r.Done? ==> t == db)
            && (r.Done? ==>
                  && id in db.orders && Moved(db.orders[id], m) == Some(r.order)
                  && t.processed == db.processed + (if eventId == "" then {} else {eventId})
                  && t.deliveries == db.deliveries
                  && (if r.order.status == db.orders[id].status then t.orders == db.orders && t.outbox == db.outbox
                      else t.orders == db.orders[id := r.order.(updatedAt := now)]
                           && t.outbox == db.outbox + [OrderEvent(id, r.order.status)]))
  {
    assert db.processed + {} == db.processed;
  }

  /** The reconciler's filter: cancelled before the cutoff, with stock not marked released or a payment not marked voided. */
  lemma PendingFigures(db: Db, id: nat, cutoff: int)
    ensures Pending(db, id, cutoff) <==>
            && id in db.orders && db.orders[id].status == Cancelled && db.orders[id].updatedAt < cutoff
            && ((db.orders[id].reservationId.Some? && !db.orders[id].released)
                || (db.orders[id].paymentId.Some? && !db.orders[id].voided))
    ensures id in db.orders ==>
              var o := db.orders[id];
              OwedBy(id, o) == Owed(id, if o.released then None else o.reservationId, if o.voided then None else o.paymentId)
  {
  }

  // ---- the outbox tells each order's history --------------------------------------------------------

  /** The statuses announced for an order, in order. */
  function Announced(outbox: seq<OrderEvent>, id: nat): seq<Status> {
    if outbox == [] then []
    else
      var n := |outbox| - 1;
      Announced(outbox[..n], id) + (if outbox[n].order == id then [outbox[n].status] else [])
  }

  lemma AnnouncedPush(outbox: seq<OrderEvent>, e: OrderEvent, id: nat)
    ensures Announced(outbox + [e], id) == Announced(outbox, id) + (if e.order == id then [e.status] else [])
  {
    assert (outbox + [e])[..|outbox|] == outbox;
  }

  /** From PENDING_PAYMENT along the moves of the state machine to where it now stands. */
  ghost predicate LeadsTo(history: seq<Status>, now: Status) {
    && history != [] && history[0] == PendingPayment && history[|history| - 1] == now
    && forall k :: 0 < k < |history| ==> (history[k - 1], history[k]) in MOVES
  }

  /** Every order was announced at every status it went through, and only then; no other order was. */
  ghost predicate Recorded(db: Db) {
    forall id: nat :: if id in db.orders then LeadsTo(Announced(db.outbox, id), db.orders[id].status) else Announced(db.outbox, id) == []
  }

  lemma OneMoreAnnounced(db: Db, t: Db, id: nat)
    requires Recorded(db) && id in t.orders && t.outbox == db.outbox + [OrderEvent(id, t.orders[id].status)]
    requires t.orders == db.orders[id := t.orders[id]]
    requires if id in db.orders then (db.orders[id].status, t.orders[id].status) in MOVES else t.orders[id].status == PendingPayment
    ensures Recorded(t)
  {
    forall k: nat
      ensures if k in t.orders then LeadsTo(Announced(t.outbox, k), t.orders[k].status) else Announced(t.outbox, k) == []
    {
      AnnouncedPush(db.outbox, OrderEvent(id, t.orders[id].status), k);
      assert if k in db.orders then LeadsTo(Announced(db.outbox, k), db.orders[k].status) else Announced(db.outbox, k) == [];
    }
  }

  lemma AppliedKeepsRecorded(db: Db, id: nat, eventId: string, m: Move, now: int)
    requires Recorded(db)
    ensures Recorded(Applied(db, id, eventId, m, now))
  {
    var t := Applied(db, id, eventId, m, now);
    if t.outbox != db.outbox {
      MovedFigures(db.orders[id], if m.Cancel? || m.CancelIfPending? then m.reason else "");
      OneMoreAnnounced(db, t, id);
    }
  }

  lemma DeliveredKeepsRecorded(db: Db, id: nat, shop: string, eventId: string, now: int)
    requires Recorded(db)
    ensures Recorded(Delivered(db, id, shop, eventId, now))
  {
    var t := Delivered(db, id, shop, eventId, now);
    if t.outbox != db.outbox {
      OneMoreAnnounced(db, t, id);
    }
  }

  lemma InsertKeepsRecorded(db: Db, id: nat, o: Order)
    requires Recorded(db) && id !in db.orders && o.status == PendingPayment
    ensures Recorded(InsertedOrder(db, id, o))
  {
    OneMoreAnnounced(db, InsertedOrder(db, id, o), id);
  }

  lemma MarksKeepRecorded(db: Db, id: nat)
    requires Recorded(db)
    ensures Recorded(MarkedReleased(db, id)) && Recorded(MarkedVoided(db, id))
  {
  }

  // ---- the store ---------------------------------------------------------------------------

  class Store {
    var orders: map<nat, Order>
    var processed: set<string>
    var deliveries: set<(nat, string)>
    var outbox: seq<OrderEvent>
    const keyTable: Idempotency.KeyTable

    function State(): Db
      reads this
    {
      Db(orders, processed, deliveries, outbox)
    }

    constructor (keyTable: Idempotency.KeyTable)
      ensures State() == EMPTY && this.keyTable == keyTable
    {
      orders, processed, deliveries, outbox := map[], {}, {}, [];
      this.keyTable := keyTable;
    }

    /** Mutates one order and writes its outbox row, once per event id. */
    method Apply(id: nat, eventId: string, m: Move, now: int) returns (r: Reply)
      modifies this
      ensures r == ApplyReply(old(State()), id, eventId, m)
      ensures State() == Applied(old(State()), id, eventId, m, now)
    {
      if eventId != "" && eventId in processed {
        return Duplicate;
      }
      if id !in orders {
        return NotFound;
      }
      var before := orders[id].status;
      var o := Moved(orders[id], m);
      if o == None {
        return BadTransition;
      }
      if eventId != "" {
        processed := processed + {eventId};
      }
      if o.value.status != before {
        orders := orders[id := o.value.(updatedAt := now)];
        outbox := outbox + [OrderEvent(id, o.value.status)];
      }
      r := Done(o.value);
    }

    /** Records one shop's delivery and fulfils the order when it was the last one missing. */
    method ApplyShipmentDelivered(id: nat, shop: string, eventId: string, now: int) returns (r: Reply)
      modifies this
      ensures State() == Delivered(old(State()), id, shop, eventId, now)
      ensures r == if Seen(old(State()), eventId) then Duplicate
                   else if id !in old(orders) then NotFound
                   else Done(State().orders[id].(updatedAt := old(orders)[id].updatedAt))
    {
      if eventId != "" && eventId in processed {
        return Duplicate;
      }
      if id !in orders {
        return NotFound;
      }
      var o := orders[id];
      if eventId != "" {
        processed := processed + {eventId};
      }
      deliveries := deliveries + {(id, shop)};
      if o.status != Confirmed {
        return Done(o);
      }
      var required := Groups.ShopGroups(o.lines);
      var delivered := set d | d in deliveries && d.0 == id && d.1 in required :: d.1;
      CountCovers(deliveries, id, required, delivered);
      if |delivered| < |required| {
        assert !AllDelivered(deliveries, id, o) by {
          var shop' :| shop' in required && (id, shop') !in deliveries;
          assert Groups.HasShop(o.lines, shop');
        }
        return Done(o);
      }
      o := o.(status := Fulfilled);
      orders := orders[id := o.(updatedAt := now)];
      outbox := outbox + [OrderEvent(id, Fulfilled)];
      r := Done(o);
    }

    method InsertWithKey(id: nat, o: Order, key: string, commits: bool) returns (ok: bool)
      modifies this, keyTable
      ensures ok <==> InsertLands(old(State()), old(keyTable.keys), id, key, commits)
      ensures State() == if ok then InsertedOrder(old(State()), id, o) else old(State())
      ensures keyTable.keys == if ok && key != "" then Idempotency.Closed(old(keyTable.keys), key, id) else old(keyTable.keys)
    {
      if id in orders || !commits {
        return false;
      }
      if key != "" {
        if key !in keyTable.keys || keyTable.keys[key].status != Idempotency.InFlight {
          return false;
        }
        keyTable.keys := keyTable.keys[key := keyTable.keys[key].(status := Idempotency.Completed, orderId := Some(id))];
      }
      orders := orders[id := o];
      outbox := outbox + [OrderEvent(id, o.status)];
      ok := true;
    }

    method MarkReservationReleased(id: nat)
      modifies this
      ensures State() == MarkedReleased(old(State()), id)
    {
      if id in orders {
        orders := orders[id := orders[id].(released := true)];
      }
    }

    method MarkPaymentVoided(id: nat)
      modifies this
      ensures State() == MarkedVoided(old(State()), id)
    {
      if id in orders {
        orders := orders[id := orders[id].(voided := true)];
      }
    }

    /** Cancelled orders that still owe a compensation, oldest first. */
    method PendingCompensations(settledFor: int, now: int, limit: int) returns (out: seq<Owed>)
      ensures Listing(State(), now - settledFor, Limit(limit), out)
    {
      var n, cutoff := Limit(limit), now - settledFor;
      ghost var db := State();
      var left := set id | id in orders && Pending(Db(orders, processed, deliveries, outbox), id, cutoff);
      out := [];
      while left != {} && |out| < n
        invariant |out| <= n && left <= orders.Keys
        invariant Selected(db, cutoff, out, left)
        decreases left
      {
        var id := PickOldest(left);
        SelectedNext(db, cutoff, out, left, id);
        var o := orders[id];
        out := out + [Owed(id, if o.released then None else o.reservationId, if o.voided then None else o.paymentId)];
        left := left - {id};
      }
      SelectedIsListing(db, cutoff, out, left, n);
    }

    /** ORDER BY updated_at. */
    method PickOldest(ids: set<nat>) returns (id: nat)
      requires ids != {} && ids <= orders.Keys
      ensures id in ids && forall k :: k in ids ==> orders[id].updatedAt <= orders[k].updatedAt
    {
      ghost var oldest := Oldest(orders, ids);
      id :| id in ids && forall k :: k in ids ==> orders[id].updatedAt <= orders[k].updatedAt;
    }
  }

  lemma SelectedIsListing(db: Db, cutoff: int, out: seq<Owed>, left: set<nat>, n: nat)
    requires Selected(db, cutoff, out, left) && |out| <= n && (left == {} || |out| == n)
    ensures Listing(db, cutoff, n, out)
  {
  }

  /** Part way: out holds the oldest pending orders in order, left the others. */
  ghost predicate Selected(db: Db, cutoff: int, out: seq<Owed>, left: set<nat>) {
    && (forall id :: id in left ==> Pending(db, id, cutoff))
    && (forall k :: 0 <= k < |out| ==> Pending(db, out[k].order, cutoff) && out[k] == OwedBy(out[k].order, db.orders[out[k].order]))
    && (forall j, k :: 0 <= j < k < |out| ==>
          out[j].order != out[k].order && db.orders[out[j].order].updatedAt <= db.orders[out[k].order].updatedAt)
    && (forall k, id :: 0 <= k < |out| && id in left ==>
          out[k].order != id && db.orders[out[k].order].updatedAt <= db.orders[id].updatedAt)
    && (forall id :: Pending(db, id, cutoff) ==> id in left || Lists(out, id))
  }

  lemma SelectedNext(db: Db, cutoff: int, out: seq<Owed>, left: set<nat>, id: nat)
    requires Selected(db, cutoff, out, left) && id in left
    requires forall k :: k in left ==> db.orders[id].updatedAt <= db.orders[k].updatedAt
    ensures Selected(db, cutoff, out + [OwedBy(id, db.orders[id])], left - {id})
  {
    var more := out + [OwedBy(id, db.orders[id])];
    ListsPush(out, more, id);
    assert forall k :: 0 <= k < |out| ==> more[k] == out[k];
  }

  function Limit(limit: int): (n: nat)
    ensures 0 < n <= 500
    ensures 1 <= limit <= 500 ==> n == limit
    ensures limit < 1 || limit > 500 ==> n == 100
  {
    if limit <= 0 || limit > 500 then 100 else limit
  }

  predicate Lists(out: seq<Owed>, id: nat) {
    exists k :: 0 <= k < |out| && out[k].order == id
  }

  lemma ListsPush(before: seq<Owed>, after: seq<Owed>, id: nat)
    requires |after| == |before| + 1 && after[..|before|] == before && after[|before|].order == id
    ensures Lists(after, id) && forall k :: Lists(before, k) ==> Lists(after, k)
  {
    forall k | Lists(before, k) ensures Lists(after, k) {
      var i :| 0 <= i < |before| && before[i].order == k;
      assert after[i] == after[..|before|][i];
    }
  }

  /** What the query may return: pending orders, each once, oldest first, and all of them unless cut off by the limit. */
  ghost predicate Listing(db: Db, cutoff: int, n: nat, out: seq<Owed>) {
    && |out| <= n
    && (forall k :: 0 <= k < |out| ==> Pending(db, out[k].order, cutoff) && out[k] == OwedBy(out[k].order, db.orders[out[k].order]))
    && (forall j, k :: 0 <= j < k < |out| ==>
          out[j].order != out[k].order && db.orders[out[j].order].updatedAt <= db.orders[out[k].order].updatedAt)
    && (forall id :: Pending(db, id, cutoff) && !Lists(out, id) ==>
          |out| == n && forall k :: 0 <= k < |out| ==> db.orders[out[k].order].updatedAt <= db.orders[id].updatedAt)
  }

  lemma {:induction false} Oldest(orders: map<nat, Order>, ids: set<nat>) returns (id: nat)
    requires ids != {} && ids <= orders.Keys
    ensures id in ids && forall k :: k in ids ==> orders[id].updatedAt <= orders[k].updatedAt
    decreases ids
  {
    var x :| x in ids;
    if ids == {x} {
      id := x;
    } else {
      var y := Oldest(orders, ids - {x});
      id := if orders[x].updatedAt <= orders[y].updatedAt then x else y;
    }
  }

  /** Counting delivered shops against the required list decides whether all of them delivered. */
  lemma CountCovers(deliveries: set<(nat, string)>, id: nat, required: seq<string>, delivered: set<string>)
    requires Sorting.Sorted(Sorting.Below, required)
    requires delivered == set d | d in deliveries && d.0 == id && d.1 in required :: d.1
    ensures |delivered| < |required| <==> exists shop :: shop in required && (id, shop) !in deliveries
  {
    var all := set s | s in required;
    Sorting.BelowIsStrictOrder();
    DistinctCount(required);
    assert delivered <= all;
    if delivered == all {
      forall shop | shop in required ensures (id, shop) in deliveries {
        assert shop in delivered;
      }
    } else {
      Strictly(delivered, all);
      var shop :| shop in all && shop !in delivered;
      assert (id, shop) !in deliveries;
    }
  }

  lemma {:induction false} DistinctCount(xs: seq<string>)
    requires Sorting.Distinct(xs)
    ensures |set s | s in xs| == |xs|
  {
    if xs != [] {
      DistinctCount(xs[1..]);
      assert xs == [xs[0]] + xs[1..];
      assert (set s | s in xs) == {xs[0]} + (set s | s in xs[1..]);
    }
  }

  lemma Strictly(a: set<string>, b: set<string>)
    requires a < b
    ensures |a| < |b|
  {
    var rest := b - a;
    assert b == a + rest && a !! rest;
    assert |b| == |a| + |rest|;
  }
}
