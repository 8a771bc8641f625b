/**
 The saga interleaved: checkouts, event handlers, cancellations, sweeps and expiries, each a thread whose next
 step may come at any time, fail, or never come.

 Orders, payments and reservations are opened only by checkouts here, and every checkout's order id is new.
 */
module Compensation {
  import opened Base
  import opened Orders
  import opened Saga
  import Pricing
  import Inventory
  import StockAccounting
  import Payment
  import OrderStore

  /** What a checkout is about to place. */
  datatype Draft = Draft(
    ownerId: string, items: seq<Inventory.Item>, lines: seq<Pricing.Line>, subtotal: int, discount: int, tax: int, total: int)

  /** A checkout under way: nothing reserved yet, stock reserved, payment opened, or no longer acting. */
  datatype Placing =
    | Started(id: nat, draft: Draft)
    | Reserved(id: nat, draft: Draft, reservation: nat)
    | Opened(id: nat, draft: Draft, reservation: nat, payment: nat)
    | Gone

  /** nextId: ids below it have been given to checkouts. threads: what each handler still has to do. */
  datatype World = World(now: int, s: Services, nextId: nat, placing: seq<Placing>, threads: seq<seq<Todo>>)

  datatype Act =
    | Tick(dt: nat)
    // a checkout
    | Begin(draft: Draft)
    | Reserve(c: nat)
    | Open(c: nat)
    | Insert(c: nat)
    | Abandon(c: nat)
    // what the shopper, the payment provider and the warehouse do
    | SettlePayment(payment: nat, to: Payment.Status)
    | Refund(payment: nat, cents: int, key: string)
    | Adjust(productId: string, delta: int)
    | Seed(productId: string, onHand: nat)
    // handlers: each applies its transition and leaves its compensations to a thread
    | PaymentAuthorized(event: nat, eventId: string)
    | PaymentFailed(event: nat, eventId: string, reason: string)
    | ReservationExpired(event: nat, eventId: string)
    | ShipmentDelivered(id: nat, shop: string, eventId: string)
    | CancelOrder(id: nat)
    | Sweep(cutoff: int, limit: nat, pending: seq<OrderStore.Owed>)
    | ExpireDue(due: seq<nat>)
    // a thread's next unit of work, and a crash
    | Work(thread: nat, ok: bool)
    | Crash(thread: nat)

  function With(w: World, s: Services): World {
    w.(s := s)
  }

  function Spawn(w: World, todo: seq<Todo>): World {
    if todo == [] then w else w.(threads := w.threads + [todo])
  }

  function OrderOf(d: Draft, payment: nat, reservation: nat, now: int): Order {
    Order(d.ownerId, PendingPayment, d.lines, d.subtotal, d.discount, d.tax, d.total,
          Some(payment), Some(reservation), "", false, false, now)
  }

  /** A handler's Apply, then its thread. */
  function Handle(w: World, id: nat, eventId: string, m: Move, todo: seq<Todo>): World {
    Spawn(With(w, w.s.(db := OrderStore.Applied(w.s.db, id, eventId, m, w.now))), todo)
  }

  /** What a checkout that gives up compensates. */
  function Undoing(p: Placing): seq<Todo> {
    match p
    case Reserved(_, _, r) => [Release(r, None)]
    case Opened(_, _, r, i) => [Release(r, None), Void(i, None)]
    case _ => []
  }

  /** The draft of a quote: distinct lines of positive quantity that add up. */
  ghost predicate Quoted(d: Draft) {
    && Pricing.DistinctProducts(d.lines) && Pricing.Sane(d.lines)
    && d.subtotal == Total(Pricing.Gross, d.lines) && d.total >= 0
  }

  predicate IsAuthorizedEvent(w: World, k: nat) {
    k < |w.s.pay.outbox| && w.s.pay.outbox[k].AuthorizedEvent?
  }

  predicate IsFailedEvent(w: World, k: nat) {
    k < |w.s.pay.outbox| && w.s.pay.outbox[k].FailedEvent?
  }

  /** One step; a step whose guard fails leaves the world alone. */
  ghost function Next(w: World, act: Act): World {
    match act
    case Tick(dt) => w.(now := w.now + dt)
    case Begin(d) =>
      if !Quoted(d) then w else w.(placing := w.placing + [Started(w.nextId, d)], nextId := w.nextId + 1)
    case Reserve(c) =>
      if c >= |w.placing| || !w.placing[c].Started? || Inventory.ReserveRefusal(w.s.inv.stock, w.placing[c].draft.items).Some? then w
      else
        var p := w.placing[c];
        w.(s := w.s.(inv := Inventory.Reserved(w.s.inv, p.id, p.draft.items, w.now + RESERVATION_TTL)),
           placing := w.placing[c := Reserved(p.id, p.draft, |w.s.inv.reservations|)])
    case Open(c) =>
      if c >= |w.placing| || !w.placing[c].Reserved? || w.placing[c].draft.total <= 0 then w
      else
        var p := w.placing[c];
        w.(s := w.s.(pay := Payment.Created(w.s.pay, p.id, p.draft.total)),
           placing := w.placing[c := Opened(p.id, p.draft, p.reservation, |w.s.pay.intents|)])
    case Insert(c) =>
      if c >= |w.placing| || !w.placing[c].Opened? then w
      else
        var p := w.placing[c];
        w.(s := w.s.(db := OrderStore.InsertedOrder(w.s.db, p.id, OrderOf(p.draft, p.payment, p.reservation, w.now))),
           placing := w.placing[c := Gone])
    case Abandon(c) =>
      if c >= |w.placing| then w
      else
        Spawn(w.(placing := w.placing[c := Gone]), Undoing(w.placing[c]))
    case SettlePayment(i, to) =>
      if to != Payment.Authorized && to != Payment.Failed then w
      else With(w, w.s.(pay := Payment.Transitioned(w.s.pay, i, to)))
    case Refund(i, cents, key) => With(w, w.s.(pay := Payment.RefundApplied(w.s.pay, i, cents, key)))
    case Adjust(p, delta) => With(w, w.s.(inv := Inventory.Adjusted(w.s.inv, p, delta)))
    case Seed(p, n) => With(w, w.s.(inv := Inventory.Seeded(w.s.inv, p, n)))
    case PaymentAuthorized(k, eventId) =>
      if !IsAuthorizedEvent(w, k) then w
      else
        var id := w.s.pay.outbox[k].orderRef;
        Handle(w, id, eventId, Confirm, AfterAuthorized(OrderStore.ApplyReply(w.s.db, id, eventId, Confirm)))
    case PaymentFailed(k, eventId, reason) =>
      if !IsFailedEvent(w, k) then w
      else
        var id := w.s.pay.outbox[k].orderRef;
        Handle(w, id, eventId, Cancel("PAYMENT_FAILED:" + reason),
               AfterFailed(OrderStore.ApplyReply(w.s.db, id, eventId, Cancel("PAYMENT_FAILED:" + reason)), id))
    case ReservationExpired(k, eventId) =>
      if k >= |w.s.inv.expired| then w
      else
        var id := w.s.inv.expired[k].orderRef;
        Handle(w, id, eventId, CancelIfPending("RESERVATION_EXPIRED"),
               AfterExpired(OrderStore.ApplyReply(w.s.db, id, eventId, CancelIfPending("RESERVATION_EXPIRED")), id))
    case ShipmentDelivered(id, shop, eventId) => With(w, w.s.(db := OrderStore.Delivered(w.s.db, id, shop, eventId, w.now)))
    case CancelOrder(id) =>
      Handle(w, id, "", Cancel("CANCELLED_BY_CUSTOMER"),
             AfterCancelled(OrderStore.ApplyReply(w.s.db, id, "", Cancel("CANCELLED_BY_CUSTOMER")), id))
    case Sweep(cutoff, limit, pending) =>
      if OrderStore.Listing(w.s.db, cutoff, limit, pending) then Spawn(w, SweepTodo(pending)) else w
    case ExpireDue(due) =>
      if forall id :: id in due ==> Inventory.Due(w.s.inv, id, w.now) then
        Spawn(w, seq(|due|, i requires 0 <= i < |due| => Expire(due[i])))
      else w
    case Work(t, ok) =>
      if t >= |w.threads| || w.threads[t] == [] then w
      else
        var turn := Do(w.s, w.threads[t], ok);
        w.(s := turn.s, threads := w.threads[t := turn.todo])
    case Crash(t) => if t >= |w.threads| then w else w.(threads := w.threads[t := []])
  }

  ghost function Run(w: World, acts: seq<Act>): World
    decreases |acts|
  {
    if acts == [] then w else Run(Next(w, acts[0]), acts[1..])
  }

  // ---- what only ever goes one way ----------------------------------------------------------

  predicate Paid(st: Payment.Status) {
    st == Payment.Authorized || st == Payment.Status.Refunded
  }

  /** Ids given to a checkout that will never write its order. */
  ghost predicate Dead(w: World, id: nat) {
    && id < w.nextId && id !in w.s.db.orders
    && forall c :: 0 <= c < |w.placing| && !w.placing[c].Gone? ==> w.placing[c].id != id
  }

  ghost predicate InvLater(a: Inventory.Store, b: Inventory.Store) {
    && |a.reservations| <= |b.reservations|
    && forall r :: 0 <= r < |a.reservations| ==>
         && b.reservations[r].orderRef == a.reservations[r].orderRef
         && (a.reservations[r].status != Inventory.Held ==> b.reservations[r].status != Inventory.Held)
  }

  ghost predicate PayLater(a: Payment.Ledger, b: Payment.Ledger) {
    && |a.intents| <= |b.intents|
    && forall i :: 0 <= i < |a.intents| ==>
         && b.intents[i].orderRef == a.intents[i].orderRef && b.intents[i].amount == a.intents[i].amount
         && (a.intents[i].status == Payment.Voided ==> b.intents[i].status == Payment.Voided)
         && (Paid(a.intents[i].status) ==> Paid(b.intents[i].status) || b.intents[i].status == Payment.Voided)
  }

  ghost predicate DbLater(a: OrderStore.Db, b: OrderStore.Db) {
    forall id :: id in a.orders ==>
      && id in b.orders
      && b.orders[id].paymentId == a.orders[id].paymentId && b.orders[id].reservationId == a.orders[id].reservationId
      && b.orders[id].total == a.orders[id].total
      && (a.orders[id].status == Cancelled ==> b.orders[id].status == Cancelled && b.orders[id].updatedAt == a.orders[id].updatedAt)
  }

  ghost predicate Later(w: World, x: World) {
    && InvLater(w.s.inv, x.s.inv) && PayLater(w.s.pay, x.s.pay) && DbLater(w.s.db, x.s.db)
    && w.now <= x.now && forall id :: Dead(w, id) ==> Dead(x, id)
  }

  // ---- the invariant --------------------------------------------------------------------------

  predicate Booked(s: Services, id: nat, r: nat) {
    r < |s.inv.reservations| && s.inv.reservations[r].orderRef == id
  }

  predicate Billed(s: Services, id: nat, i: nat, cents: int) {
    i < |s.pay.intents| && s.pay.intents[i].orderRef == id && s.pay.intents[i].amount == cents
  }

  /** An order stands on its own reservation and payment; its marks are true, and it was not confirmed unpaid. */
  ghost predicate OrderOk(w: World, id: nat)
    requires id in w.s.db.orders
  {
    var o := w.s.db.orders[id];
    && id < w.nextId && WellPriced(o) && o.updatedAt <= w.now
    && o.reservationId.Some? && Booked(w.s, id, o.reservationId.value)
    && o.paymentId.Some? && Billed(w.s, id, o.paymentId.value, o.total)
    && (o.released ==> !Inventory.IsHeld(w.s.inv, o.reservationId.value))
    && (o.voided ==> w.s.pay.intents[o.paymentId.value].status == Payment.Voided)
    && (o.status == Confirmed || o.status == Fulfilled ==> Paid(w.s.pay.intents[o.paymentId.value].status))
  }

  ghost predicate Unbooked(s: Services, id: nat) {
    forall r :: 0 <= r < |s.inv.reservations| ==> s.inv.reservations[r].orderRef != id
  }

  ghost predicate Unbilled(s: Services, id: nat) {
    forall i :: 0 <= i < |s.pay.intents| ==> s.pay.intents[i].orderRef != id
  }

  ghost predicate PlacingOk(w: World, p: Placing) {
    !p.Gone? ==>
      && p.id < w.nextId && p.id !in w.s.db.orders && Quoted(p.draft)
      && (if p.Started? then Unbooked(w.s, p.id) else Booked(w.s, p.id, p.reservation))
      && (if p.Opened? then Billed(w.s, p.id, p.payment, p.draft.total) && w.s.pay.intents[p.payment].status != Payment.Voided
          else Unbilled(w.s, p.id))
  }

  /** An id belongs to one checkout, one reservation and one payment. */
  ghost predicate IdsOk(w: World) {
    && (forall c, d :: 0 <= c < d < |w.placing| && !w.placing[c].Gone? && !w.placing[d].Gone? ==> w.placing[c].id != w.placing[d].id)
    && (forall q, r :: 0 <= q < r < |w.s.inv.reservations| ==> w.s.inv.reservations[q].orderRef != w.s.inv.reservations[r].orderRef)
    && (forall i, j :: 0 <= i < j < |w.s.pay.intents| ==> w.s.pay.intents[i].orderRef != w.s.pay.intents[j].orderRef)
    && (forall r :: 0 <= r < |w.s.inv.reservations| ==> w.s.inv.reservations[r].orderRef < w.nextId)
    && (forall i :: 0 <= i < |w.s.pay.intents| ==> w.s.pay.intents[i].orderRef < w.nextId)
  }

  /** Only payments of cancelled orders, or of orders that will never be, are voided. */
  ghost predicate VoidsOk(w: World) {
    forall i :: 0 <= i < |w.s.pay.intents| && w.s.pay.intents[i].status == Payment.Voided ==>
      var id := w.s.pay.intents[i].orderRef;
      if id in w.s.db.orders then w.s.db.orders[id].status == Cancelled else Dead(w, id)
  }

  ghost predicate EventsOk(pay: Payment.Ledger) {
    forall k :: 0 <= k < |pay.outbox| && pay.outbox[k].AuthorizedEvent? ==>
      && pay.outbox[k].payment < |pay.intents|
      && pay.intents[pay.outbox[k].payment].orderRef == pay.outbox[k].orderRef
      && (Paid(pay.intents[pay.outbox[k].payment].status) || pay.intents[pay.outbox[k].payment].status == Payment.Voided)
  }

  ghost predicate Core(w: World) {
    && (forall id :: id in w.s.db.orders ==> OrderOk(w, id))
    && (forall c :: 0 <= c < |w.placing| ==> PlacingOk(w, w.placing[c]))
    && IdsOk(w) && VoidsOk(w) && EventsOk(w.s.pay) && Payment.Consistent(w.s.pay)
    && StockAccounting.Accounted(w.s.inv) && StockAccounting.Announced(w.s.inv)
  }

  /** What makes a unit of work right to do, at whatever later time it is done. */
  ghost predicate TodoOk(w: World, t: Todo) {
    match t
    case Release(r, order) =>
      order.Some? ==> order.value in w.s.db.orders && w.s.db.orders[order.value].reservationId == Some(r)
    case MarkReleased(id) =>
      id in w.s.db.orders && w.s.db.orders[id].reservationId.Some?
      && w.s.db.orders[id].reservationId.value < |w.s.inv.reservations|
      && !Inventory.IsHeld(w.s.inv, w.s.db.orders[id].reservationId.value)
    case Void(i, order) =>
      i < |w.s.pay.intents|
      && (if order.Some? then
            && order.value in w.s.db.orders && w.s.db.orders[order.value].paymentId == Some(i)
            && w.s.db.orders[order.value].status == Cancelled
          else Dead(w, w.s.pay.intents[i].orderRef))
    case MarkVoided(id) =>
      id in w.s.db.orders && w.s.db.orders[id].paymentId.Some?
      && w.s.db.orders[id].paymentId.value < |w.s.pay.intents|
      && w.s.pay.intents[w.s.db.orders[id].paymentId.value].status == Payment.Voided
    case Commit(r) => true
    case Expire(r) => r < |w.s.inv.reservations|
    case Announce(r) => r < |w.s.inv.reservations| && !Inventory.IsHeld(w.s.inv, r)
  }

  ghost predicate PlanOk(w: World, todo: seq<Todo>) {
    forall i :: 0 <= i < |todo| ==> TodoOk(w, todo[i])
  }

  ghost predicate ThreadsOk(w: World) {
    forall t :: 0 <= t < |w.threads| ==> PlanOk(w, w.threads[t])
  }

  ghost predicate Inv(w: World) {
    Core(w) && ThreadsOk(w)
  }

  /** What was right to do stays so. */
  lemma PlansStayOk(w: World, x: World, todo: seq<Todo>)
    requires Later(w, x) && PlanOk(w, todo)
    ensures PlanOk(x, todo)
  {
    forall i | 0 <= i < |todo| ensures TodoOk(x, todo[i]) {
      assert TodoOk(w, todo[i]);
    }
  }

  lemma ThreadsStayOk(w: World, x: World)
    requires Later(w, x) && ThreadsOk(w) && x.threads == w.threads
    ensures ThreadsOk(x)
  {
    forall t | 0 <= t < |x.threads| ensures PlanOk(x, x.threads[t]) {
      PlansStayOk(w, x, w.threads[t]);
    }
  }

  // ---- steps on one service --------------------------------------------------------------------

  /** An inventory step that opens no reservation. */
  lemma InventoryStepKeeps(w: World, x: World)
    requires Core(w) && x == w.(s := w.s.(inv := x.s.inv), threads := x.threads)
    requires InvLater(w.s.inv, x.s.inv) && |x.s.inv.reservations| == |w.s.inv.reservations|
    requires StockAccounting.Accounted(x.s.inv) && StockAccounting.Announced(x.s.inv)
    ensures Core(x) && Later(w, x)
  {
    forall id | id in x.s.db.orders ensures OrderOk(x, id) {
      assert OrderOk(w, id);
    }
    forall c | 0 <= c < |x.placing| ensures PlacingOk(x, x.placing[c]) {
      assert PlacingOk(w, w.placing[c]);
    }
    assert forall id :: Dead(w, id) ==> Dead(x, id);
  }

  /** A ledger step that opens no payment, voids only what may be voided, and unconfirms nothing. */
  lemma LedgerStepKeeps(w: World, x: World)
    requires Core(w) && x == w.(s := w.s.(pay := x.s.pay), threads := x.threads)
    requires PayLater(w.s.pay, x.s.pay) && |x.s.pay.intents| == |w.s.pay.intents|
    requires EventsOk(x.s.pay) && Payment.Consistent(x.s.pay)
    requires forall i :: 0 <= i < |x.s.pay.intents| && x.s.pay.intents[i].status == Payment.Voided && w.s.pay.intents[i].status != Payment.Voided ==>
               var id := w.s.pay.intents[i].orderRef;
               if id in w.s.db.orders then w.s.db.orders[id].status == Cancelled else Dead(w, id)
    ensures Core(x) && Later(w, x)
  {
    assert forall id :: Dead(w, id) <==> Dead(x, id);
    forall id | id in x.s.db.orders ensures OrderOk(x, id) {
      assert OrderOk(w, id);
    }
    forall c | 0 <= c < |x.placing| ensures PlacingOk(x, x.placing[c]) {
      assert PlacingOk(w, w.placing[c]);
    }
  }

  /** An order table step that writes no new order and opens nothing that was cancelled. */
  lemma OrderStepKeeps(w: World, x: World)
    requires Core(w) && x == w.(s := w.s.(db := x.s.db), threads := x.threads)
    requires DbLater(w.s.db, x.s.db) && x.s.db.orders.Keys == w.s.db.orders.Keys
    requires forall id :: id in x.s.db.orders ==> OrderOk(x, id)
    ensures Core(x) && Later(w, x)
  {
    assert forall id :: Dead(w, id) <==> Dead(x, id);
    forall c | 0 <= c < |x.placing| ensures PlacingOk(x, x.placing[c]) {
      assert PlacingOk(w, w.placing[c]);
    }
  }

  /** One order changes: its status moves forward, or a mark is set truthfully. */
  lemma OneOrderKeeps(w: World, x: World, id: nat, o: Order)
    requires Core(w) && x == w.(s := w.s.(db := x.s.db)) && id in w.s.db.orders
    requires x.s.db.orders == w.s.db.orders[id := o]
    requires var was := w.s.db.orders[id];
             && o == was.(status := o.status, cancelReason := o.cancelReason, updatedAt := o.updatedAt, released := o.released, voided := o.voided)
             && (was.status == Cancelled ==> o.status == Cancelled && o.updatedAt == was.updatedAt)
             && o.updatedAt <= w.now
    requires o.released ==> !Inventory.IsHeld(w.s.inv, o.reservationId.value)
    requires o.voided ==> o.paymentId.value < |w.s.pay.intents| && w.s.pay.intents[o.paymentId.value].status == Payment.Voided
    requires o.status == Confirmed || o.status == Fulfilled ==>
               o.paymentId.value < |w.s.pay.intents| && Paid(w.s.pay.intents[o.paymentId.value].status)
    ensures Core(x) && Later(w, x)
  {
    assert OrderOk(w, id);
    ChangedOrderOk(w, x, id, o);
    OthersStayOk(w, x, id);
    OrderStepKeeps(w, x);
  }

  lemma OthersStayOk(w: World, x: World, id: nat)
    requires forall k :: k in w.s.db.orders ==> OrderOk(w, k)
    requires x == w.(s := w.s.(db := x.s.db)) && id in w.s.db.orders && id in x.s.db.orders
    requires x.s.db.orders == w.s.db.orders[id := x.s.db.orders[id]]
    ensures forall k :: k in x.s.db.orders && k != id ==> OrderOk(x, k)
  {
    forall k | k in x.s.db.orders && k != id ensures OrderOk(x, k) {
      UnchangedOrderOk(w, x, k);
    }
  }

  lemma ChangedOrderOk(w: World, x: World, id: nat, o: Order)
    requires id in w.s.db.orders && OrderOk(w, id)
    requires x == w.(s := w.s.(db := x.s.db)) && id in x.s.db.orders && x.s.db.orders[id] == o
    requires var was := w.s.db.orders[id];
             && o == was.(status := o.status, cancelReason := o.cancelReason, updatedAt := o.updatedAt, released := o.released, voided := o.voided)
             && o.updatedAt <= w.now
    requires o.released ==> !Inventory.IsHeld(w.s.inv, o.reservationId.value)
    requires o.voided ==> w.s.pay.intents[o.paymentId.value].status == Payment.Voided
    requires o.status == Confirmed || o.status == Fulfilled ==> Paid(w.s.pay.intents[o.paymentId.value].status)
    ensures OrderOk(x, id)
  {
    assert WellPriced(w.s.db.orders[id]);
  }

  lemma UnchangedOrderOk(w: World, x: World, id: nat)
    requires id in w.s.db.orders && OrderOk(w, id)
    requires x == w.(s := w.s.(db := x.s.db)) && id in x.s.db.orders && x.s.db.orders[id] == w.s.db.orders[id]
    ensures OrderOk(x, id)
  {
  }

  lemma SameOrdersKeep(w: World, x: World)
    requires Core(w) && x == w.(s := w.s.(db := x.s.db)) && x.s.db.orders == w.s.db.orders
    ensures Core(x) && Later(w, x)
  {
    forall k | k in x.s.db.orders ensures OrderOk(x, k) {
      assert OrderOk(w, k);
    }
    OrderStepKeeps(w, x);
  }

  lemma ApplyKeeps(w: World, id: nat, eventId: string, m: Move)
    requires Core(w) && m != Fulfill
    requires m == Confirm && id in w.s.db.orders ==>
               w.s.db.orders[id].status == Cancelled || Paid(w.s.pay.intents[w.s.db.orders[id].paymentId.value].status)
    ensures Core(Handle(w, id, eventId, m, [])) && Later(w, Handle(w, id, eventId, m, []))
  {
    var x := Handle(w, id, eventId, m, []);
    if x.s.db.orders == w.s.db.orders {
      SameOrdersKeep(w, x);
    } else {
      assert OrderOk(w, id);
      OneOrderKeeps(w, x, id, x.s.db.orders[id]);
    }
  }

  lemma DeliveredKeeps(w: World, id: nat, shop: string, eventId: string)
    requires Core(w)
    ensures var x := With(w, w.s.(db := OrderStore.Delivered(w.s.db, id, shop, eventId, w.now))); Core(x) && Later(w, x)
  {
    var x := With(w, w.s.(db := OrderStore.Delivered(w.s.db, id, shop, eventId, w.now)));
    if x.s.db.orders == w.s.db.orders {
      SameOrdersKeep(w, x);
    } else {
      assert OrderOk(w, id);
      OneOrderKeeps(w, x, id, x.s.db.orders[id]);
    }
  }

  lemma MarkKeeps(w: World, t: Todo)
    requires Core(w) && (t.MarkReleased? || t.MarkVoided?) && TodoOk(w, t)
    ensures var db := if t.MarkReleased? then OrderStore.MarkedReleased(w.s.db, t.of) else OrderStore.MarkedVoided(w.s.db, t.of);
            Core(With(w, w.s.(db := db))) && Later(w, With(w, w.s.(db := db)))
  {
    var db := if t.MarkReleased? then OrderStore.MarkedReleased(w.s.db, t.of) else OrderStore.MarkedVoided(w.s.db, t.of);
    assert OrderOk(w, t.of);
    OneOrderKeeps(w, With(w, w.s.(db := db)), t.of, db.orders[t.of]);
  }

  lemma FinishKeeps(w: World, r: nat, commit: bool)
    requires Core(w)
    ensures var x := With(w, w.s.(inv := Inventory.Finished(w.s.inv, r, commit)));
            Core(x) && Later(w, x) && !Inventory.IsHeld(x.s.inv, r)
  {
    StockAccounting.FinishKeeps(w.s.inv, r, commit);
    InventoryStepKeeps(w, With(w, w.s.(inv := Inventory.Finished(w.s.inv, r, commit))));
  }

  lemma AnnounceKeeps(w: World, r: nat)
    requires Core(w) && r < |w.s.inv.reservations| && !Inventory.IsHeld(w.s.inv, r)
    ensures var x := With(w, w.s.(inv := Inventory.WithExpired(w.s.inv, r))); Core(x) && Later(w, x)
  {
    var x := With(w, w.s.(inv := Inventory.WithExpired(w.s.inv, r)));
    forall k | Inventory.IsHeld(x.s.inv, k) ensures Inventory.AllStocked(x.s.inv.stock, x.s.inv.reservations[k].items) {
      assert Inventory.IsHeld(w.s.inv, k);
    }
    InventoryStepKeeps(w, x);
  }

  lemma StockKeeps(w: World, act: Act)
    requires Core(w) && (act.Adjust? || act.Seed?)
    ensures Core(Next(w, act)) && Later(w, Next(w, act))
  {
    match act {
      case Adjust(p, delta) => StockAccounting.AdjustKeeps(w.s.inv, p, delta);
      case Seed(p, n) => StockAccounting.SeedKeeps(w.s.inv, p, n);
      case _ =>
    }
    InventoryStepKeeps(w, Next(w, act));
  }

  lemma SettleKeeps(w: World, i: nat, to: Payment.Status)
    requires Core(w) && (to == Payment.Authorized || to == Payment.Failed)
    ensures var x := With(w, w.s.(pay := Payment.Transitioned(w.s.pay, i, to))); Core(x) && Later(w, x)
  {
    var x := With(w, w.s.(pay := Payment.Transitioned(w.s.pay, i, to)));
    Payment.StepKeepsConsistent(w.s.pay, Payment.Move(i, to));
    LedgerStepKeeps(w, x);
  }

  lemma RefundKeeps(w: World, i: nat, cents: int, key: string)
    requires Core(w)
    ensures var x := With(w, w.s.(pay := Payment.RefundApplied(w.s.pay, i, cents, key))); Core(x) && Later(w, x)
  {
    Payment.StepKeepsConsistent(w.s.pay, Payment.Op.Refund(i, cents, key));
    LedgerStepKeeps(w, With(w, w.s.(pay := Payment.RefundApplied(w.s.pay, i, cents, key))));
  }

  lemma VoidKeeps(w: World, t: Todo)
    requires Core(w) && t.Void? && TodoOk(w, t) && CanVoid(w.s.pay, t.payment)
    ensures var x := With(w, w.s.(pay := Payment.Transitioned(w.s.pay, t.payment, Payment.Voided)));
            Core(x) && Later(w, x) && x.s.pay.intents[t.payment].status == Payment.Voided
  {
    var x := With(w, w.s.(pay := Payment.Transitioned(w.s.pay, t.payment, Payment.Voided)));
    Payment.StepKeepsConsistent(w.s.pay, Payment.Move(t.payment, Payment.Voided));
    assert w.s.pay.outbox + [] == w.s.pay.outbox;
    if t.order.Some? {
      assert OrderOk(w, t.order.value);
    }
    LedgerStepKeeps(w, x);
  }

  // ---- steps of a checkout ------------------------------------------------------------------------

  lemma BeginKeeps(w: World, d: Draft)
    requires Core(w) && Quoted(d)
    ensures Core(Next(w, Begin(d))) && Later(w, Next(w, Begin(d)))
  {
    var x := Next(w, Begin(d));
    assert forall id :: Dead(w, id) ==> Dead(x, id);
    forall id | id in x.s.db.orders ensures OrderOk(x, id) {
      assert OrderOk(w, id);
    }
    forall c | 0 <= c < |x.placing| ensures PlacingOk(x, x.placing[c]) {
      if c < |w.placing| {
        assert PlacingOk(w, w.placing[c]);
      }
    }
  }

  /** The parts of Core that a checkout step has to re-establish one by one. */
  lemma CoreFrom(x: World)
    requires forall id :: id in x.s.db.orders ==> OrderOk(x, id)
    requires forall c :: 0 <= c < |x.placing| ==> PlacingOk(x, x.placing[c])
    requires IdsOk(x) && VoidsOk(x) && EventsOk(x.s.pay) && Payment.Consistent(x.s.pay)
    requires StockAccounting.Accounted(x.s.inv) && StockAccounting.Announced(x.s.inv)
    ensures Core(x)
  {
  }

  lemma ReserveKeepsIds(w: World, c: nat)
    requires Core(w) && Next(w, Reserve(c)) != w
    ensures IdsOk(Next(w, Reserve(c))) && VoidsOk(Next(w, Reserve(c))) && Later(w, Next(w, Reserve(c)))
  {
    var x := Next(w, Reserve(c));
    assert PlacingOk(w, w.placing[c]);
    assert forall id :: Dead(w, id) ==> Dead(x, id);
  }

  lemma ReserveKeepsPlacing(w: World, c: nat)
    requires Core(w) && Next(w, Reserve(c)) != w
    ensures forall id :: id in w.s.db.orders ==> OrderOk(Next(w, Reserve(c)), id)
    ensures forall k :: 0 <= k < |w.placing| ==> PlacingOk(Next(w, Reserve(c)), Next(w, Reserve(c)).placing[k])
  {
    var x := Next(w, Reserve(c));
    assert PlacingOk(w, w.placing[c]);
    forall id | id in w.s.db.orders ensures OrderOk(x, id) {
      assert OrderOk(w, id);
    }
    forall k | 0 <= k < |w.placing| ensures PlacingOk(x, x.placing[k]) {
      assert PlacingOk(w, w.placing[k]);
    }
  }

  lemma ReserveKeeps(w: World, c: nat)
    requires Core(w)
    ensures Core(Next(w, Reserve(c))) && Later(w, Next(w, Reserve(c)))
  {
    if Next(w, Reserve(c)) != w {
      var p := w.placing[c];
      StockAccounting.ReserveKeeps(w.s.inv, p.id, p.draft.items, w.now + RESERVATION_TTL);
      ReserveKeepsIds(w, c);
      ReserveKeepsPlacing(w, c);
      CoreFrom(Next(w, Reserve(c)));
    }
  }

  lemma OpenKeepsIds(w: World, c: nat)
    requires Core(w) && Next(w, Open(c)) != w
    ensures IdsOk(Next(w, Open(c))) && VoidsOk(Next(w, Open(c))) && Later(w, Next(w, Open(c)))
  {
    var x := Next(w, Open(c));
    assert PlacingOk(w, w.placing[c]);
    assert forall id :: Dead(w, id) ==> Dead(x, id);
  }

  lemma OpenKeepsPlacing(w: World, c: nat)
    requires Core(w) && Next(w, Open(c)) != w
    ensures forall id :: id in w.s.db.orders ==> OrderOk(Next(w, Open(c)), id)
    ensures forall k :: 0 <= k < |w.placing| ==> PlacingOk(Next(w, Open(c)), Next(w, Open(c)).placing[k])
  {
    var x := Next(w, Open(c));
    assert PlacingOk(w, w.placing[c]);
    forall id | id in w.s.db.orders ensures OrderOk(x, id) {
      assert OrderOk(w, id);
    }
    forall k | 0 <= k < |w.placing| ensures PlacingOk(x, x.placing[k]) {
      assert PlacingOk(w, w.placing[k]);
    }
  }

  lemma OpenKeeps(w: World, c: nat)
    requires Core(w)
    ensures Core(Next(w, Open(c))) && Later(w, Next(w, Open(c)))
  {
    if Next(w, Open(c)) != w {
      var p := w.placing[c];
      Payment.StepKeepsConsistent(w.s.pay, Payment.Create(p.id, p.draft.total));
      OpenKeepsIds(w, c);
      OpenKeepsPlacing(w, c);
      CoreFrom(Next(w, Open(c)));
    }
  }

  lemma InsertIsLater(w: World, c: nat)
    requires Core(w) && Next(w, Insert(c)) != w
    ensures Later(w, Next(w, Insert(c)))
  {
    var x := Next(w, Insert(c));
    assert PlacingOk(w, w.placing[c]);
    assert forall id :: Dead(w, id) ==> Dead(x, id);
  }

  lemma InsertKeepsIds(w: World, c: nat)
    requires Core(w) && Next(w, Insert(c)) != w
    ensures IdsOk(Next(w, Insert(c))) && VoidsOk(Next(w, Insert(c)))
  {
    assert PlacingOk(w, w.placing[c]);
    InsertIsLater(w, c);
  }

  lemma InsertKeepsPlacing(w: World, c: nat)
    requires Core(w) && Next(w, Insert(c)) != w
    ensures forall id :: id in Next(w, Insert(c)).s.db.orders ==> OrderOk(Next(w, Insert(c)), id)
    ensures forall k :: 0 <= k < |w.placing| ==> PlacingOk(Next(w, Insert(c)), Next(w, Insert(c)).placing[k])
  {
    var x := Next(w, Insert(c));
    var p := w.placing[c];
    assert PlacingOk(w, p);
    forall id | id in x.s.db.orders ensures OrderOk(x, id) {
      assert id != p.id ==> OrderOk(w, id);
    }
    forall k | 0 <= k < |w.placing| ensures PlacingOk(x, x.placing[k]) {
      assert PlacingOk(w, w.placing[k]);
    }
  }

  lemma InsertKeeps(w: World, c: nat)
    requires Core(w)
    ensures Core(Next(w, Insert(c))) && Later(w, Next(w, Insert(c)))
  {
    if Next(w, Insert(c)) != w {
      InsertIsLater(w, c);
      InsertKeepsIds(w, c);
      InsertKeepsPlacing(w, c);
      CoreFrom(Next(w, Insert(c)));
    }
  }

  lemma AbandonKeeps(w: World, c: nat)
    requires Core(w) && c < |w.placing|
    ensures var x := w.(placing := w.placing[c := Gone]); Core(x) && Later(w, x)
    ensures !w.placing[c].Gone? ==> Dead(w.(placing := w.placing[c := Gone]), w.placing[c].id)
  {
    var x := w.(placing := w.placing[c := Gone]);
    assert PlacingOk(w, w.placing[c]);
    assert forall id :: Dead(w, id) ==> Dead(x, id);
    forall id | id in x.s.db.orders ensures OrderOk(x, id) {
      assert OrderOk(w, id);
    }
    forall k | 0 <= k < |x.placing| ensures PlacingOk(x, x.placing[k]) {
      assert PlacingOk(w, w.placing[k]);
    }
  }

  // ---- threads ---------------------------------------------------------------------------------------

  lemma SpawnKeeps(w: World, x: World, todo: seq<Todo>)
    requires Inv(w) && Core(x) && Later(w, x) && x.threads == w.threads && PlanOk(x, todo)
    ensures Inv(Spawn(x, todo)) && Later(w, Spawn(x, todo))
  {
    var y := Spawn(x, todo);
    ThreadsStayOk(w, x);
    InventoryStepKeeps(x, y);
    forall t | 0 <= t < |y.threads| ensures PlanOk(y, y.threads[t]) {
      if t < |x.threads| {
        PlansStayOk(x, y, x.threads[t]);
      } else {
        PlansStayOk(x, y, todo);
      }
    }
    LaterTransitive(w, x, y);
  }

  lemma LaterTransitive(w: World, x: World, y: World)
    requires Later(w, x) && Later(x, y)
    ensures Later(w, y)
  {
  }

  /** The order whose payment was authorised is paid for, unless it was cancelled. */
  lemma AuthorizedIsPaid(w: World, k: nat)
    requires Core(w) && IsAuthorizedEvent(w, k) && w.s.pay.outbox[k].orderRef in w.s.db.orders
    ensures var o := w.s.db.orders[w.s.pay.outbox[k].orderRef];
            o.paymentId.Some? && o.paymentId.value < |w.s.pay.intents|
            && (o.status == Cancelled || Paid(w.s.pay.intents[o.paymentId.value].status))
  {
    var e := w.s.pay.outbox[k];
    assert OrderOk(w, e.orderRef);
    var i := w.s.db.orders[e.orderRef].paymentId.value;
    assert w.s.pay.intents[i].orderRef == w.s.pay.intents[e.payment].orderRef;
    assert i == e.payment;
  }

  /** The reservation of an order whose expiry was announced is not HELD. */
  lemma AnnouncedIsFree(w: World, k: nat)
    requires Core(w) && k < |w.s.inv.expired| && w.s.inv.expired[k].orderRef in w.s.db.orders
    ensures var o := w.s.db.orders[w.s.inv.expired[k].orderRef];
            o.reservationId.Some? && o.reservationId.value < |w.s.inv.reservations|
            && !Inventory.IsHeld(w.s.inv, o.reservationId.value)
  {
    var e := w.s.inv.expired[k];
    assert OrderOk(w, e.orderRef);
    var r := w.s.db.orders[e.orderRef].reservationId.value;
    assert w.s.inv.reservations[r].orderRef == w.s.inv.reservations[e.reservation].orderRef;
    assert r == e.reservation;
  }

  lemma CommitPlanOk(x: World, r: OrderStore.Reply)
    ensures PlanOk(x, AfterAuthorized(r))
  {
  }

  lemma ConfirmKeeps(w: World, k: nat, eventId: string)
    requires Core(w) && IsAuthorizedEvent(w, k)
    ensures var x := Handle(w, w.s.pay.outbox[k].orderRef, eventId, Confirm, []); Core(x) && Later(w, x)
  {
    var id := w.s.pay.outbox[k].orderRef;
    if id in w.s.db.orders {
      AuthorizedIsPaid(w, k);
    }
    ApplyKeeps(w, id, eventId, Confirm);
  }

  lemma AuthorizedKeeps(w: World, k: nat, eventId: string)
    requires Inv(w)
    ensures Inv(Next(w, PaymentAuthorized(k, eventId))) && Later(w, Next(w, PaymentAuthorized(k, eventId)))
  {
    if IsAuthorizedEvent(w, k) {
      var id := w.s.pay.outbox[k].orderRef;
      var r := OrderStore.ApplyReply(w.s.db, id, eventId, Confirm);
      var x := Handle(w, id, eventId, Confirm, []);
      ConfirmKeeps(w, k, eventId);
      CommitPlanOk(x, r);
      SpawnKeeps(w, x, AfterAuthorized(r));
    } else {
      NothingKeeps(w);
    }
  }

  /** The order a reply describes is the one the table holds. */
  lemma ReplyIsStored(db: OrderStore.Db, id: nat, eventId: string, m: Move, now: int)
    ensures var r := OrderStore.ApplyReply(db, id, eventId, m);
            r.Done? ==>
              var after := OrderStore.Applied(db, id, eventId, m, now);
              && id in db.orders && id in after.orders && after.orders[id].status == r.order.status
              && after.orders[id].reservationId == r.order.reservationId == db.orders[id].reservationId
              && after.orders[id].paymentId == r.order.paymentId == db.orders[id].paymentId
  {
  }

  /** After a cancellation the order's compensations are right to do. */
  lemma CancelledPlanOk(w: World, id: nat, eventId: string, m: Move)
    requires Core(w) && (m.Cancel? || m.CancelIfPending?)
    ensures var x := Handle(w, id, eventId, m, []);
            var r := OrderStore.ApplyReply(w.s.db, id, eventId, m);
            && PlanOk(x, AfterFailed(r, id)) && PlanOk(x, AfterCancelled(r, id))
            && (r.Done? && r.order.status == Cancelled ==> PlanOk(x, VoidOf(r.order.paymentId, Some(id))))
  {
    var r := OrderStore.ApplyReply(w.s.db, id, eventId, m);
    ReplyIsStored(w.s.db, id, eventId, m, w.now);
    if r.Done? {
      assert OrderOk(w, id);
      CompensationsOk(Handle(w, id, eventId, m, []), id, r.order);
    }
  }

  lemma CompensationsOk(x: World, id: nat, o: Order)
    requires id in x.s.db.orders && x.s.db.orders[id].reservationId == o.reservationId
    requires x.s.db.orders[id].paymentId == o.paymentId && x.s.db.orders[id].status == o.status
    requires o.paymentId.Some? ==> o.paymentId.value < |x.s.pay.intents|
    ensures PlanOk(x, ReleaseOf(o.reservationId, Some(id)))
    ensures o.status == Cancelled ==> PlanOk(x, VoidOf(o.paymentId, Some(id)))
    ensures o.status == Cancelled ==> PlanOk(x, ReleaseOf(o.reservationId, Some(id)) + VoidOf(o.paymentId, Some(id)))
  {
  }

  lemma PaymentFailedKeeps(w: World, k: nat, eventId: string, reason: string)
    requires Inv(w)
    ensures Inv(Next(w, PaymentFailed(k, eventId, reason))) && Later(w, Next(w, PaymentFailed(k, eventId, reason)))
  {
    if IsFailedEvent(w, k) {
      var id := w.s.pay.outbox[k].orderRef;
      var m := Cancel("PAYMENT_FAILED:" + reason);
      ApplyKeeps(w, id, eventId, m);
      CancelledPlanOk(w, id, eventId, m);
      SpawnKeeps(w, Handle(w, id, eventId, m, []), AfterFailed(OrderStore.ApplyReply(w.s.db, id, eventId, m), id));
    }
  }

  lemma CancelOrderKeeps(w: World, id: nat)
    requires Inv(w)
    ensures Inv(Next(w, CancelOrder(id))) && Later(w, Next(w, CancelOrder(id)))
  {
    var m := Cancel("CANCELLED_BY_CUSTOMER");
    ApplyKeeps(w, id, "", m);
    CancelledPlanOk(w, id, "", m);
    SpawnKeeps(w, Handle(w, id, "", m, []), AfterCancelled(OrderStore.ApplyReply(w.s.db, id, "", m), id));
  }

  lemma ExpiredPlanOk(w: World, k: nat, eventId: string)
    requires Core(w) && k < |w.s.inv.expired|
    ensures var id := w.s.inv.expired[k].orderRef;
            var m := CancelIfPending("RESERVATION_EXPIRED");
            PlanOk(Handle(w, id, eventId, m, []), AfterExpired(OrderStore.ApplyReply(w.s.db, id, eventId, m), id))
  {
    var id := w.s.inv.expired[k].orderRef;
    var m := CancelIfPending("RESERVATION_EXPIRED");
    var r := OrderStore.ApplyReply(w.s.db, id, eventId, m);
    if r.Done? && r.order.status == Cancelled {
      ReplyIsStored(w.s.db, id, eventId, m, w.now);
      CancelledPlanOk(w, id, eventId, m);
      AnnouncedIsFree(w, k);
      FreeAndVoidOk(Handle(w, id, eventId, m, []), id, VoidOf(r.order.paymentId, Some(id)));
    }
  }

  lemma FreeAndVoidOk(x: World, id: nat, rest: seq<Todo>)
    requires TodoOk(x, MarkReleased(id)) && PlanOk(x, rest)
    ensures PlanOk(x, [MarkReleased(id)] + rest)
  {
  }

  lemma ExpiredKeeps(w: World, k: nat, eventId: string)
    requires Inv(w)
    ensures Inv(Next(w, ReservationExpired(k, eventId))) && Later(w, Next(w, ReservationExpired(k, eventId)))
  {
    if k < |w.s.inv.expired| {
      var id := w.s.inv.expired[k].orderRef;
      var m := CancelIfPending("RESERVATION_EXPIRED");
      ApplyKeeps(w, id, eventId, m);
      ExpiredPlanOk(w, k, eventId);
      SpawnKeeps(w, Handle(w, id, eventId, m, []), AfterExpired(OrderStore.ApplyReply(w.s.db, id, eventId, m), id));
    } else {
      NothingKeeps(w);
    }
  }

  /** What a listed order owes is right to do. */
  lemma OwedPlanOk(w: World, id: nat, cutoff: int)
    requires Core(w) && OrderStore.Pending(w.s.db, id, cutoff)
    ensures PlanOk(w, OwedTodo(OrderStore.OwedBy(id, w.s.db.orders[id])))
  {
    assert OrderOk(w, id);
  }

  lemma {:induction false} SweepPlanOk(w: World, pending: seq<OrderStore.Owed>)
    requires forall k :: 0 <= k < |pending| ==> PlanOk(w, OwedTodo(pending[k]))
    ensures PlanOk(w, SweepTodo(pending))
  {
    if pending != [] {
      var n := |pending| - 1;
      SweepPlanOk(w, pending[..n]);
      PlanJoin(w, SweepTodo(pending[..n]), OwedTodo(pending[n]));
    }
  }

  lemma PlanJoin(w: World, a: seq<Todo>, b: seq<Todo>)
    requires PlanOk(w, a) && PlanOk(w, b)
    ensures PlanOk(w, a + b)
  {
  }

  // ---- one unit of work ---------------------------------------------------------------------------------

  lemma WorkKeeps(w: World, t: nat, ok: bool)
    requires Inv(w) && t < |w.threads| && w.threads[t] != []
    ensures Inv(Next(w, Act.Work(t, ok))) && Later(w, Next(w, Act.Work(t, ok)))
  {
    var todo := w.threads[t];
    var turn := Do(w.s, todo, ok);
    var x := With(w, turn.s);
    assert PlanOk(w, todo) && TodoOk(w, todo[0]);
    UnitKeeps(w, todo, ok);
    ThreadsStayOk(w, x);
    var y := Next(w, Act.Work(t, ok));
    InventoryStepKeeps(x, y);
    LaterTransitive(w, x, y);
    forall k | 0 <= k < |y.threads| ensures PlanOk(y, y.threads[k]) {
      if k == t {
        PlansStayOk(x, y, turn.todo);
      } else {
        PlansStayOk(x, y, x.threads[k]);
      }
    }
  }

  /** A unit of work keeps the invariant, and what it leaves to do next is right to do. */
  lemma UnitKeeps(w: World, todo: seq<Todo>, ok: bool)
    requires Core(w) && todo != [] && PlanOk(w, todo)
    ensures var turn := Do(w.s, todo, ok);
            Core(With(w, turn.s)) && Later(w, With(w, turn.s)) && PlanOk(With(w, turn.s), turn.todo)
  {
    var turn := Do(w.s, todo, ok);
    var x := With(w, turn.s);
    var rest := todo[1..];
    assert TodoOk(w, todo[0]);
    if turn.s == w.s {
      assert x == w;
      InventoryStepKeeps(w, w);
    } else {
      match todo[0] {
        case Release(r, _) => FinishKeeps(w, r, false);
        case Commit(r) => FinishKeeps(w, r, true);
        case Expire(r) => FinishKeeps(w, r, false);
        case Announce(r) => AnnounceKeeps(w, r);
        case Void(_, _) => VoidKeeps(w, todo[0]);
        case MarkReleased(_) => MarkKeeps(w, todo[0]);
        case MarkVoided(_) => MarkKeeps(w, todo[0]);
      }
    }
    assert PlanOk(w, rest);
    PlansStayOk(w, x, rest);
    RecordingOk(w, x, todo, ok);
  }

  lemma PlanStartsWith(x: World, t: Todo, rest: seq<Todo>)
    requires TodoOk(x, t) && PlanOk(x, rest)
    ensures PlanOk(x, [t] + rest)
  {
  }

  lemma PlanSame(x: World, rest: seq<Todo>)
    requires PlanOk(x, rest)
    ensures PlanOk(x, [] + rest)
  {
    assert [] + rest == rest;
  }

  /** What a finished compensation next records is true. */
  lemma RecordingOk(w: World, x: World, todo: seq<Todo>, ok: bool)
    requires Core(w) && todo != [] && TodoOk(w, todo[0])
    requires x == With(w, Do(w.s, todo, ok).s) && Core(x) && PlanOk(x, todo[1..])
    ensures PlanOk(x, Do(w.s, todo, ok).todo)
  {
    PlanSame(x, todo[1..]);
    match todo[0] {
      case Release(r, order) => ReleaseRecordingOk(w, x, todo, ok);
      case Void(i, order) => VoidRecordingOk(w, x, todo, ok);
      case Expire(r) =>
        if ok && CanFinish(w.s.inv, r) {
          StockAccounting.FinishKeeps(w.s.inv, r, false);
          PlanStartsWith(x, Announce(r), todo[1..]);
        }
      case _ =>
    }
  }

  lemma ReleaseRecordingOk(w: World, x: World, todo: seq<Todo>, ok: bool)
    requires StockAccounting.Accounted(w.s.inv) && todo != [] && todo[0].Release? && TodoOk(w, todo[0])
    requires x == With(w, Do(w.s, todo, ok).s) && PlanOk(x, todo[1..])
    requires forall id :: id in x.s.db.orders ==> OrderOk(x, id)
    ensures PlanOk(x, Do(w.s, todo, ok).todo)
  {
    PlanSame(x, todo[1..]);
    var r, order := todo[0].reservation, todo[0].order;
    if ok && CanFinish(w.s.inv, r) && order.Some? {
      StockAccounting.FinishKeeps(w.s.inv, r, false);
      assert OrderOk(x, order.value);
      PlanStartsWith(x, MarkReleased(order.value), todo[1..]);
    }
  }

  lemma VoidRecordingOk(w: World, x: World, todo: seq<Todo>, ok: bool)
    requires todo != [] && todo[0].Void? && TodoOk(w, todo[0])
    requires x == With(w, Do(w.s, todo, ok).s) && PlanOk(x, todo[1..])
    ensures PlanOk(x, Do(w.s, todo, ok).todo)
  {
    PlanSame(x, todo[1..]);
    var i, order := todo[0].payment, todo[0].order;
    if ok && CanVoid(w.s.pay, i) && order.Some? {
      assert x.s.pay.intents[i].status == Payment.Voided;
      PlanStartsWith(x, MarkVoided(order.value), todo[1..]);
    }
  }

  // ---- every run ------------------------------------------------------------------------------------------

  lemma NothingKeeps(w: World)
    requires Inv(w)
    ensures Later(w, w)
  {
  }

  /** A step that leaves the threads alone. */
  lemma QuietKeeps(w: World, x: World)
    requires Inv(w) && Core(x) && Later(w, x) && x.threads == w.threads
    ensures Inv(x)
  {
    ThreadsStayOk(w, x);
  }

  lemma AbandonStepKeeps(w: World, c: nat)
    requires Inv(w)
    ensures Inv(Next(w, Abandon(c))) && Later(w, Next(w, Abandon(c)))
  {
    if c < |w.placing| {
      AbandonKeeps(w, c);
      var y := w.(placing := w.placing[c := Gone]);
      var todo := Undoing(w.placing[c]);
      AbandonPlanOk(w, c);
      SpawnKeeps(w, y, todo);
    } else {
      NothingKeeps(w);
    }
  }

  lemma AbandonPlanOk(w: World, c: nat)
    requires Core(w) && c < |w.placing|
    ensures PlanOk(w.(placing := w.placing[c := Gone]), Undoing(w.placing[c]))
  {
    assert PlacingOk(w, w.placing[c]);
    AbandonKeeps(w, c);
  }

  lemma CheckoutStepKeeps(w: World, act: Act)
    requires Inv(w) && (act.Begin? || act.Reserve? || act.Open? || act.Insert?)
    ensures Inv(Next(w, act)) && Later(w, Next(w, act))
  {
    match act {
      case Begin(d) =>
        if Quoted(d) {
          BeginKeeps(w, d);
        } else {
          NothingKeeps(w);
        }
      case Reserve(c) => ReserveKeeps(w, c);
      case Open(c) => OpenKeeps(w, c);
      case Insert(c) => InsertKeeps(w, c);
      case _ =>
    }
    QuietKeeps(w, Next(w, act));
  }

  lemma MoneyStepKeeps(w: World, act: Act)
    requires Inv(w) && (act.SettlePayment? || act.Refund?)
    ensures Inv(Next(w, act)) && Later(w, Next(w, act))
  {
    match act {
      case SettlePayment(i, to) =>
        if to == Payment.Authorized || to == Payment.Failed {
          SettleKeeps(w, i, to);
        } else {
          NothingKeeps(w);
        }
      case Refund(i, cents, key) => RefundKeeps(w, i, cents, key);
      case _ =>
    }
    QuietKeeps(w, Next(w, act));
  }

  lemma QuietStep(w: World, x: World)
    requires Inv(w) && Core(x) && Later(w, x) && x == With(w, x.s)
    ensures Inv(x)
  {
    QuietKeeps(w, x);
  }

  lemma ShipmentStepKeeps(w: World, id: nat, shop: string, eventId: string)
    requires Inv(w)
    ensures Inv(Next(w, ShipmentDelivered(id, shop, eventId))) && Later(w, Next(w, ShipmentDelivered(id, shop, eventId)))
  {
    DeliveredKeeps(w, id, shop, eventId);
    QuietStep(w, With(w, w.s.(db := OrderStore.Delivered(w.s.db, id, shop, eventId, w.now))));
  }

  lemma StockStepKeeps(w: World, act: Act)
    requires Inv(w) && (act.Adjust? || act.Seed?)
    ensures Inv(Next(w, act)) && Later(w, Next(w, act))
  {
    StockKeeps(w, act);
    QuietKeeps(w, Next(w, act));
  }

  lemma TickStepKeeps(w: World, dt: nat)
    requires Inv(w)
    ensures Inv(Next(w, Tick(dt))) && Later(w, Next(w, Tick(dt)))
  {
    TickKeeps(w, Next(w, Tick(dt)));
    QuietKeeps(w, Next(w, Tick(dt)));
  }

  lemma TickKeeps(w: World, x: World)
    requires Core(w) && x == w.(now := x.now) && w.now <= x.now
    ensures Core(x) && Later(w, x)
  {
    assert forall id :: Dead(w, id) <==> Dead(x, id);
    forall id | id in x.s.db.orders ensures OrderOk(x, id) {
      assert OrderOk(w, id);
    }
    forall c | 0 <= c < |x.placing| ensures PlacingOk(x, x.placing[c]) {
      assert PlacingOk(w, w.placing[c]);
    }
  }

  lemma ListedPlanOk(w: World, cutoff: int, limit: nat, pending: seq<OrderStore.Owed>)
    requires Core(w) && OrderStore.Listing(w.s.db, cutoff, limit, pending)
    ensures PlanOk(w, SweepTodo(pending))
  {
    forall k | 0 <= k < |pending| ensures PlanOk(w, OwedTodo(pending[k])) {
      OwedPlanOk(w, pending[k].order, cutoff);
    }
    SweepPlanOk(w, pending);
  }

  lemma SweepStepKeeps(w: World, cutoff: int, limit: nat, pending: seq<OrderStore.Owed>)
    requires Inv(w)
    ensures Inv(Next(w, Sweep(cutoff, limit, pending))) && Later(w, Next(w, Sweep(cutoff, limit, pending)))
  {
    var x := Next(w, Sweep(cutoff, limit, pending));
    NothingKeeps(w);
    if x != w {
      assert x == Spawn(w, SweepTodo(pending));
      ListedPlanOk(w, cutoff, limit, pending);
      SpawnKeeps(w, w, SweepTodo(pending));
    }
  }

  lemma ExpireStepKeeps(w: World, due: seq<nat>)
    requires Inv(w)
    ensures Inv(Next(w, ExpireDue(due))) && Later(w, Next(w, ExpireDue(due)))
  {
    NothingKeeps(w);
    if forall id :: id in due ==> Inventory.Due(w.s.inv, id, w.now) {
      forall i | 0 <= i < |due| ensures due[i] < |w.s.inv.reservations| {
        assert due[i] in due;
      }
      SpawnKeeps(w, w, seq(|due|, i requires 0 <= i < |due| => Expire(due[i])));
    }
  }

  lemma CrashStepKeeps(w: World, t: nat)
    requires Inv(w)
    ensures Inv(Next(w, Crash(t))) && Later(w, Next(w, Crash(t)))
  {
    NothingKeeps(w);
    if t < |w.threads| {
      var x := Next(w, Crash(t));
      InventoryStepKeeps(w, x);
      forall k | 0 <= k < |x.threads| ensures PlanOk(x, x.threads[k]) {
        if k != t {
          PlansStayOk(w, x, w.threads[k]);
        }
      }
    }
  }

  lemma WorkStepKeeps(w: World, t: nat, ok: bool)
    requires Inv(w)
    ensures Inv(Next(w, Act.Work(t, ok))) && Later(w, Next(w, Act.Work(t, ok)))
  {
    if t < |w.threads| && w.threads[t] != [] {
      WorkKeeps(w, t, ok);
    } else {
      NothingKeeps(w);
    }
  }

  lemma HandlerStepKeeps(w: World, act: Act)
    requires Inv(w)
    requires act.PaymentAuthorized? || act.PaymentFailed? || act.ReservationExpired? || act.CancelOrder? || act.Abandon?
    ensures Inv(Next(w, act)) && Later(w, Next(w, act))
  {
    match act {
      case PaymentAuthorized(k, eventId) => AuthorizedKeeps(w, k, eventId);
      case PaymentFailed(k, eventId, reason) => PaymentFailedKeeps(w, k, eventId, reason);
      case ReservationExpired(k, eventId) => ExpiredKeeps(w, k, eventId);
      case CancelOrder(id) => CancelOrderKeeps(w, id);
      case Abandon(c) => AbandonStepKeeps(w, c);
      case _ =>
    }
  }

  lemma ThreadStepKeeps(w: World, act: Act)
    requires Inv(w) && (act.Sweep? || act.ExpireDue? || act.Work? || act.Crash?)
    ensures Inv(Next(w, act)) && Later(w, Next(w, act))
  {
    match act {
      case Sweep(cutoff, limit, pending) => SweepStepKeeps(w, cutoff, limit, pending);
      case ExpireDue(due) => ExpireStepKeeps(w, due);
      case Work(t, ok) => WorkStepKeeps(w, t, ok);
      case Crash(t) => CrashStepKeeps(w, t);
      case _ =>
    }
  }

  lemma NextKeeps(w: World, act: Act)
    requires Inv(w)
    ensures Inv(Next(w, act)) && Later(w, Next(w, act))
  {
    if act.Begin? || act.Reserve? || act.Open? || act.Insert? {
      CheckoutStepKeeps(w, act);
    } else if act.Sweep? || act.ExpireDue? || act.Work? || act.Crash? {
      ThreadStepKeeps(w, act);
    } else if act.SettlePayment? || act.Refund? {
      MoneyStepKeeps(w, act);
    } else if act.Tick? {
      TickStepKeeps(w, act.dt);
    } else if act.Adjust? || act.Seed? {
      StockStepKeeps(w, act);
    } else if act.ShipmentDelivered? {
      ShipmentStepKeeps(w, act.id, act.shop, act.eventId);
    } else {
      HandlerStepKeeps(w, act);
    }
  }

  lemma {:induction false} RunKeeps(w: World, acts: seq<Act>)
    requires Inv(w)
    ensures Inv(Run(w, acts)) && Later(w, Run(w, acts))
    decreases |acts|
  {
    if acts == [] {
      NothingKeeps(w);
    } else {
      var x := Next(w, acts[0]);
      NextKeeps(w, acts[0]);
      RunKeeps(x, acts[1..]);
      LaterTransitive(w, x, Run(x, acts[1..]));
    }
  }

  const START := World(0, Services(OrderStore.EMPTY, Inventory.Store(map[], [], []), Payment.EMPTY), 0, [], [])

  lemma StartOk()
    ensures Inv(START)
  {
  }
}
