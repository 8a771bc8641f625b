/**
 The checkout saga and the reconciler, run one call at a time over the three stores.

 Calls to other services, and the marks that record them, are units of work that succeed or fail as the
 environment decides. A failed call has no effect.
 */
module Saga {
  import opened Base
  import opened Orders
  import Money
  import Pricing
  import Inventory
  import Payment
  import Idempotency
  import OrderStore

  /** The order tables, the inventory and the payment ledger. */
  datatype Services = Services(db: OrderStore.Db, inv: Inventory.Store, pay: Payment.Ledger)

  // ---- units of work ---------------------------------------------------------------------

  /** A compensation with no order is one for an order row that was never written. */
  datatype Todo =
    | Release(reservation: nat, order: Option<nat>)
    | MarkReleased(of: nat)
    | Void(payment: nat, order: Option<nat>)
    | MarkVoided(of: nat)
    | Commit(reservation: nat)
    | Expire(reservation: nat)
    | Announce(reservation: nat)

  datatype Turn = Turn(s: Services, todo: seq<Todo>)

  /** Release and Commit succeed unless the reservation is HELD and one of its stock rows is missing. */
  predicate CanFinish(inv: Inventory.Store, id: nat) {
    Inventory.IsHeld(inv, id) ==> Inventory.AllStocked(inv.stock, inv.reservations[id].items)
  }

  predicate CanVoid(pay: Payment.Ledger, id: nat) {
    Payment.TransitionOutcome(pay, id, Payment.Voided) == Payment.Done
  }

  /** What one unit of work leaves: the services, what is to be done next, and whether the rest is given up. */
  datatype Unit = Unit(s: Services, next: seq<Todo>, stops: bool)

  /**
   A compensation that succeeds is next recorded against its order; one that fails is skipped. An expiry sweep
   stops at the first failure.
   */
  function Try(s: Services, t: Todo, ok: bool): Unit {
    match t
    case Release(id, order) =>
      if !ok || !CanFinish(s.inv, id) then Unit(s, [], false)
      else Unit(s.(inv := Inventory.Finished(s.inv, id, false)), if order.Some? then [MarkReleased(order.value)] else [], false)
    case MarkReleased(o) => Unit(if ok then s.(db := OrderStore.MarkedReleased(s.db, o)) else s, [], false)
    case Void(id, order) =>
      if !ok || !CanVoid(s.pay, id) then Unit(s, [], false)
      else Unit(s.(pay := Payment.Transitioned(s.pay, id, Payment.Voided)), if order.Some? then [MarkVoided(order.value)] else [], false)
    case MarkVoided(o) => Unit(if ok then s.(db := OrderStore.MarkedVoided(s.db, o)) else s, [], false)
    case Commit(id) => Unit(if ok then s.(inv := Inventory.Finished(s.inv, id, true)) else s, [], false)
    case Expire(id) =>
      if !ok || !CanFinish(s.inv, id) then Unit(s, [], true)
      else Unit(s.(inv := Inventory.Finished(s.inv, id, false)), [Announce(id)], false)
    case Announce(id) => if !ok then Unit(s, [], true) else Unit(s.(inv := Inventory.WithExpired(s.inv, id)), [], false)
  }

  /** Does the first unit of a plan. */
  function Do(s: Services, todo: seq<Todo>, ok: bool): Turn
    requires todo != []
  {
    var u := Try(s, todo[0], ok);
    Turn(u.s, if u.stops then [] else if u.next == [] then todo[1..] else u.next + todo[1..])
  }

  function Weight(todo: seq<Todo>): nat {
    if todo == [] then 0
    else (if todo[0].Release? || todo[0].Void? || todo[0].Expire? then 2 else 1) + Weight(todo[1..])
  }

  /** Does all of it, one unit after the other. */
  function Work(s: Services, up: Todo -> bool, todo: seq<Todo>): Services
    decreases Weight(todo)
  {
    if todo == [] then s
    else
      var t := Do(s, todo, up(todo[0]));
      TurnIsLighter(s, todo, up(todo[0]));
      Work(t.s, up, t.todo)
  }

  lemma TurnIsLighter(s: Services, todo: seq<Todo>, ok: bool)
    requires todo != []
    ensures Weight(Do(s, todo, ok).todo) < Weight(todo)
  {
    var u, rest := Try(s, todo[0], ok), todo[1..];
    if u.next != [] {
      assert u.next == [u.next[0]] && ([u.next[0]] + rest)[1..] == rest;
    }
  }

  function ReleaseOf(reservation: Option<nat>, order: Option<nat>): seq<Todo> {
    if reservation == None then [] else [Release(reservation.value, order)]
  }

  function VoidOf(payment: Option<nat>, order: Option<nat>): seq<Todo> {
    if payment == None then [] else [Void(payment.value, order)]
  }

  function CommitOf(reservation: Option<nat>): seq<Todo> {
    if reservation == None then [] else [Commit(reservation.value)]
  }

  // ---- what each handler has to do after its Apply ------------------------------------------

  function AfterAuthorized(r: OrderStore.Reply): seq<Todo> {
    if r.Done? && r.order.status == Confirmed then CommitOf(r.order.reservationId) else []
  }

  /** Whether nothing is left of a confirmation to retry: no stock to commit, or a Commit that goes through. */
  predicate CommitLands(inv: Inventory.Store, up: Todo -> bool, o: Order) {
    o.status == Confirmed && o.reservationId.Some? ==> up(Commit(o.reservationId.value)) && CanFinish(inv, o.reservationId.value)
  }

  function AfterFailed(r: OrderStore.Reply, id: nat): seq<Todo> {
    if r.Done? then ReleaseOf(r.order.reservationId, Some(id)) else []
  }

  function AfterExpired(r: OrderStore.Reply, id: nat): seq<Todo> {
    if r.Done? && r.order.status == Cancelled then [MarkReleased(id)] + VoidOf(r.order.paymentId, Some(id)) else []
  }

  function AfterCancelled(r: OrderStore.Reply, id: nat): seq<Todo> {
    if r.Done? && r.order.status == Cancelled then ReleaseOf(r.order.reservationId, Some(id)) + VoidOf(r.order.paymentId, Some(id))
    else []
  }

  function OwedTodo(o: OrderStore.Owed): seq<Todo> {
    ReleaseOf(o.reservation, Some(o.order)) + VoidOf(o.payment, Some(o.order))
  }

  function SweepTodo(pending: seq<OrderStore.Owed>): seq<Todo> {
    if pending == [] then [] else SweepTodo(pending[..|pending| - 1]) + OwedTodo(pending[|pending| - 1])
  }

  /** No part of an expiry sweep, which gives up half way. */
  predicate Steady(todo: seq<Todo>) {
    forall i :: 0 <= i < |todo| ==> !todo[i].Expire? && !todo[i].Announce?
  }

  lemma TryIsSteady(s: Services, t: Todo, ok: bool)
    requires !t.Expire? && !t.Announce?
    ensures !Try(s, t, ok).stops && Steady(Try(s, t, ok).next)
  {
  }

  lemma DoAppend(s: Services, a: seq<Todo>, b: seq<Todo>, ok: bool)
    requires a != [] && Steady(a)
    ensures Do(s, a + b, ok).s == Do(s, a, ok).s && Do(s, a + b, ok).todo == Do(s, a, ok).todo + b
    ensures Steady(Do(s, a, ok).todo)
  {
    var u := Try(s, a[0], ok);
    TryIsSteady(s, a[0], ok);
    assert (a + b)[1..] == a[1..] + b && (a + b)[0] == a[0];
    assert u.next + (a[1..] + b) == u.next + a[1..] + b;
  }

  /** Work on a plan is work on its parts in turn. */
  lemma {:induction false} WorkAppend(s: Services, up: Todo -> bool, a: seq<Todo>, b: seq<Todo>)
    requires Steady(a)
    ensures Work(s, up, a + b) == Work(Work(s, up, a), up, b)
    decreases Weight(a)
  {
    if a == [] {
      assert a + b == b;
    } else {
      assert (a + b)[0] == a[0];
      var t := Do(s, a, up(a[0]));
      TurnIsLighter(s, a, up(a[0]));
      DoAppend(s, a, b, up(a[0]));
      WorkAppend(t.s, up, t.todo, b);
    }
  }

  // ---- the orchestrator -----------------------------------------------------------------------

  datatype CreateInput = CreateInput(ownerId: string, cartId: string, currency: string, couponCode: string, key: string)

  /** What a checkout meets outside the order service. The order id is a fresh uuid. */
  datatype Env = Env(
    now: int, orderId: nat, cart: Option<seq<Pricing.Item>>,
    catalog: map<string, Pricing.Product>, catalogUp: bool, coupons: map<string, Pricing.Coupon>, taxBps: int,
    reserveUp: bool, payUp: bool, insertCommits: bool, keyReleaseLands: bool)

  datatype Placement = Placed(order: nat, payment: nat) | Replayed(order: nat)

  datatype Failure =
    | NotAuthenticated | CartIdRequired | KeyReused | CheckoutInProgress | OrderNotFound
    | CartUnavailable | CartEmpty | QuoteFailed | ReserveFailed | PaymentInitFailed | InsertFailed

  const RESERVATION_TTL := 15 * 60

  function ReserveItems(cart: seq<Pricing.Item>): (r: seq<Inventory.Item>)
    ensures |r| == |cart|
  {
    seq(|cart|, i requires 0 <= i < |cart| => Inventory.Item(cart[i].productId, cart[i].quantity))
  }

  function NewOrder(in_: CreateInput, q: Pricing.Quote, payment: nat, reservation: nat, now: int): Order {
    Order(in_.ownerId, PendingPayment, q.lines, q.subtotal, q.discount, q.tax, q.total,
          Some(payment), Some(reservation), "", false, false, now)
  }

  function CurrencyOf(in_: CreateInput): string {
    if |in_.currency| != 3 then "USD" else in_.currency
  }

  const NO_QUOTE := Pricing.Quote([], 0, 0, 0, 0, "", "")

  function CouponOf(in_: CreateInput, env: Env): Option<Pricing.Coupon> {
    if in_.couponCode != "" && in_.couponCode in env.coupons then Some(env.coupons[in_.couponCode]) else None
  }

  function Held(s: Services, cart: seq<Pricing.Item>, env: Env): Services {
    s.(inv := Inventory.Reserved(s.inv, env.orderId, ReserveItems(cart), env.now + RESERVATION_TTL))
  }

  /** A checkout that went all the way. */
  ghost predicate WentThrough(s: Services, t: Services, in_: CreateInput, currency: string, env: Env, q: Pricing.Quote) {
    && env.cart.Some? && env.cart.value != []
    && Pricing.Quotable(currency, env.cart.value, env.catalog, env.catalogUp, env.coupons, in_.couponCode, env.now)
    && Pricing.IsQuote(q, Pricing.Quantities(env.cart.value), env.catalog, currency, CouponOf(in_, env), env.taxBps)
    && Inventory.ReserveRefusal(s.inv.stock, ReserveItems(env.cart.value)) == None
    && q.total > 0
    && t.inv == Held(s, env.cart.value, env).inv
    && t.pay == Payment.Created(s.pay, env.orderId, q.total)
    && t.db == OrderStore.InsertedOrder(s.db, env.orderId, NewOrder(in_, q, |s.pay.intents|, |s.inv.reservations|, env.now))
  }

  /** A checkout that failed: before it reserved, before it opened a payment, or at the insert. */
  ghost predicate FellThrough(s: Services, t: Services, env: Env, up: Todo -> bool) {
    || t == s
    || (&& env.cart.Some?
        && Inventory.ReserveRefusal(s.inv.stock, ReserveItems(env.cart.value)) == None
        && t == Work(Held(s, env.cart.value, env), up, [Release(|s.inv.reservations|, None)]))
    || (&& env.cart.Some?
        && Inventory.ReserveRefusal(s.inv.stock, ReserveItems(env.cart.value)) == None
        && exists cents :: cents > 0 && t == AfterLostInsert(s, env, up, cents))
  }

  function AfterLostInsert(s: Services, env: Env, up: Todo -> bool, cents: int): Services
    requires env.cart.Some?
  {
    Work(Held(s, env.cart.value, env).(pay := Payment.Created(s.pay, env.orderId, cents)), up,
         [Release(|s.inv.reservations|, None), Void(|s.pay.intents|, None)])
  }

  /** Whether a checkout reaches its forward path holding a claim, or needing none. */
  predicate Proceeds(keys: Idempotency.Keys, in_: CreateInput, now: int) {
    && in_.ownerId != "" && in_.cartId != ""
    && (in_.key == "" || Idempotency.GetsKey(keys, in_.key, in_.ownerId, RequestOf(in_), now))
  }

  function RequestOf(in_: CreateInput): string {
    Idempotency.FingerprintText(in_.ownerId, in_.cartId, CurrencyOf(in_), in_.couponCode)
  }

  /** Two checkouts make the same request exactly when owner, cart, coupon and currency are the same. */
  lemma RequestTells(a: CreateInput, b: CreateInput)
    requires forall s :: s in {a.ownerId, a.cartId, a.currency, a.couponCode} ==> Idempotency.SEPARATOR !in s
    requires forall s :: s in {b.ownerId, b.cartId, b.currency, b.couponCode} ==> Idempotency.SEPARATOR !in s
    ensures RequestOf(a) == RequestOf(b) <==>
            && a.ownerId == b.ownerId && a.cartId == b.cartId && a.couponCode == b.couponCode
            && (if |a.currency| == 3 then a.currency else "USD") == (if |b.currency| == 3 then b.currency else "USD")
  {
    Idempotency.FingerprintInjective(a.ownerId, a.cartId, CurrencyOf(a), a.couponCode, b.ownerId, b.cartId, CurrencyOf(b), b.couponCode);
  }

  /** The keys after a checkout that proceeded: closed on its order, given back, or, if even that failed, still held. */
  function KeysAfter(keys: Idempotency.Keys, in_: CreateInput, env: Env, placed: bool): Idempotency.Keys {
    if in_.key == "" then keys
    else if placed then
      keys[in_.key := Idempotency.Row(in_.ownerId, RequestOf(in_), Idempotency.Completed, Some(env.orderId), env.now)]
    else if env.keyReleaseLands then keys - {in_.key}
    else Idempotency.Held(keys, in_.key, in_.ownerId, RequestOf(in_), env.now)
  }

  lemma HeldThenSettled(keys: Idempotency.Keys, in_: CreateInput, env: Env)
    requires in_.key != ""
    ensures var held := Idempotency.Held(keys, in_.key, in_.ownerId, RequestOf(in_), env.now);
            && Idempotency.CanComplete(held, in_.key)
            && Idempotency.Closed(held, in_.key, env.orderId) == KeysAfter(keys, in_, env, true)
            && (env.keyReleaseLands ==> Idempotency.Released(held, in_.key) == KeysAfter(keys, in_, env, false))
  {
    var held := Idempotency.Held(keys, in_.key, in_.ownerId, RequestOf(in_), env.now);
    assert held - {in_.key} == keys - {in_.key};
  }

  /** What each failure of the forward path comes from. */
  ghost predicate Explains(why: Failure, s: Services, in_: CreateInput, env: Env) {
    match why
    case CartUnavailable => env.cart == None
    case CartEmpty => env.cart == Some([])
    case QuoteFailed =>
      env.cart.Some?
      && !Pricing.Quotable(CurrencyOf(in_), env.cart.value, env.catalog, env.catalogUp, env.coupons, in_.couponCode, env.now)
    case ReserveFailed =>
      env.cart.Some? && (!env.reserveUp || Inventory.ReserveRefusal(s.inv.stock, ReserveItems(env.cart.value)).Some?)
    case PaymentInitFailed =>
      env.cart.Some?
      && (!env.payUp
          || exists q: Pricing.Quote :: q.total <= 0
               && Pricing.IsQuote(q, Pricing.Quantities(env.cart.value), env.catalog, CurrencyOf(in_), CouponOf(in_, env), env.taxBps))
    case InsertFailed => !env.insertCommits
    case _ => false
  }

  /** The answer to a checkout whose key is another's, in use, or already answered. */
  function KeyAnswer(db: OrderStore.Db, keys: Idempotency.Keys, in_: CreateInput, now: int): Result<Placement, Failure> {
    match Idempotency.Concluded(keys, in_.key, in_.ownerId, RequestOf(in_), now)
    case Settled(Reused) => Err(KeyReused)
    case Settled(Replay(id)) => if id in db.orders && db.orders[id].ownerId == in_.ownerId then Ok(Replayed(id)) else Err(OrderNotFound)
    case _ => Err(CheckoutInProgress)
  }

  /**
   What a shopper whose key did not win is told: a key of another owner or request is refused, a completed checkout
   is answered with its own order and with no one else's, and an attempt of the last 15 minutes is still in progress.
   */
  lemma AnswersTell(db: OrderStore.Db, keys: Idempotency.Keys, in_: CreateInput, now: int)
    requires in_.key in keys && !Idempotency.GetsKey(keys, in_.key, in_.ownerId, RequestOf(in_), now)
    ensures var row := keys[in_.key];
            var mine := row.owner == in_.ownerId && row.request == RequestOf(in_);
            var answer := KeyAnswer(db, keys, in_, now);
            && (answer == Err(KeyReused) <==> !mine)
            && (mine && row.status == Idempotency.InFlight ==> answer == Err(CheckoutInProgress) && now - row.createdAt <= 900)
            && (mine && row.status == Idempotency.Completed && row.orderId.Some? ==>
                  answer == if row.orderId.value in db.orders && db.orders[row.orderId.value].ownerId == in_.ownerId
                            then Ok(Replayed(row.orderId.value)) else Err(OrderNotFound))
            && (answer.Ok? ==>
                  answer.value.Replayed? && row.orderId == Some(answer.value.order)
                  && answer.value.order in db.orders && db.orders[answer.value.order].ownerId == in_.ownerId)
  {
  }

  /**
   What the same request meets when it is sent again: the order that was placed; after a failure a free key at once, or,
   if the claim could not be given back, once it is more than 15 minutes old.
   */
  lemma RetryMeets(db: OrderStore.Db, keys: Idempotency.Keys, in_: CreateInput, env: Env, later: int)
    requires in_.key != "" && Proceeds(keys, in_, env.now)
    ensures env.orderId in db.orders && db.orders[env.orderId].ownerId == in_.ownerId ==>
              var after := KeysAfter(keys, in_, env, true);
              && !Idempotency.GetsKey(after, in_.key, in_.ownerId, RequestOf(in_), later)
              && KeyAnswer(db, after, in_, later) == Ok(Replayed(env.orderId))
    ensures Idempotency.GetsKey(KeysAfter(keys, in_, env, false), in_.key, in_.ownerId, RequestOf(in_), later) <==>
            env.keyReleaseLands || later > env.now + 900
  {
  }

  class Orchestrator {
    const store: OrderStore.Store
    const inventory: Inventory.InventoryStore
    const payments: Payment.PaymentStore
    /** Which units of work succeed. */
    var up: Todo -> bool

    function State(): Services
      reads this, store, inventory, payments
    {
      Services(store.State(), inventory.State(), payments.State())
    }

    constructor (store: OrderStore.Store, inventory: Inventory.InventoryStore, payments: Payment.PaymentStore, up: Todo -> bool)
      ensures this.store == store && this.inventory == inventory && this.payments == payments && this.up == up
    {
      this.store, this.inventory, this.payments, this.up := store, inventory, payments, up;
    }

    /** Releases stock, and records it against the order if there is one. */
    method ReleaseReservation(order: Option<nat>, reservation: Option<nat>) returns (ok: bool)
      modifies store, inventory
      ensures State() == Work(old(State()), up, ReleaseOf(reservation, order))
      ensures store.keyTable.keys == old(store.keyTable.keys)
      ensures ok <==> reservation == None
                      || (&& up(Release(reservation.value, order)) && CanFinish(old(State()).inv, reservation.value)
                          && (order.Some? ==> up(MarkReleased(order.value))))
      ensures ok && order.Some? && reservation.Some? && order.value in store.orders ==> store.orders[order.value].released
    {
      if reservation == None {
        return true;
      }
      ghost var s := State();
      assert Work(s, up, [Release(reservation.value, order)]) ==
             Work(Do(s, [Release(reservation.value, order)], up(Release(reservation.value, order))).s, up,
                  Do(s, [Release(reservation.value, order)], up(Release(reservation.value, order))).todo);
      if !up(Release(reservation.value, order)) {
        return false;
      }
      ok := inventory.Release(reservation.value);
      if !ok || order == None {
        return;
      }
      if !up(MarkReleased(order.value)) {
        return false;
      }
      store.MarkReservationReleased(order.value);
    }

    /** Voids the authorisation, and records it against the order if there is one. */
    method VoidPayment(order: Option<nat>, payment: Option<nat>) returns (ok: bool)
      modifies store, payments
      ensures State() == Work(old(State()), up, VoidOf(payment, order))
      ensures store.keyTable.keys == old(store.keyTable.keys)
      ensures ok <==> payment == None
                      || (&& up(Void(payment.value, order)) && CanVoid(old(State()).pay, payment.value)
                          && (order.Some? ==> up(MarkVoided(order.value))))
      ensures ok && order.Some? && payment.Some? && order.value in store.orders ==> store.orders[order.value].voided
    {
      if payment == None {
        return true;
      }
      ghost var s := State();
      assert Work(s, up, [Void(payment.value, order)]) ==
             Work(Do(s, [Void(payment.value, order)], up(Void(payment.value, order))).s, up,
                  Do(s, [Void(payment.value, order)], up(Void(payment.value, order))).todo);
      if !up(Void(payment.value, order)) {
        return false;
      }
      var r := payments.Transition(payment.value, Payment.Voided);
      if r != Payment.Done {
        return false;
      }
      if order == None {
        return true;
      }
      if !up(MarkVoided(order.value)) {
        return false;
      }
      store.MarkPaymentVoided(order.value);
      ok := true;
    }

    // ---- event handlers ------------------------------------------------------------------------

    method OnPaymentAuthorized(eventId: string, id: nat, now: int) returns (ok: bool)
      modifies store, inventory
      ensures var r := OrderStore.ApplyReply(old(State()).db, id, eventId, Confirm);
              && State() == Work(old(State()).(db := OrderStore.Applied(old(State()).db, id, eventId, Confirm, now)), up, AfterAuthorized(r))
              && (r.Done? ==> (ok <==> CommitLands(old(State()).inv, up, r.order)))
              && (!r.Done? ==> (ok <==> r == OrderStore.Duplicate))
    {
      var r := store.Apply(id, eventId, Confirm, now);
      if !r.Done? {
        return r == OrderStore.Duplicate;
      }
      if r.order.status == Confirmed && r.order.reservationId != None {
        var reservation := r.order.reservationId.value;
        ghost var s := State();
        assert Do(s, [Commit(reservation)], up(Commit(reservation))).todo == [];
        if !up(Commit(reservation)) {
          return false;
        }
        ok := inventory.Commit(reservation);
      } else {
        ok := true;
      }
    }

    method OnPaymentFailed(eventId: string, id: nat, reason: string, now: int) returns (ok: bool)
      modifies store, inventory
      ensures var r := OrderStore.ApplyReply(old(State()).db, id, eventId, Cancel("PAYMENT_FAILED:" + reason));
              && State() == Work(old(State()).(db := OrderStore.Applied(old(State()).db, id, eventId, Cancel("PAYMENT_FAILED:" + reason), now)),
                                 up, AfterFailed(r, id))
              && (ok <==> r.Done? || r == OrderStore.Duplicate)
    {
      var r := store.Apply(id, eventId, Cancel("PAYMENT_FAILED:" + reason), now);
      if !r.Done? {
        return r == OrderStore.Duplicate;
      }
      var _ := ReleaseReservation(Some(id), r.order.reservationId);
      ok := true;
    }

    /** The announcement names the order; one that was never written is ignored. */
    method OnReservationExpired(eventId: string, id: nat, now: int) returns (ok: bool)
      modifies store, payments
      ensures var r := OrderStore.ApplyReply(old(State()).db, id, eventId, CancelIfPending("RESERVATION_EXPIRED"));
              && State() == Work(old(State()).(db := OrderStore.Applied(old(State()).db, id, eventId, CancelIfPending("RESERVATION_EXPIRED"), now)),
                                 up, AfterExpired(r, id))
      ensures ok
    {
      ok := true;
      if id !in store.orders {
        return;
      }
      var r := store.Apply(id, eventId, CancelIfPending("RESERVATION_EXPIRED"), now);
      if !r.Done? {
        return;
      }
      if r.order.status == Cancelled {
        ghost var s := State();
        ghost var todo := [MarkReleased(id)] + VoidOf(r.order.paymentId, Some(id));
        assert Do(s, todo, up(todo[0])).todo == VoidOf(r.order.paymentId, Some(id));
        if up(MarkReleased(id)) {
          store.MarkReservationReleased(id);
        }
        var _ := VoidPayment(Some(id), r.order.paymentId);
      }
    }

    /** A customer's cancellation, with its compensations. */
    method CancelOrder(ownerId: string, id: nat, now: int) returns (ok: bool)
      modifies store, inventory, payments
      ensures !(id in old(State()).db.orders && (ownerId == "" || old(State()).db.orders[id].ownerId == ownerId)) ==>
                !ok && State() == old(State())
      ensures id in old(State()).db.orders && (ownerId == "" || old(State()).db.orders[id].ownerId == ownerId) ==>
                var r := OrderStore.ApplyReply(old(State()).db, id, "", Cancel("CANCELLED_BY_CUSTOMER"));
                && State() == Work(old(State()).(db := OrderStore.Applied(old(State()).db, id, "", Cancel("CANCELLED_BY_CUSTOMER"), now)),
                                   up, AfterCancelled(r, id))
                && (ok <==> r.Done?)
    {
      if id !in store.orders || (ownerId != "" && store.orders[id].ownerId != ownerId) {
        return false;
      }
      var r := store.Apply(id, "", Cancel("CANCELLED_BY_CUSTOMER"), now);
      ok := r.Done?;
      if ok {
        CompensateCancelled(id, r.order);
      }
    }

    method CompensateCancelled(id: nat, o: Order)
      modifies store, inventory, payments
      ensures State() == Work(old(State()), up, AfterCancelled(OrderStore.Done(o), id))
    {
      if o.status != Cancelled {
        return;
      }
      ghost var s := State();
      var _ := ReleaseReservation(Some(id), o.reservationId);
      var _ := VoidPayment(Some(id), o.paymentId);
      WorkAppend(s, up, ReleaseOf(o.reservationId, Some(id)), VoidOf(o.paymentId, Some(id)));
    }

    // ---- checkout ----------------------------------------------------------------------------------

    /** Cart and quote: nothing is written yet. */
    method QuoteCart(in_: CreateInput, currency: string, env: Env, ghost s: Services) returns (r: Result<Pricing.Quote, Failure>)
      requires currency == CurrencyOf(in_)
      ensures r.Ok? ==>
                && env.cart.Some? && env.cart.value != []
                && Pricing.Quotable(currency, env.cart.value, env.catalog, env.catalogUp, env.coupons, in_.couponCode, env.now)
                && Pricing.IsQuote(r.value, Pricing.Quantities(env.cart.value), env.catalog, currency, CouponOf(in_, env), env.taxBps)
      ensures r.Err? ==> r.reason in {CartUnavailable, CartEmpty, QuoteFailed} && Explains(r.reason, s, in_, env)
    {
      if env.cart == None {
        return Err(CartUnavailable);
      }
      var cart := env.cart.value;
      if cart == [] {
        return Err(CartEmpty);
      }
      var quoted := Pricing.QuotePrice(currency, cart, env.catalog, env.catalogUp, env.coupons, in_.couponCode, env.taxBps, env.now);
      r := if quoted.Ok? then Ok(quoted.value) else Err(QuoteFailed);
    }

    /** Stock for the quoted cart, then the rest. */
    method Forward(in_: CreateInput, currency: string, env: Env) returns (r: Result<Placement, Failure>, ghost q: Pricing.Quote)
      requires env.orderId !in store.orders && currency == CurrencyOf(in_)
      requires in_.key != "" ==> Idempotency.CanComplete(store.keyTable.keys, in_.key)
      modifies store, store.keyTable, inventory, payments
      ensures r.Ok? ==>
                && r.value == Placed(env.orderId, |old(State()).pay.intents|)
                && WentThrough(old(State()), State(), in_, currency, env, q)
                && store.keyTable.keys == if in_.key == "" then old(store.keyTable.keys)
                                          else Idempotency.Closed(old(store.keyTable.keys), in_.key, env.orderId)
      ensures r.Err? ==>
                && FellThrough(old(State()), State(), env, up) && store.keyTable.keys == old(store.keyTable.keys)
                && Explains(r.reason, old(State()), in_, env)
    {
      ghost var s := State();
      var quoted := QuoteCart(in_, currency, env, s);
      if quoted.Err? {
        return Err(quoted.reason), NO_QUOTE;
      }
      var reserved := ReserveCart(env);
      if reserved == None {
        return Err(ReserveFailed), NO_QUOTE;
      }
      q := quoted.value;
      r := OpenAndPersist(in_, currency, env, quoted.value, reserved.value, s);
    }

    method ReserveCart(env: Env) returns (r: Option<nat>)
      requires env.cart.Some?
      modifies inventory
      ensures var refused := !env.reserveUp || Inventory.ReserveRefusal(old(State()).inv.stock, ReserveItems(env.cart.value)).Some?;
              if refused then r == None && State() == old(State())
              else r == Some(|old(State()).inv.reservations|) && State() == Held(old(State()), env.cart.value, env)
    {
      if !env.reserveUp {
        return None;
      }
      var reserved := inventory.Reserve(env.orderId, ReserveItems(env.cart.value), env.now + RESERVATION_TTL);
      r := if reserved.Ok? then Some(reserved.value) else None;
    }

    /** The insert failed: stock and payment go back, each whether or not the other does. */
    method UndoBoth(reservation: nat, payment: nat)
      modifies store, inventory, payments
      ensures State() == Work(old(State()), up, [Release(reservation, None), Void(payment, None)])
      ensures store.keyTable.keys == old(store.keyTable.keys)
    {
      ghost var t := State();
      var _ := ReleaseReservation(None, Some(reservation));
      var _ := VoidPayment(None, Some(payment));
      WorkAppend(t, up, [Release(reservation, None)], [Void(payment, None)]);
      assert [Release(reservation, None)] + [Void(payment, None)] == [Release(reservation, None), Void(payment, None)];
    }

    /** Payment and order, each undone if the next step fails. The amount crosses the wire in units and nanos. */
    method OpenAndPersist(in_: CreateInput, currency: string, env: Env, q: Pricing.Quote, reservation: nat, ghost s: Services)
        returns (r: Result<Placement, Failure>)
      requires env.orderId !in store.orders && env.cart.Some? && env.cart.value != [] && currency == CurrencyOf(in_)
      requires in_.key != "" ==> Idempotency.CanComplete(store.keyTable.keys, in_.key)
      requires State() == Held(s, env.cart.value, env) && reservation == |s.inv.reservations|
      requires Inventory.ReserveRefusal(s.inv.stock, ReserveItems(env.cart.value)) == None
      requires Pricing.Quotable(currency, env.cart.value, env.catalog, env.catalogUp, env.coupons, in_.couponCode, env.now)
      requires Pricing.IsQuote(q, Pricing.Quantities(env.cart.value), env.catalog, currency, CouponOf(in_, env), env.taxBps)
      modifies store, store.keyTable, inventory, payments
      ensures r.Ok? ==>
                && r.value == Placed(env.orderId, |s.pay.intents|)
                && WentThrough(s, State(), in_, currency, env, q)
                && store.keyTable.keys == if in_.key == "" then old(store.keyTable.keys)
                                          else Idempotency.Closed(old(store.keyTable.keys), in_.key, env.orderId)
      ensures r.Err? ==>
                && FellThrough(s, State(), env, up) && store.keyTable.keys == old(store.keyTable.keys)
                && Explains(r.reason, s, in_, env)
    {
      var amount := Money.Money(currency, q.total);
      Money.WireRoundTrip(amount);
      var intent: Option<nat> := None;
      if env.payUp {
        var created := payments.Create(Some(env.orderId), currency, Money.Units(amount), Money.Nanos(amount));
        intent := if created.Ok? then Some(created.value) else None;
      }
      if intent == None {
        var _ := ReleaseReservation(None, Some(reservation));
        return Err(PaymentInitFailed);
      }
      var o := NewOrder(in_, q, intent.value, reservation, env.now);
      var ok := store.InsertWithKey(env.orderId, o, in_.key, env.insertCommits);
      if !ok {
        UndoBoth(reservation, intent.value);
        assert State() == AfterLostInsert(s, env, up, q.total);
        return Err(InsertFailed);
      }
      r := Ok(Placed(env.orderId, intent.value));
    }

    /** The forward path under an idempotency claim, which a failure gives back. */
    method CreateOrder(in_: CreateInput, env: Env) returns (r: Result<Placement, Failure>, ghost q: Pricing.Quote)
      requires env.orderId !in store.orders
      modifies store, store.keyTable, inventory, payments
      ensures in_.ownerId == "" ==> r == Err(NotAuthenticated)
      ensures in_.ownerId != "" && in_.cartId == "" ==> r == Err(CartIdRequired)
      ensures !Proceeds(old(store.keyTable.keys), in_, env.now) ==>
                && State() == old(State()) && store.keyTable.keys == old(store.keyTable.keys)
                && (in_.ownerId != "" && in_.cartId != "" ==>
                      r == KeyAnswer(old(State()).db, old(store.keyTable.keys), in_, env.now))
      ensures r.Ok? && r.value.Replayed? ==>
                && r.value.order in old(store.orders) && old(store.orders)[r.value.order].ownerId == in_.ownerId
                && in_.key in old(store.keyTable.keys) && old(store.keyTable.keys)[in_.key].owner == in_.ownerId
                && old(store.keyTable.keys)[in_.key].orderId == Some(r.value.order)
      ensures Proceeds(old(store.keyTable.keys), in_, env.now) ==>
                && (r.Ok? ==> r.value == Placed(env.orderId, |old(State()).pay.intents|)
                              && WentThrough(old(State()), State(), in_, CurrencyOf(in_), env, q))
                && (r.Err? ==> FellThrough(old(State()), State(), env, up) && Explains(r.reason, old(State()), in_, env))
                && store.keyTable.keys == KeysAfter(old(store.keyTable.keys), in_, env, r.Ok?)
    {
      if in_.ownerId == "" {
        return Err(NotAuthenticated), NO_QUOTE;
      }
      if in_.cartId == "" {
        return Err(CartIdRequired), NO_QUOTE;
      }
      if in_.key != "" {
        var answer := TakeKey(in_, env.now);
        if answer.Some? {
          return answer.value, NO_QUOTE;
        }
        HeldThenSettled(old(store.keyTable.keys), in_, env);
      }
      r, q := Forward(in_, CurrencyOf(in_), env);
      if r.Err? && in_.key != "" && env.keyReleaseLands {
        store.keyTable.ReleaseIdempotencyKey(in_.key);
      }
    }

    /** Claims the key before anything downstream is touched; any other outcome is an answer. */
    method TakeKey(in_: CreateInput, now: int) returns (answer: Option<Result<Placement, Failure>>)
      requires in_.key != ""
      modifies store.keyTable
      ensures answer == None <==> Idempotency.GetsKey(old(store.keyTable.keys), in_.key, in_.ownerId, RequestOf(in_), now)
      ensures answer == None ==>
                store.keyTable.keys == Idempotency.Held(old(store.keyTable.keys), in_.key, in_.ownerId, RequestOf(in_), now)
      ensures answer.Some? ==>
                store.keyTable.keys == old(store.keyTable.keys)
                && answer.value == KeyAnswer(store.State(), old(store.keyTable.keys), in_, now)
    {
      var claim := store.keyTable.ClaimIdempotencyKey(in_.key, in_.ownerId, RequestOf(in_), now);
      match claim {
        case Reused => answer := Some(Err(KeyReused));
        case Busy => answer := Some(Err(CheckoutInProgress));
        case Replay(id) =>
          if id in store.orders && store.orders[id].ownerId == in_.ownerId {
            answer := Some(Ok(Replayed(id)));
          } else {
            answer := Some(Err(OrderNotFound));
          }
        case Claimed => answer := None;
      }
    }
  }

  // ---- the reconciler -------------------------------------------------------------------------------

  class Sweeper {
    const saga: Orchestrator
    const settledFor: int
    const batch: int

    constructor (saga: Orchestrator, settledFor: int, batch: int)
      ensures this.saga == saga
      ensures this.settledFor == (if settledFor <= 0 then 5 * 60 else settledFor)
      ensures this.batch == (if batch <= 0 then 100 else batch)
    {
      this.saga := saga;
      this.settledFor := if settledFor <= 0 then 5 * 60 else settledFor;
      this.batch := if batch <= 0 then 100 else batch;
    }

    /** The two compensations of one order. A release that fails does not stop the void. */
    method Retry(p: OrderStore.Owed)
      modifies saga.store, saga.inventory, saga.payments
      ensures saga.State() == Work(old(saga.State()), saga.up, OwedTodo(p))
    {
      ghost var s := saga.State();
      if p.reservation != None {
        var _ := saga.ReleaseReservation(Some(p.order), p.reservation);
      }
      if p.payment != None {
        var _ := saga.VoidPayment(Some(p.order), p.payment);
      }
      WorkAppend(s, saga.up, ReleaseOf(p.reservation, Some(p.order)), VoidOf(p.payment, Some(p.order)));
    }

    /** Retries every outstanding compensation once; no failure stops the next retry. */
    method Sweep(now: int) returns (ghost pending: seq<OrderStore.Owed>)
      modifies saga.store, saga.inventory, saga.payments
      ensures OrderStore.Listing(old(saga.State()).db, now - settledFor, OrderStore.Limit(batch), pending)
      ensures saga.State() == Work(old(saga.State()), saga.up, SweepTodo(pending))
    {
      var listed := saga.store.PendingCompensations(settledFor, now, batch);
      pending := listed;
      var k := 0;
      while k < |listed|
        invariant 0 <= k <= |listed|
        invariant saga.State() == Work(old(saga.State()), saga.up, SweepTodo(listed[..k]))
      {
        Retry(listed[k]);
        SweepGrows(old(saga.State()), saga.up, listed, k);
        k := k + 1;
      }
      assert listed[..k] == listed;
    }
  }

  lemma SweepGrows(s: Services, up: Todo -> bool, pending: seq<OrderStore.Owed>, k: nat)
    requires k < |pending|
    ensures Work(s, up, SweepTodo(pending[..k + 1])) == Work(Work(s, up, SweepTodo(pending[..k])), up, OwedTodo(pending[k]))
  {
    assert pending[..k + 1][..k] == pending[..k];
    SweepSteady(pending[..k]);
    WorkAppend(s, up, SweepTodo(pending[..k]), OwedTodo(pending[k]));
  }

  lemma {:induction false} SweepSteady(pending: seq<OrderStore.Owed>)
    ensures Steady(SweepTodo(pending))
  {
    if pending != [] {
      SweepSteady(pending[..|pending| - 1]);
    }
  }
}
