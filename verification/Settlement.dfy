/**
 What settling an order does: to stock when it is confirmed, to stock and payment when it is cancelled, and over every
 interleaving to the stock of the whole shop.
 */
module Settlement {
  import opened Base
  import opened Orders
  import opened Saga
  import Compensation
  import CompensationLedger
  import Inventory
  import StockAccounting
  import OrderStore
  import Payment

  // ---- one order confirmed -------------------------------------------------------------------------

  lemma LoneCommit(s: Services, up: Todo -> bool, r: nat)
    ensures Work(s, up, [Commit(r)]) == if up(Commit(r)) then s.(inv := Inventory.Finished(s.inv, r, true)) else s
  {
    var t := Do(s, [Commit(r)], up(Commit(r)));
    assert t.todo == [];
  }

  /**
   A PENDING order whose authorisation arrives is CONFIRMED, and if the Commit call succeeds its stock is sold: the
   reservation is COMMITTED and each of its products has that much less on hand and reserved. If the call fails the
   stock is as it was; the payment is not touched either way.
   */
  lemma ConfirmationTakesStock(s: Services, up: Todo -> bool, id: nat, eventId: string, now: int, r: nat)
    requires StockAccounting.Accounted(s.inv) && id in s.db.orders && s.db.orders[id].status == PendingPayment
    requires eventId == "" || eventId !in s.db.processed
    requires s.db.orders[id].reservationId == Some(r) && r < |s.inv.reservations| && s.inv.reservations[r].status == Inventory.Held
    ensures var t := Work(s.(db := OrderStore.Applied(s.db, id, eventId, Confirm, now)), up,
                          AfterAuthorized(OrderStore.ApplyReply(s.db, id, eventId, Confirm)));
            && t.db.orders == s.db.orders[id := s.db.orders[id].(status := Confirmed, updatedAt := now)]
            && t.pay == s.pay
            && (if up(Commit(r)) then StockAccounting.SettlesStock(s.inv, t.inv, r, true) else t.inv == s.inv)
  {
    OrderStore.AppliedFigures(s.db, id, eventId, Confirm, now);
    MovedFigures(s.db.orders[id], "");
    LoneCommit(s.(db := OrderStore.Applied(s.db, id, eventId, Confirm, now)), up, r);
    StockAccounting.FinishFigures(s.inv, r, true);
  }

  // ---- one order cancelled --------------------------------------------------------------------------

  /** Stock and payment after a release and a void were tried. */
  ghost predicate GivenBack(s: Services, t: Services, r: nat, releases: bool)
    requires r < |s.inv.reservations|
  {
    if releases && s.inv.reservations[r].status == Inventory.Held then StockAccounting.SettlesStock(s.inv, t.inv, r, false)
    else t.inv == s.inv
  }

  ghost predicate TakenBack(s: Services, t: Services, i: nat, voids: bool)
    requires i < |s.pay.intents|
  {
    t.pay.intents ==
    (if voids && s.pay.intents[i].status in {Payment.RequiresConfirmation, Payment.Authorized} then
       s.pay.intents[i := s.pay.intents[i].(status := Payment.Voided)]
     else s.pay.intents)
    && t.pay.refunds == s.pay.refunds && t.pay.outbox == s.pay.outbox
  }

  /** A release tried and recorded against its order, as its own two calls succeed. */
  ghost predicate ReleaseTried(s: Services, t: Services, up: Todo -> bool, id: nat, r: nat)
    requires r < |s.inv.reservations| && id in s.db.orders
  {
    && GivenBack(s, t, r, up(Release(r, Some(id)))) && t.pay == s.pay
    && t.db.orders == s.db.orders[id := s.db.orders[id].(
                         released := s.db.orders[id].released || (up(Release(r, Some(id))) && up(MarkReleased(id))))]
  }

  ghost predicate VoidTried(s: Services, t: Services, up: Todo -> bool, id: nat, i: nat)
    requires i < |s.pay.intents| && id in s.db.orders
  {
    var open := s.pay.intents[i].status !in {Payment.Failed, Payment.Status.Refunded};
    && TakenBack(s, t, i, up(Void(i, Some(id)))) && t.inv == s.inv
    && t.db.orders == s.db.orders[id := s.db.orders[id].(
                         voided := s.db.orders[id].voided || (up(Void(i, Some(id))) && open && up(MarkVoided(id))))]
  }

  lemma ReleasingGivesBack(s: Services, up: Todo -> bool, id: nat, r: nat)
    requires StockAccounting.Accounted(s.inv) && r < |s.inv.reservations| && id in s.db.orders
    ensures ReleaseTried(s, Work(s, up, [Release(r, Some(id))]), up, id, r)
  {
    CompensationLedger.ReleaseWork(s, up, id, r);
    assert CanFinish(s.inv, r);
    if Inventory.IsHeld(s.inv, r) {
      StockAccounting.FinishFigures(s.inv, r, false);
    }
  }

  lemma VoidingTakesBack(s: Services, up: Todo -> bool, id: nat, i: nat)
    requires i < |s.pay.intents| && id in s.db.orders
    ensures VoidTried(s, Work(s, up, [Void(i, Some(id))]), up, id, i)
  {
    CompensationLedger.VoidWork(s, up, id, i);
    Payment.TransitionFigures(s.pay, i, Payment.Voided);
  }

  /** A failed payment cancels the order, with its reason, and gives its stock back; the payment stays FAILED. */
  lemma FailureGivesBack(s: Services, up: Todo -> bool, id: nat, eventId: string, reason: string, now: int, r: nat)
    requires StockAccounting.Accounted(s.inv) && id in s.db.orders && s.db.orders[id].status in {PendingPayment, Confirmed}
    requires eventId == "" || eventId !in s.db.processed
    requires s.db.orders[id].reservationId == Some(r) && r < |s.inv.reservations|
    ensures var m := Cancel("PAYMENT_FAILED:" + reason);
            var o := s.db.orders[id];
            var t := Work(s.(db := OrderStore.Applied(s.db, id, eventId, m, now)), up,
                          AfterFailed(OrderStore.ApplyReply(s.db, id, eventId, m), id));
            && id in t.db.orders
            && t.db.orders[id] == o.(status := Cancelled, cancelReason := "PAYMENT_FAILED:" + reason, updatedAt := now,
                                     released := o.released || (up(Release(r, Some(id))) && up(MarkReleased(id))))
            && GivenBack(s, t, r, up(Release(r, Some(id)))) && t.pay == s.pay
  {
    var m := Cancel("PAYMENT_FAILED:" + reason);
    OrderStore.AppliedFigures(s.db, id, eventId, m, now);
    MovedFigures(s.db.orders[id], "PAYMENT_FAILED:" + reason);
    ReleasingGivesBack(s.(db := OrderStore.Applied(s.db, id, eventId, m, now)), up, id, r);
  }

  /**
   An announced expiry cancels a PENDING order, marks its reservation released without another call, and takes its
   payment back; an order that is no longer pending is left alone unless it was cancelled.
   */
  lemma ExpiryTakesBack(s: Services, up: Todo -> bool, id: nat, eventId: string, now: int, i: nat)
    requires id in s.db.orders && s.db.orders[id].status == PendingPayment
    requires eventId == "" || eventId !in s.db.processed
    requires s.db.orders[id].paymentId == Some(i) && i < |s.pay.intents|
    ensures var m := CancelIfPending("RESERVATION_EXPIRED");
            var o := s.db.orders[id];
            var open := s.pay.intents[i].status !in {Payment.Failed, Payment.Status.Refunded};
            var t := Work(s.(db := OrderStore.Applied(s.db, id, eventId, m, now)), up,
                          AfterExpired(OrderStore.ApplyReply(s.db, id, eventId, m), id));
            && id in t.db.orders
            && t.db.orders[id] == o.(status := Cancelled, cancelReason := "RESERVATION_EXPIRED", updatedAt := now,
                                     released := o.released || up(MarkReleased(id)),
                                     voided := o.voided || (up(Void(i, Some(id))) && open && up(MarkVoided(id))))
            && t.inv == s.inv && TakenBack(s, t, i, up(Void(i, Some(id))))
  {
    var m := CancelIfPending("RESERVATION_EXPIRED");
    OrderStore.AppliedFigures(s.db, id, eventId, m, now);
    MovedFigures(s.db.orders[id], "RESERVATION_EXPIRED");
    var u := s.(db := OrderStore.Applied(s.db, id, eventId, m, now));
    var todo := [MarkReleased(id)] + [Void(i, Some(id))];
    var d := Do(u, todo, up(MarkReleased(id)));
    assert todo[0] == MarkReleased(id) && d.todo == [Void(i, Some(id))];
    assert Work(u, up, todo) == Work(d.s, up, d.todo);
    VoidingTakesBack(d.s, up, id, i);
  }

  /** A cancelled order gives its stock back and takes its payment back, each as far as its own calls succeed. */
  lemma CancellationGivesBack(s: Services, up: Todo -> bool, id: nat, now: int, r: nat, i: nat)
    requires StockAccounting.Accounted(s.inv) && id in s.db.orders && s.db.orders[id].status in {PendingPayment, Confirmed}
    requires s.db.orders[id].reservationId == Some(r) && r < |s.inv.reservations|
    requires s.db.orders[id].paymentId == Some(i) && i < |s.pay.intents|
    ensures var m := Cancel("CANCELLED_BY_CUSTOMER");
            var o := s.db.orders[id];
            var open := s.pay.intents[i].status !in {Payment.Failed, Payment.Status.Refunded};
            var t := Work(s.(db := OrderStore.Applied(s.db, id, "", m, now)), up,
                          AfterCancelled(OrderStore.ApplyReply(s.db, id, "", m), id));
            && id in t.db.orders
            && t.db.orders[id] == o.(status := Cancelled, cancelReason := "CANCELLED_BY_CUSTOMER", updatedAt := now,
                                     released := o.released || (up(Release(r, Some(id))) && up(MarkReleased(id))),
                                     voided := o.voided || (up(Void(i, Some(id))) && open && up(MarkVoided(id))))
            && GivenBack(s, t, r, up(Release(r, Some(id)))) && TakenBack(s, t, i, up(Void(i, Some(id))))
  {
    var m := Cancel("CANCELLED_BY_CUSTOMER");
    OrderStore.AppliedFigures(s.db, id, "", m, now);
    MovedFigures(s.db.orders[id], "CANCELLED_BY_CUSTOMER");
    BothGiveBack(s.(db := OrderStore.Applied(s.db, id, "", m, now)), up, id, r, i);
  }

  ghost predicate BothTried(u: Services, t: Services, up: Todo -> bool, id: nat, r: nat, i: nat)
    requires id in u.db.orders && r < |u.inv.reservations| && i < |u.pay.intents|
  {
    var o := u.db.orders[id];
    var open := u.pay.intents[i].status !in {Payment.Failed, Payment.Status.Refunded};
    && t.db.orders == u.db.orders[id := o.(released := o.released || (up(Release(r, Some(id))) && up(MarkReleased(id))),
                                           voided := o.voided || (up(Void(i, Some(id))) && open && up(MarkVoided(id))))]
    && GivenBack(u, t, r, up(Release(r, Some(id)))) && TakenBack(u, t, i, up(Void(i, Some(id))))
  }

  lemma BothGiveBack(u: Services, up: Todo -> bool, id: nat, r: nat, i: nat)
    requires StockAccounting.Accounted(u.inv) && id in u.db.orders && r < |u.inv.reservations| && i < |u.pay.intents|
    ensures BothTried(u, Work(u, up, [Release(r, Some(id))] + [Void(i, Some(id))]), up, id, r, i)
  {
    WorkAppend(u, up, [Release(r, Some(id))], [Void(i, Some(id))]);
    var mid := Work(u, up, [Release(r, Some(id))]);
    ReleasingGivesBack(u, up, id, r);
    VoidingTakesBack(mid, up, id, i);
    TriedInTurn(u, mid, Work(mid, up, [Void(i, Some(id))]), up, id, r, i);
  }

  lemma TriedInTurn(u: Services, mid: Services, t: Services, up: Todo -> bool, id: nat, r: nat, i: nat)
    requires id in u.db.orders && r < |u.inv.reservations| && i < |u.pay.intents|
    requires ReleaseTried(u, mid, up, id, r) && VoidTried(mid, t, up, id, i)
    ensures BothTried(u, t, up, id, r, i)
  {
  }

  // ---- the outbox of orders, over every interleaving ------------------------------------------------------

  lemma UnitKeepsRecorded(s: Services, t: Todo, ok: bool)
    requires OrderStore.Recorded(s.db)
    ensures OrderStore.Recorded(Try(s, t, ok).s.db) && Try(s, t, ok).s.db.outbox == s.db.outbox
  {
    match t {
      case MarkReleased(o) => OrderStore.MarksKeepRecorded(s.db, o);
      case MarkVoided(o) => OrderStore.MarksKeepRecorded(s.db, o);
      case _ =>
    }
  }

  lemma HandleKeepsRecorded(w: Compensation.World, id: nat, eventId: string, m: Move, todo: seq<Todo>)
    requires OrderStore.Recorded(w.s.db)
    ensures var x := Compensation.Handle(w, id, eventId, m, todo);
            OrderStore.Recorded(x.s.db) && w.s.db.outbox <= x.s.db.outbox
  {
    OrderStore.AppliedKeepsRecorded(w.s.db, id, eventId, m, w.now);
  }

  lemma HandlerKeepsRecorded(w: Compensation.World, a: Compensation.Act)
    requires OrderStore.Recorded(w.s.db)
    requires a.PaymentAuthorized? || a.PaymentFailed? || a.ReservationExpired? || a.CancelOrder?
    ensures var x := Compensation.Next(w, a); OrderStore.Recorded(x.s.db) && w.s.db.outbox <= x.s.db.outbox
  {
    match a {
      case PaymentAuthorized(k, e) =>
        if Compensation.IsAuthorizedEvent(w, k) {
          var id := w.s.pay.outbox[k].orderRef;
          HandleKeepsRecorded(w, id, e, Confirm, AfterAuthorized(OrderStore.ApplyReply(w.s.db, id, e, Confirm)));
        }
      case PaymentFailed(k, e, reason) =>
        if Compensation.IsFailedEvent(w, k) {
          var id, m := w.s.pay.outbox[k].orderRef, Cancel("PAYMENT_FAILED:" + reason);
          HandleKeepsRecorded(w, id, e, m, AfterFailed(OrderStore.ApplyReply(w.s.db, id, e, m), id));
        }
      case ReservationExpired(k, e) =>
        if k < |w.s.inv.expired| {
          var id, m := w.s.inv.expired[k].orderRef, CancelIfPending("RESERVATION_EXPIRED");
          HandleKeepsRecorded(w, id, e, m, AfterExpired(OrderStore.ApplyReply(w.s.db, id, e, m), id));
        }
      case CancelOrder(id) =>
        var m := Cancel("CANCELLED_BY_CUSTOMER");
        HandleKeepsRecorded(w, id, "", m, AfterCancelled(OrderStore.ApplyReply(w.s.db, id, "", m), id));
      case _ =>
    }
  }

  lemma InsertKeepsRecorded(w: Compensation.World, c: nat)
    requires OrderStore.Recorded(w.s.db) && (c < |w.placing| ==> Compensation.PlacingOk(w, w.placing[c]))
    ensures var x := Compensation.Next(w, Compensation.Insert(c)); OrderStore.Recorded(x.s.db) && w.s.db.outbox <= x.s.db.outbox
  {
    if c < |w.placing| && w.placing[c].Opened? {
      var p := w.placing[c];
      OrderStore.InsertKeepsRecorded(w.s.db, p.id, Compensation.OrderOf(p.draft, p.payment, p.reservation, w.now));
    }
  }

  lemma WorkKeepsRecorded(w: Compensation.World, t: nat, ok: bool)
    requires OrderStore.Recorded(w.s.db)
    ensures var x := Compensation.Next(w, Compensation.Act.Work(t, ok)); OrderStore.Recorded(x.s.db) && w.s.db.outbox <= x.s.db.outbox
  {
    if t < |w.threads| && w.threads[t] != [] {
      UnitKeepsRecorded(w.s, w.threads[t][0], ok);
    }
  }

  lemma DeliveryKeepsRecorded(w: Compensation.World, id: nat, shop: string, eventId: string)
    requires OrderStore.Recorded(w.s.db)
    ensures var x := Compensation.Next(w, Compensation.ShipmentDelivered(id, shop, eventId));
            OrderStore.Recorded(x.s.db) && w.s.db.outbox <= x.s.db.outbox
  {
    OrderStore.DeliveredKeepsRecorded(w.s.db, id, shop, eventId, w.now);
  }

  lemma QuietLeavesOrders(w: Compensation.World, a: Compensation.Act)
    requires a.Tick? || a.Begin? || a.Reserve? || a.Open? || a.Abandon? || a.SettlePayment? || a.Refund? || a.Adjust? || a.Seed?
             || a.Sweep? || a.ExpireDue? || a.Crash?
    ensures Compensation.Next(w, a).s.db == w.s.db
  {
  }

  lemma NextKeepsRecorded(w: Compensation.World, a: Compensation.Act)
    requires OrderStore.Recorded(w.s.db) && forall c :: 0 <= c < |w.placing| ==> Compensation.PlacingOk(w, w.placing[c])
    ensures var x := Compensation.Next(w, a); OrderStore.Recorded(x.s.db) && w.s.db.outbox <= x.s.db.outbox
  {
    if a.PaymentAuthorized? || a.PaymentFailed? || a.ReservationExpired? || a.CancelOrder? {
      HandlerKeepsRecorded(w, a);
    } else if a.Insert? {
      InsertKeepsRecorded(w, a.c);
    } else if a.Work? {
      WorkKeepsRecorded(w, a.thread, a.ok);
    } else if a.ShipmentDelivered? {
      DeliveryKeepsRecorded(w, a.id, a.shop, a.eventId);
    } else {
      QuietLeavesOrders(w, a);
    }
  }

  // ---- stock is sold for confirmed orders only ----------------------------------------------------------

  predicate WasConfirmed(db: OrderStore.Db, id: nat) {
    Confirmed in OrderStore.Announced(db.outbox, id)
  }

  lemma {:induction false} ConfirmedStays(a: seq<OrderStore.OrderEvent>, b: seq<OrderStore.OrderEvent>, id: nat)
    requires a <= b && Confirmed in OrderStore.Announced(a, id)
    ensures Confirmed in OrderStore.Announced(b, id)
    decreases |b|
  {
    if |a| < |b| {
      var n := |b| - 1;
      assert a <= b[..n];
      ConfirmedStays(a, b[..n], id);
    } else {
      assert a == b;
    }
  }

  /** A reservation that is to be committed is that of an order that was confirmed. */
  ghost predicate CommitOk(s: Services, t: Todo) {
    t.Commit? ==> t.reservation < |s.inv.reservations| && WasConfirmed(s.db, s.inv.reservations[t.reservation].orderRef)
  }

  ghost predicate PlanCommits(s: Services, todo: seq<Todo>) {
    forall k :: 0 <= k < |todo| ==> CommitOk(s, todo[k])
  }

  ghost predicate SoldOk(s: Services) {
    forall r :: 0 <= r < |s.inv.reservations| && s.inv.reservations[r].status == Inventory.Committed ==>
      WasConfirmed(s.db, s.inv.reservations[r].orderRef)
  }

  ghost predicate SoldForConfirmed(w: Compensation.World) {
    && OrderStore.Recorded(w.s.db) && SoldOk(w.s)
    && forall t :: 0 <= t < |w.threads| ==> PlanCommits(w.s, w.threads[t])
  }

  /** Reservations keep their orders, and none becomes COMMITTED but the one named. */
  ghost predicate SellsAtMost(s: Services, t: Services, sold: Option<nat>) {
    && |s.inv.reservations| <= |t.inv.reservations|
    && (forall r :: 0 <= r < |s.inv.reservations| ==>
          && t.inv.reservations[r].orderRef == s.inv.reservations[r].orderRef
          && (t.inv.reservations[r].status == Inventory.Committed ==> s.inv.reservations[r].status == Inventory.Committed || sold == Some(r)))
    && (forall r :: |s.inv.reservations| <= r < |t.inv.reservations| ==> t.inv.reservations[r].status != Inventory.Committed)
  }

  lemma PlanStays(s: Services, t: Services, todo: seq<Todo>)
    requires PlanCommits(s, todo) && s.db.outbox <= t.db.outbox
    requires |s.inv.reservations| <= |t.inv.reservations|
    requires forall r :: 0 <= r < |s.inv.reservations| ==> t.inv.reservations[r].orderRef == s.inv.reservations[r].orderRef
    ensures PlanCommits(t, todo)
  {
    forall k | 0 <= k < |todo| ensures CommitOk(t, todo[k]) {
      assert CommitOk(s, todo[k]);
      if todo[k].Commit? {
        ConfirmedStays(s.db.outbox, t.db.outbox, s.inv.reservations[todo[k].reservation].orderRef);
      }
    }
  }

  lemma SoldStays(s: Services, t: Services, sold: Option<nat>)
    requires SoldOk(s) && SellsAtMost(s, t, sold) && s.db.outbox <= t.db.outbox
    requires sold.Some? ==> sold.value < |s.inv.reservations| && WasConfirmed(s.db, s.inv.reservations[sold.value].orderRef)
    ensures SoldOk(t)
  {
    forall r | 0 <= r < |t.inv.reservations| && t.inv.reservations[r].status == Inventory.Committed
      ensures WasConfirmed(t.db, t.inv.reservations[r].orderRef)
    {
      assert r < |s.inv.reservations|;
      ConfirmedStays(s.db.outbox, t.db.outbox, s.inv.reservations[r].orderRef);
    }
  }

  /** A unit of work sells at most the reservation it commits, and leaves nothing to commit behind. */
  lemma UnitSells(s: Services, t: Todo, ok: bool)
    ensures SellsAtMost(s, Try(s, t, ok).s, if t.Commit? then Some(t.reservation) else None)
    ensures forall k :: 0 <= k < |Try(s, t, ok).next| ==> !Try(s, t, ok).next[k].Commit?
  {
  }

  lemma HandlersLeaveStock(w: Compensation.World, a: Compensation.Act)
    requires a.PaymentAuthorized? || a.PaymentFailed? || a.ReservationExpired? || a.CancelOrder?
    ensures Compensation.Next(w, a).s.inv == w.s.inv
  {
  }

  lemma OthersLeaveStock(w: Compensation.World, a: Compensation.Act)
    requires !(a.PaymentAuthorized? || a.PaymentFailed? || a.ReservationExpired? || a.CancelOrder?)
    requires !(a.Reserve? || a.Adjust? || a.Seed? || a.Work?)
    ensures Compensation.Next(w, a).s.inv == w.s.inv
  {
  }

  lemma StockStepSellsNothing(w: Compensation.World, a: Compensation.Act)
    requires a.Reserve? || a.Adjust? || a.Seed?
    ensures SellsAtMost(w.s, Compensation.Next(w, a).s, None)
  {
  }

  lemma StepSellsNothing(w: Compensation.World, a: Compensation.Act)
    requires !a.Work?
    ensures SellsAtMost(w.s, Compensation.Next(w, a).s, None)
  {
    if a.PaymentAuthorized? || a.PaymentFailed? || a.ReservationExpired? || a.CancelOrder? {
      HandlersLeaveStock(w, a);
    } else if a.Reserve? || a.Adjust? || a.Seed? {
      StockStepSellsNothing(w, a);
    } else {
      OthersLeaveStock(w, a);
    }
  }

  predicate SellsNothing(todo: seq<Todo>) {
    forall k :: 0 <= k < |todo| ==> !todo[k].Commit?
  }

  lemma {:induction false} SweepSellsNothing(pending: seq<OrderStore.Owed>)
    ensures SellsNothing(SweepTodo(pending))
  {
    if pending != [] {
      SweepSellsNothing(pending[..|pending| - 1]);
    }
  }

  /** An order that stands confirmed was announced as such. */
  lemma ConfirmedWasAnnounced(db: OrderStore.Db, id: nat)
    requires OrderStore.Recorded(db) && id in db.orders && db.orders[id].status == Confirmed
    ensures WasConfirmed(db, id)
  {
    assert OrderStore.LeadsTo(OrderStore.Announced(db.outbox, id), db.orders[id].status);
  }

  lemma CommitPlan(s: Services, o: Order, r: OrderStore.Reply, id: nat)
    requires r.Done? ==> r.order.reservationId == o.reservationId
    requires o.reservationId.Some? && Compensation.Booked(s, id, o.reservationId.value)
    requires r.Done? && r.order.status == Confirmed ==> WasConfirmed(s.db, id)
    ensures PlanCommits(s, AfterAuthorized(r))
  {
  }

  /** What a confirmed order's thread is to commit is that order's reservation. */
  lemma AuthorizedPlanOk(w: Compensation.World, k: nat, e: string)
    requires Compensation.Core(w) && OrderStore.Recorded(w.s.db) && Compensation.IsAuthorizedEvent(w, k)
    ensures var id := w.s.pay.outbox[k].orderRef;
            var r := OrderStore.ApplyReply(w.s.db, id, e, Confirm);
            PlanCommits(w.s.(db := OrderStore.Applied(w.s.db, id, e, Confirm, w.now)), AfterAuthorized(r))
  {
    var id := w.s.pay.outbox[k].orderRef;
    var r := OrderStore.ApplyReply(w.s.db, id, e, Confirm);
    var db := OrderStore.Applied(w.s.db, id, e, Confirm, w.now);
    if r.Done? {
      OrderStore.AppliedKeepsRecorded(w.s.db, id, e, Confirm, w.now);
      Compensation.ReplyIsStored(w.s.db, id, e, Confirm, w.now);
      if r.order.status == Confirmed {
        ConfirmedWasAnnounced(db, id);
      }
      assert Compensation.OrderOk(w, id);
      CommitPlan(w.s.(db := db), w.s.db.orders[id], r, id);
    }
  }

  /** The threads a step that is no unit of work leaves: those there were, and one with nothing to sell unless confirmed. */
  ghost predicate ThreadsFrom(w: Compensation.World, x: Compensation.World) {
    forall t :: 0 <= t < |x.threads| ==>
      (t < |w.threads| && x.threads[t] == w.threads[t]) || PlanCommits(x.s, x.threads[t])
  }

  lemma HandleThreads(w: Compensation.World, id: nat, eventId: string, m: Move, todo: seq<Todo>)
    requires PlanCommits(w.s.(db := OrderStore.Applied(w.s.db, id, eventId, m, w.now)), todo)
    ensures ThreadsFrom(w, Compensation.Handle(w, id, eventId, m, todo))
  {
  }

  lemma HandleSellsNothing(w: Compensation.World, id: nat, eventId: string, m: Move, todo: seq<Todo>)
    requires SellsNothing(todo)
    ensures ThreadsFrom(w, Compensation.Handle(w, id, eventId, m, todo))
  {
  }

  lemma CompensationsSellNothing(r: OrderStore.Reply, id: nat)
    ensures SellsNothing(AfterFailed(r, id)) && SellsNothing(AfterExpired(r, id)) && SellsNothing(AfterCancelled(r, id))
  {
  }

  lemma AuthorizedThreads(w: Compensation.World, k: nat, e: string)
    requires Compensation.Core(w) && OrderStore.Recorded(w.s.db)
    ensures ThreadsFrom(w, Compensation.Next(w, Compensation.PaymentAuthorized(k, e)))
  {
    if Compensation.IsAuthorizedEvent(w, k) {
      var id := w.s.pay.outbox[k].orderRef;
      AuthorizedPlanOk(w, k, e);
      HandleThreads(w, id, e, Confirm, AfterAuthorized(OrderStore.ApplyReply(w.s.db, id, e, Confirm)));
    }
  }

  lemma HandlerThreads(w: Compensation.World, a: Compensation.Act)
    requires Compensation.Core(w) && OrderStore.Recorded(w.s.db)
    requires a.PaymentAuthorized? || a.PaymentFailed? || a.ReservationExpired? || a.CancelOrder?
    ensures ThreadsFrom(w, Compensation.Next(w, a))
  {
    match a {
      case PaymentAuthorized(k, e) => AuthorizedThreads(w, k, e);
      case PaymentFailed(k, e, reason) =>
        if Compensation.IsFailedEvent(w, k) {
          var id, m := w.s.pay.outbox[k].orderRef, Cancel("PAYMENT_FAILED:" + reason);
          var r := OrderStore.ApplyReply(w.s.db, id, e, m);
          CompensationsSellNothing(r, id);
          HandleSellsNothing(w, id, e, m, AfterFailed(r, id));
        }
      case ReservationExpired(k, e) =>
        if k < |w.s.inv.expired| {
          var id, m := w.s.inv.expired[k].orderRef, CancelIfPending("RESERVATION_EXPIRED");
          var r := OrderStore.ApplyReply(w.s.db, id, e, m);
          CompensationsSellNothing(r, id);
          HandleSellsNothing(w, id, e, m, AfterExpired(r, id));
        }
      case CancelOrder(id) =>
        var m := Cancel("CANCELLED_BY_CUSTOMER");
        var r := OrderStore.ApplyReply(w.s.db, id, "", m);
        CompensationsSellNothing(r, id);
        HandleSellsNothing(w, id, "", m, AfterCancelled(r, id));
      case _ =>
    }
  }

  lemma OtherThreads(w: Compensation.World, a: Compensation.Act)
    requires !(a.PaymentAuthorized? || a.PaymentFailed? || a.ReservationExpired? || a.CancelOrder? || a.Work?)
    ensures ThreadsFrom(w, Compensation.Next(w, a))
  {
    if a.Sweep? {
      SweepSellsNothing(a.pending);
    }
  }

  lemma StepKeepsSold(w: Compensation.World, a: Compensation.Act)
    requires Compensation.Inv(w) && SoldForConfirmed(w) && !a.Work?
    ensures SoldForConfirmed(Compensation.Next(w, a))
  {
    var x := Compensation.Next(w, a);
    NextKeepsRecorded(w, a);
    StepSellsNothing(w, a);
    SoldStays(w.s, x.s, None);
    if a.PaymentAuthorized? || a.PaymentFailed? || a.ReservationExpired? || a.CancelOrder? {
      HandlerThreads(w, a);
    } else {
      OtherThreads(w, a);
    }
    ThreadsStaySold(w, x);
  }

  lemma ThreadsStaySold(w: Compensation.World, x: Compensation.World)
    requires ThreadsFrom(w, x) && SellsAtMost(w.s, x.s, None) && w.s.db.outbox <= x.s.db.outbox
    requires forall t :: 0 <= t < |w.threads| ==> PlanCommits(w.s, w.threads[t])
    ensures forall t :: 0 <= t < |x.threads| ==> PlanCommits(x.s, x.threads[t])
  {
    forall t | 0 <= t < |x.threads| ensures PlanCommits(x.s, x.threads[t]) {
      if t < |w.threads| && x.threads[t] == w.threads[t] {
        PlanStays(w.s, x.s, w.threads[t]);
      }
    }
  }

  lemma UnitKeepsSold(w: Compensation.World, t: nat, ok: bool)
    requires SoldForConfirmed(w) && t < |w.threads| && w.threads[t] != []
    ensures SoldForConfirmed(Compensation.Next(w, Compensation.Act.Work(t, ok)))
  {
    var x := Compensation.Next(w, Compensation.Act.Work(t, ok));
    var todo := w.threads[t];
    var unit := todo[0];
    assert PlanCommits(w.s, todo) && CommitOk(w.s, unit);
    UnitKeepsRecorded(w.s, unit, ok);
    UnitSells(w.s, unit, ok);
    SoldStays(w.s, x.s, if unit.Commit? then Some(unit.reservation) else None);
    forall k | 0 <= k < |x.threads| ensures PlanCommits(x.s, x.threads[k]) {
      PlanStays(w.s, x.s, w.threads[k]);
      if k == t {
        NextPlanCommits(x.s, Try(w.s, unit, ok).next, todo[1..], x.threads[k]);
      }
    }
  }

  lemma NextPlanCommits(s: Services, next: seq<Todo>, rest: seq<Todo>, todo: seq<Todo>)
    requires SellsNothing(next) && PlanCommits(s, rest) && (todo == [] || todo == rest || todo == next + rest)
    ensures PlanCommits(s, todo)
  {
  }

  lemma {:induction false} RunKeepsSold(w: Compensation.World, acts: seq<Compensation.Act>)
    requires Compensation.Inv(w) && SoldForConfirmed(w)
    ensures SoldForConfirmed(Compensation.Run(w, acts))
    decreases |acts|
  {
    if acts != [] {
      var a := acts[0];
      Compensation.NextKeeps(w, a);
      if a.Work? {
        if a.thread < |w.threads| && w.threads[a.thread] != [] {
          UnitKeepsSold(w, a.thread, a.ok);
        }
      } else {
        StepKeepsSold(w, a);
      }
      RunKeepsSold(Compensation.Next(w, a), acts[1..]);
    }
  }

  /**
   In every reachable state every order's statuses were announced one by one along the state machine up to the one it
   has, and a reservation is COMMITTED only if its order was confirmed.
   */
  lemma SoldOnlyIfConfirmed(acts: seq<Compensation.Act>, r: nat)
    ensures OrderStore.Recorded(Compensation.Run(Compensation.START, acts).s.db)
    ensures var s := Compensation.Run(Compensation.START, acts).s;
            r < |s.inv.reservations| && s.inv.reservations[r].status == Inventory.Committed ==>
              WasConfirmed(s.db, s.inv.reservations[r].orderRef)
  {
    Compensation.StartOk();
    RunKeepsSold(Compensation.START, acts);
  }

  // ---- on hand falls by what was sold, and by nothing else -----------------------------------------------

  /** Units of a product in COMMITTED reservations. */
  function Sold(inv: Inventory.Store, p: string): int {
    StockAccounting.StatusUnits(inv.reservations, Inventory.Committed, p)
  }

  /** What a step brings in from outside: a first seed, or an adjustment. */
  function Supplied(w: Compensation.World, a: Compensation.Act, p: string): int {
    match a
    case Seed(q, n) => if q == p && p !in w.s.inv.stock then n else 0
    case Adjust(q, delta) => if q == p then delta else 0
    case _ => 0
  }

  /** Nothing oversold, and on hand and sold together moved by that much. */
  ghost predicate Balances(s: Inventory.Store, t: Inventory.Store, p: string, supplied: int) {
    && StockAccounting.NoOversell(t)
    && StockAccounting.OnHand(t, p) + Sold(t, p) == StockAccounting.OnHand(s, p) + Sold(s, p) + supplied
  }

  lemma UnitBalances(s: Services, t: Todo, ok: bool, p: string)
    requires StockAccounting.Accounted(s.inv) && StockAccounting.NoOversell(s.inv)
    ensures Balances(s.inv, Try(s, t, ok).s.inv, p, 0)
  {
    match t {
      case Release(r, _) => StockAccounting.FinishConserves(s.inv, r, false, p);
      case Commit(r) => StockAccounting.FinishConserves(s.inv, r, true, p);
      case Expire(r) => StockAccounting.FinishConserves(s.inv, r, false, p);
      case _ =>
    }
  }

  lemma StockStepBalances(w: Compensation.World, a: Compensation.Act, p: string)
    requires StockAccounting.Accounted(w.s.inv) && StockAccounting.Announced(w.s.inv) && StockAccounting.NoOversell(w.s.inv)
    requires a.Reserve? || a.Adjust? || a.Seed?
    requires a.Adjust? ==> StockAccounting.AdjustSafe(w.s.inv, a.productId, a.delta)
    ensures Balances(w.s.inv, Compensation.Next(w, a).s.inv, p, Supplied(w, a, p))
  {
    var y := StockAccounting.System(w.s.inv, {});
    match a {
      case Reserve(c) =>
        if Compensation.Next(w, a) != w {
          var d := w.placing[c];
          StockAccounting.StepConserves(y, StockAccounting.Reserve(d.id, d.draft.items, w.now + RESERVATION_TTL), p);
        }
      case Adjust(q, delta) => StockAccounting.StepConserves(y, StockAccounting.Adjust(q, delta), p);
      case Seed(q, n) => StockAccounting.StepConserves(y, StockAccounting.Seed(q, n), p);
      case _ =>
    }
  }

  lemma StepBalances(w: Compensation.World, a: Compensation.Act, p: string)
    requires Compensation.Inv(w) && StockAccounting.NoOversell(w.s.inv)
    requires a.Adjust? ==> StockAccounting.AdjustSafe(w.s.inv, a.productId, a.delta)
    ensures Balances(w.s.inv, Compensation.Next(w, a).s.inv, p, Supplied(w, a, p))
  {
    if a.Reserve? || a.Adjust? || a.Seed? {
      StockStepBalances(w, a, p);
    } else if a.Work? {
      if a.thread < |w.threads| && w.threads[a.thread] != [] {
        UnitBalances(w.s, w.threads[a.thread][0], a.ok, p);
      }
    } else if a.PaymentAuthorized? || a.PaymentFailed? || a.ReservationExpired? || a.CancelOrder? {
      HandlersLeaveStock(w, a);
    } else {
      OthersLeaveStock(w, a);
    }
  }

  ghost function SuppliedOver(w: Compensation.World, acts: seq<Compensation.Act>, p: string): int
    decreases |acts|
  {
    if acts == [] then 0 else Supplied(w, acts[0], p) + SuppliedOver(Compensation.Next(w, acts[0]), acts[1..], p)
  }

  /** No adjustment takes away what is promised. */
  ghost predicate AdjustmentsSafe(w: Compensation.World, acts: seq<Compensation.Act>)
    decreases |acts|
  {
    acts != [] ==>
      && (acts[0].Adjust? ==> StockAccounting.AdjustSafe(w.s.inv, acts[0].productId, acts[0].delta))
      && AdjustmentsSafe(Compensation.Next(w, acts[0]), acts[1..])
  }

  lemma {:induction false} RunBalances(w: Compensation.World, acts: seq<Compensation.Act>, p: string)
    requires Compensation.Inv(w) && StockAccounting.NoOversell(w.s.inv) && AdjustmentsSafe(w, acts)
    ensures Balances(w.s.inv, Compensation.Run(w, acts).s.inv, p, SuppliedOver(w, acts, p))
    decreases |acts|
  {
    if acts != [] {
      Compensation.NextKeeps(w, acts[0]);
      StepBalances(w, acts[0], p);
      RunBalances(Compensation.Next(w, acts[0]), acts[1..], p);
    }
  }

  /**
   Over every interleaving whose adjustments leave what is promised, nothing is oversold, and what is on hand is what
   was supplied less what was sold, which by SoldOnlyIfConfirmed was for confirmed orders.
   */
  lemma OnHandIsUnsold(acts: seq<Compensation.Act>, p: string)
    requires AdjustmentsSafe(Compensation.START, acts)
    ensures var inv := Compensation.Run(Compensation.START, acts).s.inv;
            && StockAccounting.NoOversell(inv)
            && StockAccounting.OnHand(inv, p) == SuppliedOver(Compensation.START, acts, p) - Sold(inv, p)
  {
    Compensation.StartOk();
    RunBalances(Compensation.START, acts, p);
  }
}
