/**
 Orders from checkout to refund: the interleaved saga and the returns desk on the same orders and payments.

 Between any two steps of a checkout, a handler, a cancellation or a sweep, returns may be requested and decided. A
 decision is the only thing that asks for a refund. Its refund call may come later, or never: that is the decision
 taken without the call, then taken again.
 */
module Lifecycle {
  import opened Base
  import opened Orders
  import Compensation
  import Saga
  import OrderStore
  import Payment
  import Returns
  import RefundConservation

  datatype World = World(c: Compensation.World, rmas: seq<Returns.Return>)

  datatype Act = Checkout(act: Compensation.Act) | Returning(op: RefundConservation.Op)

  function DeskOf(w: World): Returns.Desk {
    Returns.Desk(w.c.s.db.orders, w.rmas, w.c.s.pay)
  }

  ghost function Next(w: World, act: Act): World {
    match act
    case Checkout(a) => if a.Refund? then w else w.(c := Compensation.Next(w.c, a))
    case Returning(op) =>
      var d := RefundConservation.Step(DeskOf(w), op);
      World(w.c.(s := w.c.s.(pay := d.ledger)), d.rmas)
  }

  ghost function Run(w: World, acts: seq<Act>): World
    decreases |acts|
  {
    if acts == [] then w else Run(Next(w, acts[0]), acts[1..])
  }

  const START := World(Compensation.START, [])

  // ---- the invariant ---------------------------------------------------------------------------

  /** Whatever was refunded was refunded on the payment of an order. */
  ghost predicate RefundsOwned(s: Saga.Services) {
    forall k :: 0 <= k < |s.pay.refunds| ==>
      s.pay.refunds[k].payment < |s.pay.intents| && s.pay.intents[s.pay.refunds[k].payment].orderRef in s.db.orders
  }

  ghost predicate Inv(w: World) {
    Compensation.Inv(w.c) && RefundConservation.Safe(DeskOf(w)) && RefundsOwned(w.c.s)
  }

  // ---- what a step of the saga leaves alone ------------------------------------------------------

  /** An order keeps its figures, and once fulfilled it stays so. */
  predicate KeepsFigures(o: Order, p: Order) {
    && p == o.(status := p.status, cancelReason := p.cancelReason, updatedAt := p.updatedAt, released := p.released, voided := p.voided)
    && (o.status == Fulfilled ==> p.status == Fulfilled)
  }

  ghost predicate OrdersKeepFigures(a: map<nat, Order>, b: map<nat, Order>) {
    forall id :: id in a ==> id in b && KeepsFigures(a[id], b[id])
  }

  lemma AppliedKeepsFigures(db: OrderStore.Db, id: nat, eventId: string, m: Move, now: int)
    ensures OrdersKeepFigures(db.orders, OrderStore.Applied(db, id, eventId, m, now).orders)
  {
    var r := OrderStore.ApplyReply(db, id, eventId, m);
    if r.Done? {
      MovedKeepsFinal(db.orders[id], m);
    }
  }

  lemma UnitKeepsFigures(s: Saga.Services, t: Saga.Todo, ok: bool)
    ensures var u := Saga.Try(s, t, ok);
            OrdersKeepFigures(s.db.orders, u.s.db.orders) && u.s.pay.refunds == s.pay.refunds
  {
  }

  /** What a step that leaves refunds alone keeps. */
  ghost predicate LeavesRefunds(s: Saga.Services, t: Saga.Services) {
    OrdersKeepFigures(s.db.orders, t.db.orders) && t.pay.refunds == s.pay.refunds
  }

  lemma HandledLeaves(w: Compensation.World, id: nat, eventId: string, m: Move, todo: seq<Saga.Todo>)
    ensures LeavesRefunds(w.s, Compensation.Handle(w, id, eventId, m, todo).s)
  {
    AppliedKeepsFigures(w.s.db, id, eventId, m, w.now);
  }

  lemma AuthorizedLeaves(w: Compensation.World, k: nat, eventId: string)
    ensures LeavesRefunds(w.s, Compensation.Next(w, Compensation.PaymentAuthorized(k, eventId)).s)
  {
    if Compensation.IsAuthorizedEvent(w, k) {
      var id := w.s.pay.outbox[k].orderRef;
      HandledLeaves(w, id, eventId, Confirm, Saga.AfterAuthorized(OrderStore.ApplyReply(w.s.db, id, eventId, Confirm)));
    }
  }

  lemma FailedLeaves(w: Compensation.World, k: nat, eventId: string, reason: string)
    ensures LeavesRefunds(w.s, Compensation.Next(w, Compensation.PaymentFailed(k, eventId, reason)).s)
  {
    if Compensation.IsFailedEvent(w, k) {
      var id := w.s.pay.outbox[k].orderRef;
      var m := Cancel("PAYMENT_FAILED:" + reason);
      HandledLeaves(w, id, eventId, m, Saga.AfterFailed(OrderStore.ApplyReply(w.s.db, id, eventId, m), id));
    }
  }

  lemma ExpiredLeaves(w: Compensation.World, k: nat, eventId: string)
    ensures LeavesRefunds(w.s, Compensation.Next(w, Compensation.ReservationExpired(k, eventId)).s)
  {
    if k < |w.s.inv.expired| {
      var id := w.s.inv.expired[k].orderRef;
      var m := CancelIfPending("RESERVATION_EXPIRED");
      HandledLeaves(w, id, eventId, m, Saga.AfterExpired(OrderStore.ApplyReply(w.s.db, id, eventId, m), id));
    }
  }

  lemma HandlerLeaves(w: Compensation.World, a: Compensation.Act)
    requires a.PaymentAuthorized? || a.PaymentFailed? || a.ReservationExpired? || a.CancelOrder?
    ensures LeavesRefunds(w.s, Compensation.Next(w, a).s)
  {
    match a {
      case PaymentAuthorized(k, eventId) => AuthorizedLeaves(w, k, eventId);
      case PaymentFailed(k, eventId, reason) => FailedLeaves(w, k, eventId, reason);
      case ReservationExpired(k, eventId) => ExpiredLeaves(w, k, eventId);
      case CancelOrder(id) =>
        var m := Cancel("CANCELLED_BY_CUSTOMER");
        HandledLeaves(w, id, "", m, Saga.AfterCancelled(OrderStore.ApplyReply(w.s.db, id, "", m), id));
      case _ =>
    }
  }

  lemma InsertLeaves(w: Compensation.World, c: nat)
    requires c < |w.placing| ==> Compensation.PlacingOk(w, w.placing[c])
    ensures LeavesRefunds(w.s, Compensation.Next(w, Compensation.Insert(c)).s)
  {
  }

  lemma WorkLeaves(w: Compensation.World, t: nat, ok: bool)
    ensures LeavesRefunds(w.s, Compensation.Next(w, Compensation.Act.Work(t, ok)).s)
  {
    if t < |w.threads| && w.threads[t] != [] {
      UnitKeepsFigures(w.s, w.threads[t][0], ok);
    }
  }

  lemma QuietLeaves(w: Compensation.World, a: Compensation.Act)
    requires a.Tick? || a.Begin? || a.Reserve? || a.Open? || a.Abandon? || a.SettlePayment? || a.Adjust? || a.Seed?
             || a.Sweep? || a.ExpireDue? || a.Crash?
    ensures Compensation.Next(w, a).s.db == w.s.db && Compensation.Next(w, a).s.pay.refunds == w.s.pay.refunds
  {
  }

  lemma DeliveryLeaves(w: Compensation.World, id: nat, shop: string, eventId: string)
    ensures LeavesRefunds(w.s, Compensation.Next(w, Compensation.ShipmentDelivered(id, shop, eventId)).s)
  {
  }

  lemma SagaStepLeaves(w: Compensation.World, a: Compensation.Act)
    requires !a.Refund? && forall c :: 0 <= c < |w.placing| ==> Compensation.PlacingOk(w, w.placing[c])
    ensures LeavesRefunds(w.s, Compensation.Next(w, a).s)
  {
    if a.PaymentAuthorized? || a.PaymentFailed? || a.ReservationExpired? || a.CancelOrder? {
      HandlerLeaves(w, a);
    } else if a.Insert? {
      InsertLeaves(w, a.c);
    } else if a.Work? {
      WorkLeaves(w, a.thread, a.ok);
    } else if a.ShipmentDelivered? {
      DeliveryLeaves(w, a.id, a.shop, a.eventId);
    } else {
      QuietLeaves(w, a);
    }
  }

  // ---- returns are not disturbed by the saga -------------------------------------------------------

  lemma {:induction false} NothingReturnedYet(rs: seq<Returns.Return>, id: nat, productId: string)
    requires forall i :: 0 <= i < |rs| ==> rs[i].orderId != id
    ensures Returns.ReturnedQty(rs, id, productId) == 0
  {
    if rs != [] {
      NothingReturnedYet(rs[1..], id, productId);
    }
  }

  lemma {:induction false} NothingPaidYet(rs: seq<Returns.Return>, l: Payment.Ledger, id: nat, p: nat, n: nat)
    requires n <= |rs| && forall i :: 0 <= i < |rs| ==> rs[i].orderId != id
    ensures RefundConservation.PaidSum(rs, l, id, p, n) == 0
  {
    if n > 0 {
      NothingPaidYet(rs, l, id, p, n - 1);
    }
  }

  /** An order that was just written has no returns, and nothing was refunded on its payment. */
  lemma NewOrderIsSafe(d: Returns.Desk, e: Returns.Desk, id: nat)
    requires RefundConservation.ReturnsOk(d) && e.rmas == d.rmas && id in e.orders && id !in d.orders
    requires RefundConservation.OrderOk(e, id)
    requires forall k :: 0 <= k < |e.ledger.refunds| ==> e.orders[id].paymentId != Some(e.ledger.refunds[k].payment)
    ensures RefundConservation.QtyOk(e, id) && RefundConservation.RowsOk(e, id) && RefundConservation.PaidOk(e, id)
  {
    assert forall i :: 0 <= i < |d.rmas| ==> d.rmas[i].orderId != id;
    forall l | l in e.orders[id].lines ensures Returns.ReturnedQty(e.rmas, id, l.productId) <= l.quantity {
      NothingReturnedYet(e.rmas, id, l.productId);
    }
    if e.orders[id].paymentId.Some? {
      RefundConservation.UntouchedPayment(e.ledger.refunds, e.orders[id].paymentId.value);
      NothingPaidYet(e.rmas, e.ledger, id, e.orders[id].paymentId.value, |e.rmas|);
    }
  }

  lemma {:induction false} PaidSumSameRows(rs: seq<Returns.Return>, l: Payment.Ledger, m: Payment.Ledger, id: nat, p: nat, n: nat)
    requires n <= |rs| && m.refunds == l.refunds
    ensures RefundConservation.PaidSum(rs, m, id, p, n) == RefundConservation.PaidSum(rs, l, id, p, n)
  {
    if n > 0 {
      PaidSumSameRows(rs, l, m, id, p, n - 1);
    }
  }

  lemma OldOrderStaysSafe(d: Returns.Desk, e: Returns.Desk, id: nat)
    requires RefundConservation.Safe(d) && e.rmas == d.rmas && e.ledger.refunds == d.ledger.refunds
    requires id in d.orders && id in e.orders && KeepsFigures(d.orders[id], e.orders[id])
    ensures RefundConservation.QtyOk(e, id) && RefundConservation.RowsOk(e, id) && RefundConservation.PaidOk(e, id)
  {
    assert RefundConservation.QtyOk(d, id) && RefundConservation.RowsOk(d, id) && RefundConservation.PaidOk(d, id);
    if e.orders[id].paymentId.Some? {
      var p := e.orders[id].paymentId.value;
      PaidSumSameRows(e.rmas, d.ledger, e.ledger, id, p, |e.rmas|);
      forall k | 0 <= k < |e.ledger.refunds| && e.ledger.refunds[k].payment == p
        ensures RefundConservation.RowExplained(e, id, e.ledger.refunds[k])
      {
        assert RefundConservation.RowExplained(d, id, d.ledger.refunds[k]);
      }
    }
  }

  lemma ReturnsStayOk(d: Returns.Desk, e: Returns.Desk)
    requires RefundConservation.ReturnsOk(d) && e.rmas == d.rmas && OrdersKeepFigures(d.orders, e.orders)
    ensures RefundConservation.ReturnsOk(e)
  {
    forall i | 0 <= i < |e.rmas|
      ensures e.rmas[i].orderId in e.orders && e.orders[e.rmas[i].orderId].status == Fulfilled
              && RefundConservation.ReturnOk(e.orders[e.rmas[i].orderId], e.rmas[i])
    {
      var id := d.rmas[i].orderId;
      assert KeepsFigures(d.orders[id], e.orders[id]);
    }
  }

  /** A desk stays safe when the orders under it move on, or new ones appear on payments never refunded. */
  lemma SafeUnderway(d: Returns.Desk, e: Returns.Desk)
    requires RefundConservation.Safe(d) && e.rmas == d.rmas && e.ledger.refunds == d.ledger.refunds
    requires Payment.Consistent(e.ledger) && OrdersKeepFigures(d.orders, e.orders)
    requires forall id :: id in e.orders ==> RefundConservation.OrderOk(e, id)
    requires forall id, k :: id in e.orders && id !in d.orders && 0 <= k < |e.ledger.refunds| ==>
               e.orders[id].paymentId != Some(e.ledger.refunds[k].payment)
    ensures RefundConservation.Safe(e)
  {
    ReturnsStayOk(d, e);
    forall id | id in e.orders
      ensures RefundConservation.QtyOk(e, id) && RefundConservation.RowsOk(e, id) && RefundConservation.PaidOk(e, id)
    {
      if id in d.orders {
        OldOrderStaysSafe(d, e, id);
      } else {
        NewOrderIsSafe(d, e, id);
      }
    }
  }

  lemma OrdersFitForReturns(c: Compensation.World, rmas: seq<Returns.Return>)
    requires Compensation.Inv(c)
    ensures forall id :: id in c.s.db.orders ==> RefundConservation.OrderOk(Returns.Desk(c.s.db.orders, rmas, c.s.pay), id)
  {
    forall id | id in c.s.db.orders ensures RefundConservation.OrderOk(Returns.Desk(c.s.db.orders, rmas, c.s.pay), id) {
      assert Compensation.OrderOk(c, id);
    }
  }

  /** A payment is one order's, so what was refunded before an order was written was refunded on another's. */
  lemma NewOrdersUnrefunded(w: Compensation.World, x: Compensation.World)
    requires RefundsOwned(w.s) && Compensation.Inv(x) && Compensation.Later(w, x) && x.s.pay.refunds == w.s.pay.refunds
    ensures RefundsOwned(x.s)
    ensures forall id, k :: id in x.s.db.orders && id !in w.s.db.orders && 0 <= k < |x.s.pay.refunds| ==>
              x.s.db.orders[id].paymentId != Some(x.s.pay.refunds[k].payment)
  {
    forall id, k | id in x.s.db.orders && id !in w.s.db.orders && 0 <= k < |x.s.pay.refunds|
      ensures x.s.db.orders[id].paymentId != Some(x.s.pay.refunds[k].payment)
    {
      assert Compensation.OrderOk(x, id);
      assert w.s.pay.intents[w.s.pay.refunds[k].payment].orderRef in w.s.db.orders;
    }
  }

  lemma CheckoutKeeps(w: World, a: Compensation.Act)
    requires Inv(w) && !a.Refund?
    ensures Inv(Next(w, Checkout(a)))
  {
    var x := Next(w, Checkout(a));
    Compensation.NextKeeps(w.c, a);
    SagaStepLeaves(w.c, a);
    NewOrdersUnrefunded(w.c, x.c);
    OrdersFitForReturns(x.c, x.rmas);
    SafeUnderway(DeskOf(w), DeskOf(x));
  }

  // ---- the saga is not disturbed by returns ----------------------------------------------------------

  /** A decision's refund is one on the payment of the order returned from; nothing else moves money. */
  ghost predicate RefundOf(d: Returns.Desk, l: Payment.Ledger, id: nat, cents: int, key: string) {
    && id in d.orders && d.orders[id].paymentId.Some?
    && l == Payment.RefundApplied(d.ledger, d.orders[id].paymentId.value, cents, key)
  }

  lemma DeskStepRefunds(d: Returns.Desk, op: RefundConservation.Op)
    ensures var e := RefundConservation.Step(d, op);
            e.orders == d.orders && (e.ledger == d.ledger || exists id, cents, key :: RefundOf(d, e.ledger, id, cents, key))
  {
    match op {
      case Decide(returnId, approve, up) =>
        var a := Returns.AfterDecision(d, returnId, approve);
        if up && returnId < |a.rmas| && Returns.AsksRefund(a, returnId) && Returns.Decided(d.rmas[returnId], approve).Some? {
          var r := a.rmas[returnId];
          assert RefundOf(d, RefundConservation.Step(d, op).ledger, r.orderId, r.refundTotal, Returns.Key(returnId));
        }
      case _ =>
    }
  }

  lemma RefundKeepsInv(w: Compensation.World, payment: nat, cents: int, key: string)
    requires Compensation.Inv(w)
    ensures Compensation.Inv(w.(s := w.s.(pay := Payment.RefundApplied(w.s.pay, payment, cents, key))))
  {
    Compensation.RefundKeeps(w, payment, cents, key);
    Compensation.QuietKeeps(w, Compensation.With(w, w.s.(pay := Payment.RefundApplied(w.s.pay, payment, cents, key))));
  }

  lemma RefundKeepsOwned(s: Saga.Services, payment: nat, cents: int, key: string)
    requires RefundsOwned(s) && payment < |s.pay.intents| && s.pay.intents[payment].orderRef in s.db.orders
    ensures RefundsOwned(s.(pay := Payment.RefundApplied(s.pay, payment, cents, key)))
  {
  }

  lemma OrderIsBilled(w: Compensation.World, id: nat)
    requires Compensation.Inv(w) && id in w.s.db.orders && w.s.db.orders[id].paymentId.Some?
    ensures var p := w.s.db.orders[id].paymentId.value; p < |w.s.pay.intents| && w.s.pay.intents[p].orderRef == id
  {
    assert Compensation.OrderOk(w, id);
  }

  lemma ReturningKeeps(w: World, op: RefundConservation.Op)
    requires Inv(w)
    ensures Inv(Next(w, Returning(op)))
  {
    var d := DeskOf(w);
    var e := RefundConservation.Step(d, op);
    RefundConservation.StepKeepsSafe(d, op);
    DeskStepRefunds(d, op);
    if e.ledger != d.ledger {
      var id, cents, key :| RefundOf(d, e.ledger, id, cents, key);
      RefundKeepsInv(w.c, d.orders[id].paymentId.value, cents, key);
      OrderIsBilled(w.c, id);
      RefundKeepsOwned(w.c.s, d.orders[id].paymentId.value, cents, key);
    } else {
      assert w.c.(s := w.c.s.(pay := e.ledger)) == w.c;
    }
    assert DeskOf(Next(w, Returning(op))) == e;
  }

  /** Whatever the saga has done on its own, its orders and payments are fit for returns, unless one was refunded. */
  lemma ReturnsMayBegin(acts: seq<Compensation.Act>)
    requires var s := Compensation.Run(Compensation.START, acts).s;
             RefundConservation.Unrefunded(Returns.Desk(s.db.orders, [], s.pay))
    ensures var s := Compensation.Run(Compensation.START, acts).s;
            RefundConservation.Safe(Returns.Desk(s.db.orders, [], s.pay))
  {
    var c := Compensation.Run(Compensation.START, acts);
    Compensation.StartOk();
    Compensation.RunKeeps(Compensation.START, acts);
    OrdersFitForReturns(c, []);
    RefundConservation.FreshDeskIsSafe(Returns.Desk(c.s.db.orders, [], c.s.pay));
  }

  // ---- every run ---------------------------------------------------------------------------------------

  lemma NextKeeps(w: World, act: Act)
    requires Inv(w)
    ensures Inv(Next(w, act))
  {
    match act {
      case Checkout(a) =>
        if !a.Refund? {
          CheckoutKeeps(w, a);
        }
      case Returning(op) => ReturningKeeps(w, op);
    }
  }

  /** Under every interleaving of checkouts, handlers, cancellations, sweeps, returns and decisions both invariants hold. */
  lemma {:induction false} RunKeeps(w: World, acts: seq<Act>)
    requires Inv(w)
    ensures Inv(Run(w, acts))
    decreases |acts|
  {
    if acts != [] {
      NextKeeps(w, acts[0]);
      RunKeeps(Next(w, acts[0]), acts[1..]);
    }
  }

  lemma StartOk()
    ensures Inv(START)
  {
    Compensation.StartOk();
    RefundConservation.FreshDeskIsSafe(DeskOf(START));
  }

  // ---- the saga's own theorems hold here too --------------------------------------------------------

  ghost predicate Reaches(a: Compensation.World, b: Compensation.World) {
    exists cs :: Compensation.Run(a, cs) == b
  }

  lemma StepThenRun(a: Compensation.World, act: Compensation.Act, b: Compensation.World)
    requires Reaches(Compensation.Next(a, act), b)
    ensures Reaches(a, b)
  {
    var cs :| Compensation.Run(Compensation.Next(a, act), cs) == b;
    assert ([act] + cs)[1..] == cs;
    assert Compensation.Run(a, [act] + cs) == b;
  }

  /** To the saga, a step of the desk is a refund, or nothing. */
  lemma StepIsSagaStep(w: World, act: Act, b: Compensation.World)
    requires Reaches(Next(w, act).c, b)
    ensures Reaches(w.c, b)
  {
    match act {
      case Checkout(a) =>
        if !a.Refund? {
          StepThenRun(w.c, a, b);
        }
      case Returning(op) =>
        var d := DeskOf(w);
        var e := RefundConservation.Step(d, op);
        DeskStepRefunds(d, op);
        if e.ledger != d.ledger {
          var id, cents, key :| RefundOf(d, e.ledger, id, cents, key);
          StepThenRun(w.c, Compensation.Refund(d.orders[id].paymentId.value, cents, key), b);
        } else {
          assert w.c.(s := w.c.s.(pay := e.ledger)) == w.c;
        }
    }
  }

  /** What the saga does here it could do alone, so everything CompensationLedger says of its runs holds of these. */
  lemma {:induction false} IsSagaRun(w: World, acts: seq<Act>)
    ensures Reaches(w.c, Run(w, acts).c)
    decreases |acts|
  {
    if acts == [] {
      assert Compensation.Run(w.c, []) == w.c;
    } else {
      IsSagaRun(Next(w, acts[0]), acts[1..]);
      StepIsSagaStep(w, acts[0], Run(w, acts).c);
    }
  }

  // ---- the books of an order --------------------------------------------------------------------------

  /** Only a fulfilled order has had anything refunded. */
  lemma RefundedOnlyIfFulfilled(d: Returns.Desk, id: nat)
    requires RefundConservation.Safe(d) && id in d.orders && d.orders[id].paymentId.Some?
    requires d.orders[id].status != Fulfilled || d.orders[id].subtotal <= 0
    ensures Payment.RowSum(d.ledger.refunds, d.orders[id].paymentId.value) == 0
  {
    assert RefundConservation.PaidOk(d, id);
    forall i | 0 <= i < |d.rmas| ensures d.rmas[i].orderId != id {
      assert RefundConservation.ReturnOk(d.orders[d.rmas[i].orderId], d.rmas[i]);
    }
    NothingPaidYet(d.rmas, d.ledger, id, d.orders[id].paymentId.value, |d.rmas|);
  }

  /** What an order's books say: what was charged, what was given back, and what came back. */
  ghost predicate Squared(w: World, id: nat)
    requires id in w.c.s.db.orders
  {
    var o := w.c.s.db.orders[id];
    && o.paymentId.Some? && o.paymentId.value < |w.c.s.pay.intents|
    && var i := w.c.s.pay.intents[o.paymentId.value];
       && i.orderRef == id && i.amount == o.total
       && 0 <= i.refunded <= o.total
       && i.refunded == Payment.RowSum(w.c.s.pay.refunds, o.paymentId.value)
       && (i.refunded > 0 ==> o.status == Fulfilled)
       && (o.status in {Confirmed, Fulfilled} ==> i.status in {Payment.Authorized, Payment.Status.Refunded})
       && (i.status == Payment.Voided ==> o.status == Cancelled && i.refunded == 0)
       && (forall l :: l in o.lines ==> Returns.ReturnedQty(w.rmas, id, l.productId) <= l.quantity)
  }

  lemma InvSquares(w: World, id: nat)
    requires Inv(w) && id in w.c.s.db.orders
    ensures Squared(w, id)
  {
    var d := DeskOf(w);
    var o := w.c.s.db.orders[id];
    assert Compensation.OrderOk(w.c, id);
    assert RefundConservation.QtyOk(d, id);
    var i := w.c.s.pay.intents[o.paymentId.value];
    assert Payment.IntentOk(w.c.s.pay, o.paymentId.value);
    if o.status != Fulfilled || o.subtotal <= 0 {
      RefundedOnlyIfFulfilled(d, id);
    } else {
      RefundConservation.RefundedWithinTotal(d, id);
    }
  }

  /**
   Every order's books square in every reachable state, whatever was interleaved: its payment is of exactly its
   total; no more than that is ever refunded, and nothing unless it was fulfilled; a voided payment was never
   refunded and its order is cancelled; and no more units came back than were ordered.
   */
  lemma BooksSquare(acts: seq<Act>, id: nat)
    requires id in Run(START, acts).c.s.db.orders
    ensures Squared(Run(START, acts), id)
  {
    StartOk();
    RunKeeps(START, acts);
    InvSquares(Run(START, acts), id);
  }

  // ---- what was paid back stays paid back ----------------------------------------------------------------

  /** What no step takes back: an order's payment, a refund, a return's order and amount, and an approval. */
  ghost predicate Onwards(w: World, x: World) {
    && OrdersKeepFigures(w.c.s.db.orders, x.c.s.db.orders)
    && w.c.s.pay.refunds <= x.c.s.pay.refunds
    && |w.rmas| <= |x.rmas|
    && forall i :: 0 <= i < |w.rmas| ==>
         x.rmas[i] == w.rmas[i].(status := x.rmas[i].status) && (w.rmas[i].status == Returns.Approved ==> x.rmas[i].status == Returns.Approved)
  }

  lemma DeskGoesOnwards(d: Returns.Desk, op: RefundConservation.Op)
    ensures var e := RefundConservation.Step(d, op);
            && e.orders == d.orders && d.ledger.refunds <= e.ledger.refunds && |d.rmas| <= |e.rmas|
            && forall i :: 0 <= i < |d.rmas| ==>
                 e.rmas[i] == d.rmas[i].(status := e.rmas[i].status)
                 && (d.rmas[i].status == Returns.Approved ==> e.rmas[i].status == Returns.Approved)
  {
  }

  lemma OrdersThemselves(orders: map<nat, Order>)
    ensures OrdersKeepFigures(orders, orders)
  {
  }

  lemma NextGoesOnwards(w: World, act: Act)
    requires Inv(w)
    ensures Onwards(w, Next(w, act))
  {
    OrdersThemselves(w.c.s.db.orders);
    match act {
      case Checkout(a) =>
        if !a.Refund? {
          SagaStepLeaves(w.c, a);
        }
      case Returning(op) => DeskGoesOnwards(DeskOf(w), op);
    }
  }

  lemma OnwardsAgain(w: World, x: World, y: World)
    requires Onwards(w, x) && Onwards(x, y)
    ensures Onwards(w, y)
  {
    forall id | id in w.c.s.db.orders ensures id in y.c.s.db.orders && KeepsFigures(w.c.s.db.orders[id], y.c.s.db.orders[id]) {
      assert KeepsFigures(w.c.s.db.orders[id], x.c.s.db.orders[id]) && KeepsFigures(x.c.s.db.orders[id], y.c.s.db.orders[id]);
    }
    forall i | 0 <= i < |w.rmas|
      ensures y.rmas[i] == w.rmas[i].(status := y.rmas[i].status)
              && (w.rmas[i].status == Returns.Approved ==> y.rmas[i].status == Returns.Approved)
    {
      assert x.rmas[i] == w.rmas[i].(status := x.rmas[i].status);
    }
  }

  lemma {:induction false} RunGoesOnwards(w: World, acts: seq<Act>)
    requires Inv(w)
    ensures Onwards(w, Run(w, acts))
    decreases |acts|
  {
    if acts == [] {
      OrdersThemselves(w.c.s.db.orders);
    } else {
      NextKeeps(w, acts[0]);
      NextGoesOnwards(w, acts[0]);
      RunGoesOnwards(Next(w, acts[0]), acts[1..]);
      OnwardsAgain(w, Next(w, acts[0]), Run(w, acts));
    }
  }

  lemma {:induction false} RunAppend(w: World, a: seq<Act>, b: seq<Act>)
    ensures Run(w, a + b) == Run(Run(w, a), b)
    decreases |a|
  {
    if a == [] {
      assert a + b == b;
    } else {
      assert (a + b)[1..] == a[1..] + b;
      RunAppend(Next(w, a[0]), a[1..], b);
    }
  }

  /** Whether the return's own refund was made, exactly once. */
  ghost predicate PaidBack(w: World, returnId: nat) {
    && returnId < |w.rmas| && w.rmas[returnId].status == Returns.Approved && w.rmas[returnId].orderId in w.c.s.db.orders
    && var payment := w.c.s.db.orders[w.rmas[returnId].orderId].paymentId;
       && payment.Some?
       && (w.rmas[returnId].refundTotal > 0 ==>
             RefundConservation.PaidBackOnce(w.c.s.pay, payment.value, w.rmas[returnId].refundTotal, Returns.Key(returnId)))
  }

  lemma OnceIsOnce(l: Payment.Ledger, m: Payment.Ledger, payment: nat, cents: int, key: string)
    requires RefundConservation.PaidBackOnce(l, payment, cents, key) && l.refunds <= m.refunds
    requires Payment.KeysOnce(m) && key != ""
    ensures RefundConservation.PaidBackOnce(m, payment, cents, key)
  {
    var k :| 0 <= k < |l.refunds| && l.refunds[k] == Payment.RefundRow(payment, cents, key);
    assert m.refunds[k] == l.refunds[k];
  }

  lemma ApprovalIsPaidBack(w: World, returnId: nat, paymentUp: bool)
    requires Inv(w) && Returns.DecisionReply(DeskOf(w), returnId, true, paymentUp) == Ok(())
    ensures PaidBack(Next(w, Returning(RefundConservation.Decide(returnId, true, paymentUp))), returnId)
  {
    RefundConservation.ApprovalPaysBack(DeskOf(w), returnId, paymentUp);
    assert Compensation.OrderOk(w.c, w.rmas[returnId].orderId);
  }

  lemma PaidBackStays(w: World, x: World, returnId: nat)
    requires PaidBack(w, returnId) && Onwards(w, x) && Inv(x)
    ensures PaidBack(x, returnId)
  {
    var id := w.rmas[returnId].orderId;
    assert x.rmas[returnId] == w.rmas[returnId].(status := x.rmas[returnId].status);
    assert KeepsFigures(w.c.s.db.orders[id], x.c.s.db.orders[id]);
    Returns.KeyNonEmpty(returnId);
    if w.rmas[returnId].refundTotal > 0 {
      OnceIsOnce(w.c.s.pay, x.c.s.pay, w.c.s.db.orders[id].paymentId.value, w.rmas[returnId].refundTotal, Returns.Key(returnId));
    }
  }

  /**
   Once an approval was answered without an error, in whatever state and after whatever else, the return's refund has
   been made, and it is there exactly once ever after.
   */
  lemma ApprovedIsPaidBack(before: seq<Act>, returnId: nat, paymentUp: bool, after: seq<Act>)
    requires Returns.DecisionReply(DeskOf(Run(START, before)), returnId, true, paymentUp) == Ok(())
    ensures PaidBack(Run(START, before + [Returning(RefundConservation.Decide(returnId, true, paymentUp))] + after), returnId)
  {
    StartOk();
    RunKeeps(START, before);
    PaidBackFromThen(Run(START, before), returnId, paymentUp, after);
    RunAround(START, before, Returning(RefundConservation.Decide(returnId, true, paymentUp)), after);
  }

  lemma PaidBackFromThen(w: World, returnId: nat, paymentUp: bool, after: seq<Act>)
    requires Inv(w) && Returns.DecisionReply(DeskOf(w), returnId, true, paymentUp) == Ok(())
    ensures PaidBack(Run(Next(w, Returning(RefundConservation.Decide(returnId, true, paymentUp))), after), returnId)
  {
    var decide := Returning(RefundConservation.Decide(returnId, true, paymentUp));
    NextKeeps(w, decide);
    ApprovalIsPaidBack(w, returnId, paymentUp);
    RunGoesOnwards(Next(w, decide), after);
    RunKeeps(Next(w, decide), after);
    PaidBackStays(Next(w, decide), Run(Next(w, decide), after), returnId);
  }

  lemma RunAround(w: World, before: seq<Act>, act: Act, after: seq<Act>)
    ensures Run(w, before + [act] + after) == Run(Next(Run(w, before), act), after)
  {
    RunAppend(w, before + [act], after);
    RunAppend(w, before, [act]);
    assert [act][1..] == [];
  }

  /** A return can be approved, and its refund goes through, at any later time and whatever happened in between. */
  lemma ApprovalGoesThrough(acts: seq<Act>, returnId: nat)
    requires returnId < |Run(START, acts).rmas| && Run(START, acts).rmas[returnId].status != Returns.Rejected
    ensures Returns.DecisionReply(DeskOf(Run(START, acts)), returnId, true, true) == Ok(())
  {
    StartOk();
    RunKeeps(START, acts);
    RefundConservation.DecisionFailsOnlyUnreached(DeskOf(Run(START, acts)), returnId, true, true);
  }
}
