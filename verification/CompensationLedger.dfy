/** What the interleaved saga guarantees: no compensation is forgotten, and what a sweep gets done. */
module CompensationLedger {
  import opened Base
  import opened Orders
  import opened Saga
  import Compensation
  import Inventory
  import StockAccounting
  import Payment
  import OrderStore

  predicate Open(st: Payment.Status) {
    st == Payment.RequiresConfirmation || st == Payment.Authorized
  }

  /**
   In every reachable state the marks are true: a cancelled order whose reservation is still HELD is not marked
   released, one whose payment is not VOIDED is not marked voided, so what is owed meets the reconciler's filter
   once the order has settled, and the query names it.
   */
  lemma NeverForgotten(acts: seq<Compensation.Act>, id: nat, cutoff: int)
    requires id in Compensation.Run(Compensation.START, acts).s.db.orders
    requires Compensation.Run(Compensation.START, acts).s.db.orders[id].status == Cancelled
    ensures var s := Compensation.Run(Compensation.START, acts).s;
            var o := s.db.orders[id];
            && o.reservationId.Some? && o.paymentId.Some? && o.paymentId.value < |s.pay.intents|
            && (Inventory.IsHeld(s.inv, o.reservationId.value) ==> OrderStore.OwedBy(id, o).reservation == o.reservationId)
            && (s.pay.intents[o.paymentId.value].status != Payment.Voided ==> OrderStore.OwedBy(id, o).payment == o.paymentId)
            && (o.updatedAt < cutoff && (Inventory.IsHeld(s.inv, o.reservationId.value) || Open(s.pay.intents[o.paymentId.value].status)) ==>
                  OrderStore.Pending(s.db, id, cutoff))
  {
    Compensation.StartOk();
    Compensation.RunKeeps(Compensation.START, acts);
    assert Compensation.OrderOk(Compensation.Run(Compensation.START, acts), id);
  }

  /** A cancelled order settles: its updated_at never moves again, whatever else happens. */
  lemma CancelledSettles(before: seq<Compensation.Act>, after: seq<Compensation.Act>, id: nat)
    requires id in Compensation.Run(Compensation.START, before).s.db.orders
    requires Compensation.Run(Compensation.START, before).s.db.orders[id].status == Cancelled
    ensures var mid := Compensation.Run(Compensation.START, before);
            var end := Compensation.Run(mid, after);
            && id in end.s.db.orders && end.s.db.orders[id].status == Cancelled
            && end.s.db.orders[id].updatedAt == mid.s.db.orders[id].updatedAt <= mid.now <= end.now
  {
    var mid := Compensation.Run(Compensation.START, before);
    Compensation.StartOk();
    Compensation.RunKeeps(Compensation.START, before);
    assert Compensation.OrderOk(mid, id);
    Compensation.RunKeeps(mid, after);
  }

  lemma ConfirmedPaysTotal(w: Compensation.World, id: nat)
    requires Compensation.Inv(w) && id in w.s.db.orders && w.s.db.orders[id].status in {Confirmed, Fulfilled}
    ensures var o := w.s.db.orders[id];
            && o.paymentId.Some? && o.paymentId.value < |w.s.pay.intents|
            && w.s.pay.intents[o.paymentId.value].status in {Payment.Authorized, Payment.Status.Refunded}
            && w.s.pay.intents[o.paymentId.value].amount == o.total && w.s.pay.intents[o.paymentId.value].orderRef == id
  {
    assert Compensation.OrderOk(w, id);
  }

  /** An order is confirmed, and stays so, only on a payment of exactly its total. */
  lemma ConfirmedIsPaid(acts: seq<Compensation.Act>, id: nat)
    requires id in Compensation.Run(Compensation.START, acts).s.db.orders
    requires Compensation.Run(Compensation.START, acts).s.db.orders[id].status in {Confirmed, Fulfilled}
    ensures var s := Compensation.Run(Compensation.START, acts).s;
            var o := s.db.orders[id];
            && o.paymentId.Some? && o.paymentId.value < |s.pay.intents|
            && s.pay.intents[o.paymentId.value].status in {Payment.Authorized, Payment.Status.Refunded}
            && s.pay.intents[o.paymentId.value].amount == o.total && s.pay.intents[o.paymentId.value].orderRef == id
  {
    Compensation.StartOk();
    Compensation.RunKeeps(Compensation.START, acts);
    ConfirmedPaysTotal(Compensation.Run(Compensation.START, acts), id);
  }

  // ---- the query's limit -----------------------------------------------------------------------

  /** The query misses a pending order only when as many as its limit are at least as old. */
  lemma ListedUnlessCrowdedOut(db: OrderStore.Db, cutoff: int, n: nat, out: seq<OrderStore.Owed>, id: nat)
    requires OrderStore.Listing(db, cutoff, n, out) && OrderStore.Pending(db, id, cutoff)
    requires |set k | k in db.orders && k != id && OrderStore.Pending(db, k, cutoff) && db.orders[k].updatedAt <= db.orders[id].updatedAt| < n
    ensures OrderStore.Lists(out, id)
  {
    var older := set k | k in db.orders && k != id && OrderStore.Pending(db, k, cutoff) && db.orders[k].updatedAt <= db.orders[id].updatedAt;
    if !OrderStore.Lists(out, id) {
      var ids := ListedIds(out);
      assert ids <= older by {
        forall k | k in ids ensures k in older {
          var i :| 0 <= i < |out| && out[i].order == k;
        }
      }
      ListedIdsCount(out);
      Smaller(ids, older);
    }
  }

  function ListedIds(out: seq<OrderStore.Owed>): set<nat> {
    set i | 0 <= i < |out| :: out[i].order
  }

  lemma {:induction false} ListedIdsCount(out: seq<OrderStore.Owed>)
    requires forall j, k :: 0 <= j < k < |out| ==> out[j].order != out[k].order
    ensures |ListedIds(out)| == |out|
  {
    if out != [] {
      var n := |out| - 1;
      ListedIdsCount(out[..n]);
      assert ListedIds(out) == ListedIds(out[..n]) + {out[n].order} by {
        forall k | k in ListedIds(out) ensures k in ListedIds(out[..n]) + {out[n].order} {
          var i :| 0 <= i < |out| && out[i].order == k;
          assert i < n ==> out[..n][i].order == k;
        }
        forall k | k in ListedIds(out[..n]) ensures k in ListedIds(out) {
          var i :| 0 <= i < n && out[..n][i].order == k;
          assert out[i].order == k;
        }
      }
      assert out[n].order !in ListedIds(out[..n]);
    }
  }

  lemma Smaller(a: set<nat>, b: set<nat>)
    requires a <= b
    ensures |a| <= |b|
  {
    assert b == a + (b - a);
  }

  // ---- what a sweep gets done ----------------------------------------------------------------------

  function Paying(s: Services, order: nat, payment: nat, up: Todo -> bool): Services {
    if up(Void(payment, Some(order))) && CanVoid(s.pay, payment) then
      var t := s.(pay := Payment.Transitioned(s.pay, payment, Payment.Voided));
      if up(MarkVoided(order)) then t.(db := OrderStore.MarkedVoided(t.db, order)) else t
    else s
  }

  function Freeing(s: Services, order: nat, reservation: nat, up: Todo -> bool): Services {
    if up(Release(reservation, Some(order))) && CanFinish(s.inv, reservation) then
      var t := s.(inv := Inventory.Finished(s.inv, reservation, false));
      if up(MarkReleased(order)) then t.(db := OrderStore.MarkedReleased(t.db, order)) else t
    else s
  }

  lemma WorkUnit(s: Services, up: Todo -> bool, todo: seq<Todo>)
    requires todo != []
    ensures Work(s, up, todo) == Work(Do(s, todo, up(todo[0])).s, up, Do(s, todo, up(todo[0])).todo)
  {
  }

  lemma ReleaseWork(s: Services, up: Todo -> bool, order: nat, reservation: nat)
    ensures Work(s, up, [Release(reservation, Some(order))]) == Freeing(s, order, reservation, up)
  {
    var todo := [Release(reservation, Some(order))];
    var t := Do(s, todo, up(todo[0]));
    WorkUnit(s, up, todo);
    assert todo[1..] == [];
    if t.todo != [] {
      assert t.todo == [MarkReleased(order)];
      WorkUnit(t.s, up, t.todo);
      assert t.todo[1..] == [];
    }
  }

  lemma VoidWork(s: Services, up: Todo -> bool, order: nat, payment: nat)
    ensures Work(s, up, [Void(payment, Some(order))]) == Paying(s, order, payment, up)
  {
    var todo := [Void(payment, Some(order))];
    var t := Do(s, todo, up(todo[0]));
    WorkUnit(s, up, todo);
    assert todo[1..] == [];
    if t.todo != [] {
      assert t.todo == [MarkVoided(order)];
      WorkUnit(t.s, up, t.todo);
      assert t.todo[1..] == [];
    }
  }

  /** Whether a listed order's release, or its void, gets recorded: its own two calls decide. */
  predicate Frees(o: OrderStore.Owed, up: Todo -> bool) {
    o.reservation.Some? && up(Release(o.reservation.value, Some(o.order))) && up(MarkReleased(o.order))
  }

  predicate Voids(pay: Payment.Ledger, o: OrderStore.Owed, up: Todo -> bool) {
    o.payment.Some? && up(Void(o.payment.value, Some(o.order))) && CanVoid(pay, o.payment.value) && up(MarkVoided(o.order))
  }

  /** How an order, its reservation and its payment stand after the sweep did its part of it. */
  function After(pay: Payment.Ledger, o: Order, owed: OrderStore.Owed, up: Todo -> bool): Order {
    o.(released := o.released || Frees(owed, up), voided := o.voided || Voids(pay, owed, up))
  }

  function Freed(r: Inventory.Reservation, called: bool): Inventory.Reservation {
    if called && r.status == Inventory.Held then r.(status := Inventory.Released) else r
  }

  function Unpaid(i: Payment.Intent, called: bool): Payment.Intent {
    if called && i.status != Payment.Failed && i.status != Payment.Status.Refunded then i.(status := Payment.Voided) else i
  }

  function ReservationsAfter(rs: seq<Inventory.Reservation>, o: OrderStore.Owed, up: Todo -> bool): seq<Inventory.Reservation> {
    if o.reservation == None || o.reservation.value >= |rs| then rs
    else rs[o.reservation.value := Freed(rs[o.reservation.value], up(Release(o.reservation.value, Some(o.order))))]
  }

  function IntentsAfter(intents: seq<Payment.Intent>, o: OrderStore.Owed, up: Todo -> bool): seq<Payment.Intent> {
    if o.payment == None || o.payment.value >= |intents| then intents
    else intents[o.payment.value := Unpaid(intents[o.payment.value], up(Void(o.payment.value, Some(o.order))))]
  }

  lemma FreeingDoes(s: Services, up: Todo -> bool, o: OrderStore.Owed)
    requires StockAccounting.Accounted(s.inv) && o.order in s.db.orders
    ensures var t := Work(s, up, ReleaseOf(o.reservation, Some(o.order)));
            var was := s.db.orders[o.order];
            && StockAccounting.Accounted(t.inv) && t.pay == s.pay
            && t.inv.reservations == ReservationsAfter(s.inv.reservations, o, up)
            && t.db.orders == s.db.orders[o.order := was.(released := was.released || Frees(o, up))]
  {
    if o.reservation.Some? {
      var r := o.reservation.value;
      ReleaseWork(s, up, o.order, r);
      StockAccounting.FinishKeeps(s.inv, r, false);
      assert CanFinish(s.inv, r);
    }
  }

  lemma PayingDoes(s: Services, up: Todo -> bool, o: OrderStore.Owed)
    requires o.order in s.db.orders
    ensures var t := Work(s, up, VoidOf(o.payment, Some(o.order)));
            var was := s.db.orders[o.order];
            && t.inv == s.inv && t.pay.intents == IntentsAfter(s.pay.intents, o, up)
            && t.db.orders == s.db.orders[o.order := was.(voided := was.voided || Voids(s.pay, o, up))]
  {
    if o.payment.Some? {
      VoidWork(s, up, o.order, o.payment.value);
    }
  }

  /** t is s with the work for one listed order done. */
  ghost predicate Discharged(s: Services, t: Services, up: Todo -> bool, o: OrderStore.Owed)
    requires o.order in s.db.orders
  {
    && t.db.orders == s.db.orders[o.order := After(s.pay, s.db.orders[o.order], o, up)]
    && t.inv.reservations == ReservationsAfter(s.inv.reservations, o, up)
    && t.pay.intents == IntentsAfter(s.pay.intents, o, up)
  }

  lemma OwedWork(s: Services, up: Todo -> bool, o: OrderStore.Owed)
    requires StockAccounting.Accounted(s.inv) && o.order in s.db.orders
    ensures var t := Work(s, up, OwedTodo(o));
            StockAccounting.Accounted(t.inv) && Discharged(s, t, up, o)
  {
    var mid := Work(s, up, ReleaseOf(o.reservation, Some(o.order)));
    OwedInTwo(s, up, o);
    FreeingDoes(s, up, o);
    assert o.order in mid.db.orders;
    PayingDoes(mid, up, o);
    FreedThenPaid(s, mid, Work(mid, up, VoidOf(o.payment, Some(o.order))), up, o);
  }

  lemma OwedInTwo(s: Services, up: Todo -> bool, o: OrderStore.Owed)
    ensures Work(s, up, OwedTodo(o)) ==
            Work(Work(s, up, ReleaseOf(o.reservation, Some(o.order))), up, VoidOf(o.payment, Some(o.order)))
  {
    WorkAppend(s, up, ReleaseOf(o.reservation, Some(o.order)), VoidOf(o.payment, Some(o.order)));
  }

  lemma FreedThenPaid(s: Services, mid: Services, t: Services, up: Todo -> bool, o: OrderStore.Owed)
    requires o.order in s.db.orders && mid.pay == s.pay
    requires mid.db.orders == s.db.orders[o.order := s.db.orders[o.order].(released := s.db.orders[o.order].released || Frees(o, up))]
    requires var was := mid.db.orders[o.order];
             t.db.orders == mid.db.orders[o.order := was.(voided := was.voided || Voids(mid.pay, o, up))]
    ensures t.db.orders == s.db.orders[o.order := After(s.pay, s.db.orders[o.order], o, up)]
  {
  }

  /** No two listed orders are the same, or share a reservation or a payment. */
  ghost predicate Apart(pending: seq<OrderStore.Owed>) {
    forall j, k :: 0 <= j < k < |pending| ==>
      && pending[j].order != pending[k].order
      && (pending[j].reservation.Some? ==> pending[j].reservation != pending[k].reservation)
      && (pending[j].payment.Some? ==> pending[j].payment != pending[k].payment)
  }

  predicate Holds(pending: seq<OrderStore.Owed>, reservation: nat) {
    exists k :: 0 <= k < |pending| && pending[k].reservation == Some(reservation)
  }

  predicate Charges(pending: seq<OrderStore.Owed>, payment: nat) {
    exists k :: 0 <= k < |pending| && pending[k].payment == Some(payment)
  }

  // What the sweep leaves of orders, reservations and payments: each listed one as its own calls decide, and
  // every other as it was.

  ghost predicate OrdersSwept(s: Services, t: Services, up: Todo -> bool, pending: seq<OrderStore.Owed>) {
    && t.db.orders.Keys == s.db.orders.Keys
    && (forall k :: 0 <= k < |pending| ==>
          pending[k].order in s.db.orders
          && t.db.orders[pending[k].order] == After(s.pay, s.db.orders[pending[k].order], pending[k], up))
    && (forall id :: id in s.db.orders && !OrderStore.Lists(pending, id) ==> t.db.orders[id] == s.db.orders[id])
  }

  ghost predicate ReservationsSwept(
    rs: seq<Inventory.Reservation>, after: seq<Inventory.Reservation>, up: Todo -> bool, pending: seq<OrderStore.Owed>)
  {
    && |after| == |rs|
    && (forall k :: 0 <= k < |pending| && pending[k].reservation.Some? && pending[k].reservation.value < |rs| ==>
          after[pending[k].reservation.value] ==
          Freed(rs[pending[k].reservation.value], up(Release(pending[k].reservation.value, Some(pending[k].order)))))
    && (forall r :: 0 <= r < |rs| && !Holds(pending, r) ==> after[r] == rs[r])
  }

  ghost predicate PaymentsSwept(
    intents: seq<Payment.Intent>, after: seq<Payment.Intent>, up: Todo -> bool, pending: seq<OrderStore.Owed>)
  {
    && |after| == |intents|
    && (forall k :: 0 <= k < |pending| && pending[k].payment.Some? && pending[k].payment.value < |intents| ==>
          after[pending[k].payment.value] ==
          Unpaid(intents[pending[k].payment.value], up(Void(pending[k].payment.value, Some(pending[k].order)))))
    && (forall i :: 0 <= i < |intents| && !Charges(pending, i) ==> after[i] == intents[i])
  }

  ghost predicate Swept(s: Services, t: Services, up: Todo -> bool, pending: seq<OrderStore.Owed>) {
    && OrdersSwept(s, t, up, pending)
    && ReservationsSwept(s.inv.reservations, t.inv.reservations, up, pending)
    && PaymentsSwept(s.pay.intents, t.pay.intents, up, pending)
  }

  lemma ListsPrefix(pending: seq<OrderStore.Owed>, id: nat)
    requires pending != []
    ensures OrderStore.Lists(pending, id) <==> OrderStore.Lists(pending[..|pending| - 1], id) || pending[|pending| - 1].order == id
  {
    var rest := pending[..|pending| - 1];
    if OrderStore.Lists(rest, id) {
      var k :| 0 <= k < |rest| && rest[k].order == id;
      assert pending[k].order == id;
    }
    if OrderStore.Lists(pending, id) {
      var k :| 0 <= k < |pending| && pending[k].order == id;
      assert k < |rest| ==> rest[k].order == id;
    }
  }

  lemma HoldsPrefix(pending: seq<OrderStore.Owed>, reservation: nat)
    requires pending != []
    ensures Holds(pending[..|pending| - 1], reservation) || pending[|pending| - 1].reservation == Some(reservation) ==>
              Holds(pending, reservation)
  {
    var rest := pending[..|pending| - 1];
    if Holds(rest, reservation) {
      var k :| 0 <= k < |rest| && rest[k].reservation == Some(reservation);
      assert pending[k].reservation == Some(reservation);
    }
  }

  lemma ChargesPrefix(pending: seq<OrderStore.Owed>, payment: nat)
    requires pending != []
    ensures Charges(pending[..|pending| - 1], payment) || pending[|pending| - 1].payment == Some(payment) ==>
              Charges(pending, payment)
  {
    var rest := pending[..|pending| - 1];
    if Charges(rest, payment) {
      var k :| 0 <= k < |rest| && rest[k].payment == Some(payment);
      assert pending[k].payment == Some(payment);
    }
  }

  /** The last listed order, its reservation and its payment are as they were until its turn comes. */
  lemma TurnStillToCome(s: Services, mid: Services, up: Todo -> bool, pending: seq<OrderStore.Owed>)
    requires pending != [] && Apart(pending) && Swept(s, mid, up, pending[..|pending| - 1])
    requires pending[|pending| - 1].order in s.db.orders
    ensures var o := pending[|pending| - 1];
            && mid.db.orders[o.order] == s.db.orders[o.order]
            && (o.reservation.Some? && o.reservation.value < |s.inv.reservations| ==>
                  mid.inv.reservations[o.reservation.value] == s.inv.reservations[o.reservation.value])
            && (o.payment.Some? && o.payment.value < |s.pay.intents| ==>
                  mid.pay.intents[o.payment.value] == s.pay.intents[o.payment.value])
  {
    var rest, o := pending[..|pending| - 1], pending[|pending| - 1];
    assert !OrderStore.Lists(rest, o.order);
    assert o.reservation.Some? ==> !Holds(rest, o.reservation.value);
    assert o.payment.Some? ==> !Charges(rest, o.payment.value);
  }

  lemma OneMoreSwept(s: Services, mid: Services, t: Services, up: Todo -> bool, pending: seq<OrderStore.Owed>)
    requires pending != [] && Apart(pending) && Swept(s, mid, up, pending[..|pending| - 1])
    requires pending[|pending| - 1].order in s.db.orders && Discharged(mid, t, up, pending[|pending| - 1])
    ensures Swept(s, t, up, pending)
  {
    TurnStillToCome(s, mid, up, pending);
    OneMoreOrder(s, mid, t, up, pending);
    OneMoreReservation(s.inv.reservations, mid.inv.reservations, t.inv.reservations, up, pending);
    OneMorePayment(s.pay.intents, mid.pay.intents, t.pay.intents, up, pending);
  }

  lemma OneMoreOrder(s: Services, mid: Services, t: Services, up: Todo -> bool, pending: seq<OrderStore.Owed>)
    requires pending != [] && Apart(pending) && OrdersSwept(s, mid, up, pending[..|pending| - 1])
    requires var o := pending[|pending| - 1];
             && o.order in s.db.orders
             && mid.db.orders[o.order] == s.db.orders[o.order]
             && |mid.pay.intents| == |s.pay.intents|
             && (o.payment.Some? && o.payment.value < |s.pay.intents| ==>
                   mid.pay.intents[o.payment.value] == s.pay.intents[o.payment.value])
             && t.db.orders == mid.db.orders[o.order := After(mid.pay, mid.db.orders[o.order], o, up)]
    ensures OrdersSwept(s, t, up, pending)
  {
    var n := |pending| - 1;
    assert After(mid.pay, s.db.orders[pending[n].order], pending[n], up) == After(s.pay, s.db.orders[pending[n].order], pending[n], up);
    forall k | 0 <= k < n
      ensures pending[k].order in s.db.orders
              && t.db.orders[pending[k].order] == After(s.pay, s.db.orders[pending[k].order], pending[k], up)
    {
      assert pending[..n][k] == pending[k] && pending[k].order != pending[n].order;
    }
    OtherOrdersStay(s, mid, t, pending);
  }

  lemma OtherOrdersStay(s: Services, mid: Services, t: Services, pending: seq<OrderStore.Owed>)
    requires pending != []
    requires mid.db.orders.Keys == s.db.orders.Keys && pending[|pending| - 1].order in t.db.orders
    requires t.db.orders == mid.db.orders[pending[|pending| - 1].order := t.db.orders[pending[|pending| - 1].order]]
    requires forall id :: id in s.db.orders && !OrderStore.Lists(pending[..|pending| - 1], id) ==> mid.db.orders[id] == s.db.orders[id]
    ensures forall id :: id in s.db.orders && !OrderStore.Lists(pending, id) ==> t.db.orders[id] == s.db.orders[id]
  {
    forall id | id in s.db.orders && !OrderStore.Lists(pending, id) ensures t.db.orders[id] == s.db.orders[id] {
      ListsPrefix(pending, id);
    }
  }

  lemma OneMoreReservation(rs: seq<Inventory.Reservation>, mid: seq<Inventory.Reservation>, after: seq<Inventory.Reservation>,
                           up: Todo -> bool, pending: seq<OrderStore.Owed>)
    requires pending != [] && Apart(pending) && ReservationsSwept(rs, mid, up, pending[..|pending| - 1])
    requires var o := pending[|pending| - 1];
             && (o.reservation.Some? && o.reservation.value < |rs| ==> mid[o.reservation.value] == rs[o.reservation.value])
             && after == ReservationsAfter(mid, o, up)
    ensures ReservationsSwept(rs, after, up, pending)
  {
    var n := |pending| - 1;
    forall k | 0 <= k < n && pending[k].reservation.Some? && pending[k].reservation.value < |rs|
      ensures after[pending[k].reservation.value] ==
              Freed(rs[pending[k].reservation.value], up(Release(pending[k].reservation.value, Some(pending[k].order))))
    {
      assert pending[..n][k] == pending[k] && pending[k].reservation != pending[n].reservation;
    }
    forall r | 0 <= r < |rs| && !Holds(pending, r) ensures after[r] == rs[r] {
      HoldsPrefix(pending, r);
    }
  }

  lemma OneMorePayment(intents: seq<Payment.Intent>, mid: seq<Payment.Intent>, after: seq<Payment.Intent>,
                       up: Todo -> bool, pending: seq<OrderStore.Owed>)
    requires pending != [] && Apart(pending) && PaymentsSwept(intents, mid, up, pending[..|pending| - 1])
    requires var o := pending[|pending| - 1];
             && (o.payment.Some? && o.payment.value < |intents| ==> mid[o.payment.value] == intents[o.payment.value])
             && after == IntentsAfter(mid, o, up)
    ensures PaymentsSwept(intents, after, up, pending)
  {
    var n := |pending| - 1;
    forall k | 0 <= k < n && pending[k].payment.Some? && pending[k].payment.value < |intents|
      ensures after[pending[k].payment.value] ==
              Unpaid(intents[pending[k].payment.value], up(Void(pending[k].payment.value, Some(pending[k].order))))
    {
      assert pending[..n][k] == pending[k] && pending[k].payment != pending[n].payment;
    }
    forall i | 0 <= i < |intents| && !Charges(pending, i) ensures after[i] == intents[i] {
      ChargesPrefix(pending, i);
    }
  }

  lemma OneMoreWorked(s: Services, mid: Services, up: Todo -> bool, pending: seq<OrderStore.Owed>)
    requires pending != [] && Apart(pending) && Swept(s, mid, up, pending[..|pending| - 1])
    requires StockAccounting.Accounted(mid.inv) && pending[|pending| - 1].order in s.db.orders
    ensures var t := Work(mid, up, OwedTodo(pending[|pending| - 1]));
            StockAccounting.Accounted(t.inv) && Swept(s, t, up, pending)
  {
    var o := pending[|pending| - 1];
    OwedWork(mid, up, o);
    OneMoreSwept(s, mid, Work(mid, up, OwedTodo(o)), up, pending);
  }

  lemma {:induction false} SweepWork(s: Services, up: Todo -> bool, pending: seq<OrderStore.Owed>)
    requires StockAccounting.Accounted(s.inv) && Apart(pending)
    requires forall k :: 0 <= k < |pending| ==> pending[k].order in s.db.orders
    ensures StockAccounting.Accounted(Work(s, up, SweepTodo(pending)).inv)
    ensures Swept(s, Work(s, up, SweepTodo(pending)), up, pending)
  {
    if pending != [] {
      var n := |pending| - 1;
      var rest, o := pending[..n], pending[n];
      assert forall k :: 0 <= k < n ==> rest[k] == pending[k];
      SweepWork(s, up, rest);
      SweepSteady(rest);
      WorkAppend(s, up, SweepTodo(rest), OwedTodo(o));
      OneMoreWorked(s, Work(s, up, SweepTodo(rest)), up, pending);
    }
  }

  /** Whether a payment is one that a void cannot reach. */
  predicate Final(st: Payment.Status) {
    st == Payment.Failed || st == Payment.Status.Refunded
  }

  /** What t keeps of s: all that is not listed; and reserved still counts exactly what is HELD. */
  ghost predicate LeavesTheRest(s: Services, t: Services, pending: seq<OrderStore.Owed>) {
    && t.db.orders.Keys == s.db.orders.Keys
    && |t.inv.reservations| == |s.inv.reservations| && |t.pay.intents| == |s.pay.intents|
    && (forall id :: id in s.db.orders && !OrderStore.Lists(pending, id) ==> t.db.orders[id] == s.db.orders[id])
    && (forall r :: 0 <= r < |s.inv.reservations| && !Holds(pending, r) ==> t.inv.reservations[r] == s.inv.reservations[r])
    && (forall i :: 0 <= i < |s.pay.intents| && !Charges(pending, i) ==> t.pay.intents[i] == s.pay.intents[i])
    && StockAccounting.Accounted(t.inv)
  }

  /** A listed reservation is freed exactly when its release succeeds, and marked when its mark lands as well. */
  ghost predicate ReleaseDone(s: Services, t: Services, up: Todo -> bool, id: nat, r: nat) {
    && id in t.db.orders && r < |s.inv.reservations|
    && (Inventory.IsHeld(t.inv, r) <==> Inventory.IsHeld(s.inv, r) && !up(Release(r, Some(id))))
    && (t.db.orders[id].released <==> up(Release(r, Some(id))) && up(MarkReleased(id)))
  }

  /**
   A listed payment is VOIDED afterwards exactly when it was before, or its void succeeds and it was neither FAILED
   nor REFUNDED; it is marked when that void and its mark succeed.
   */
  ghost predicate VoidDone(s: Services, t: Services, up: Todo -> bool, id: nat, i: nat) {
    && id in t.db.orders && i < |s.pay.intents| && i < |t.pay.intents|
    && var voids := up(Void(i, Some(id))) && s.pay.intents[i].status !in {Payment.Failed, Payment.Status.Refunded};
       && (t.pay.intents[i].status == Payment.Voided <==> s.pay.intents[i].status == Payment.Voided || voids)
       && (t.db.orders[id].voided <==> voids && up(MarkVoided(id)))
  }

  /**
   A sweep in any reachable state, under any pattern of failures: each listed release, and each listed void, gets
   done and recorded as its own two calls decide. No failure elsewhere stands in its way, and no order, reservation
   or payment that is not listed changes.
   */
  lemma SweepDischarges(acts: seq<Compensation.Act>, cutoff: int, n: nat, pending: seq<OrderStore.Owed>, up: Todo -> bool, k: nat)
    requires OrderStore.Listing(Compensation.Run(Compensation.START, acts).s.db, cutoff, n, pending) && k < |pending|
    ensures var s := Compensation.Run(Compensation.START, acts).s;
            var t := Work(s, up, SweepTodo(pending));
            && (pending[k].reservation.Some? ==> ReleaseDone(s, t, up, pending[k].order, pending[k].reservation.value))
            && (pending[k].payment.Some? ==> VoidDone(s, t, up, pending[k].order, pending[k].payment.value))
            && LeavesTheRest(s, t, pending)
  {
    var w := Compensation.Run(Compensation.START, acts);
    Compensation.StartOk();
    Compensation.RunKeeps(Compensation.START, acts);
    ListedApart(w, cutoff, n, pending);
    SweepWork(w.s, up, pending);
    ListedOwes(w, cutoff, n, pending, k);
    if pending[k].reservation.Some? {
      ListedReleased(w.s, Work(w.s, up, SweepTodo(pending)), up, pending, k);
    }
    if pending[k].payment.Some? {
      ListedVoided(w.s, Work(w.s, up, SweepTodo(pending)), up, pending, k);
    }
  }

  /** What a listed order owes is what it has not been marked for. */
  lemma ListedOwes(w: Compensation.World, cutoff: int, n: nat, pending: seq<OrderStore.Owed>, k: nat)
    requires Compensation.Inv(w) && OrderStore.Listing(w.s.db, cutoff, n, pending) && k < |pending|
    ensures pending[k].order in w.s.db.orders
    ensures pending[k].reservation.Some? ==>
              pending[k].reservation.value < |w.s.inv.reservations| && !w.s.db.orders[pending[k].order].released
    ensures pending[k].payment.Some? ==>
              pending[k].payment.value < |w.s.pay.intents| && !w.s.db.orders[pending[k].order].voided
  {
    assert pending[k] == OrderStore.OwedBy(pending[k].order, w.s.db.orders[pending[k].order]);
    assert Compensation.OrderOk(w, pending[k].order);
  }

  lemma ListedReleased(s: Services, t: Services, up: Todo -> bool, pending: seq<OrderStore.Owed>, k: nat)
    requires OrdersSwept(s, t, up, pending) && k < |pending| && pending[k].reservation.Some?
    requires ReservationsSwept(s.inv.reservations, t.inv.reservations, up, pending)
    requires pending[k].reservation.value < |s.inv.reservations| && !s.db.orders[pending[k].order].released
    ensures ReleaseDone(s, t, up, pending[k].order, pending[k].reservation.value)
  {
    assert t.db.orders[pending[k].order] == After(s.pay, s.db.orders[pending[k].order], pending[k], up);
  }

  lemma ListedVoided(s: Services, t: Services, up: Todo -> bool, pending: seq<OrderStore.Owed>, k: nat)
    requires OrdersSwept(s, t, up, pending) && k < |pending| && pending[k].payment.Some?
    requires PaymentsSwept(s.pay.intents, t.pay.intents, up, pending)
    requires pending[k].payment.value < |s.pay.intents| && !s.db.orders[pending[k].order].voided
    ensures VoidDone(s, t, up, pending[k].order, pending[k].payment.value)
  {
    assert t.db.orders[pending[k].order] == After(s.pay, s.db.orders[pending[k].order], pending[k], up);
  }

  lemma ListedApart(w: Compensation.World, cutoff: int, n: nat, pending: seq<OrderStore.Owed>)
    requires Compensation.Inv(w) && OrderStore.Listing(w.s.db, cutoff, n, pending)
    ensures Apart(pending)
  {
    forall i, j | 0 <= i < j < |pending|
      ensures && pending[i].order != pending[j].order
              && (pending[i].reservation.Some? ==> pending[i].reservation != pending[j].reservation)
              && (pending[i].payment.Some? ==> pending[i].payment != pending[j].payment)
    {
      assert Compensation.OrderOk(w, pending[i].order) && Compensation.OrderOk(w, pending[j].order);
    }
  }
}
